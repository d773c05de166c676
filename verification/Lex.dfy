/** `sort.Strings`: the lexicographic order on strings, and sorting as a function of the multiset sorted. */
module Lex {
  import opened Seqs

  predicate Le(a: string, b: string) {
    a == "" || (b != "" && (a[0] < b[0] || (a[0] == b[0] && Le(a[1..], b[1..]))))
  }

  lemma {:induction false} LeReflexive(a: string)
    ensures Le(a, a)
  {
    if a != "" {
      LeReflexive(a[1..]);
    }
  }

  lemma {:induction false} LeTotal(a: string, b: string)
    ensures Le(a, b) || Le(b, a)
  {
    if a != "" && b != "" {
      LeTotal(a[1..], b[1..]);
    }
  }

  lemma {:induction false} LeAntisymmetric(a: string, b: string)
    requires Le(a, b) && Le(b, a)
    ensures a == b
  {
    if a != "" {
      LeAntisymmetric(a[1..], b[1..]);
      assert a == [a[0]] + a[1..] && b == [b[0]] + b[1..];
    }
  }

  lemma {:induction false} LeTransitive(a: string, b: string, c: string)
    requires Le(a, b) && Le(b, c)
    ensures Le(a, c)
  {
    if a != "" && a[0] == b[0] == c[0] {
      LeTransitive(a[1..], b[1..], c[1..]);
    }
  }

  ghost predicate Sorted(xs: seq<string>) {
    forall i, j :: 0 <= i < j < |xs| ==> Le(xs[i], xs[j])
  }

  ghost predicate Distinct(xs: seq<string>) {
    forall i, j :: 0 <= i < j < |xs| ==> xs[i] != xs[j]
  }

  function Insert(x: string, xs: seq<string>): seq<string> {
    if xs == [] || Le(x, xs[0]) then [x] + xs else [xs[0]] + Insert(x, xs[1..])
  }

  function Sort(xs: seq<string>): seq<string> {
    if xs == [] then [] else Insert(xs[|xs| - 1], Sort(xs[..|xs| - 1]))
  }

  lemma {:induction false} InsertKeeps(x: string, xs: seq<string>)
    ensures multiset(Insert(x, xs)) == multiset(xs) + multiset{x}
  {
    if !(xs == [] || Le(x, xs[0])) {
      InsertKeeps(x, xs[1..]);
      assert xs == [xs[0]] + xs[1..];
    }
  }

  lemma {:induction false} InsertSorted(x: string, xs: seq<string>)
    requires Sorted(xs)
    ensures Sorted(Insert(x, xs))
  {
    var r := Insert(x, xs);
    if xs == [] {
    } else if Le(x, xs[0]) {
      forall j | 0 < j < |r| ensures Le(x, r[j]) {
        if j > 1 {
          LeTransitive(x, xs[0], xs[j - 1]);
        }
      }
    } else {
      InsertSorted(x, xs[1..]);
      InsertKeeps(x, xs[1..]);
      LeTotal(x, xs[0]);
      var tail := Insert(x, xs[1..]);
      forall j | 0 <= j < |tail| ensures Le(xs[0], tail[j]) {
        assert tail[j] in multiset(tail);
        if tail[j] != x {
          assert tail[j] in xs[1..];
        }
      }
    }
  }

  lemma {:induction false} SortCorrect(xs: seq<string>)
    ensures Sorted(Sort(xs)) && multiset(Sort(xs)) == multiset(xs)
  {
    if xs != [] {
      SortCorrect(xs[..|xs| - 1]);
      InsertSorted(xs[|xs| - 1], Sort(xs[..|xs| - 1]));
      InsertKeeps(xs[|xs| - 1], Sort(xs[..|xs| - 1]));
      assert xs == xs[..|xs| - 1] + [xs[|xs| - 1]];
    }
  }

  lemma FirstIsLeast(xs: seq<string>, x: string)
    requires Sorted(xs) && x in multiset(xs)
    ensures xs != [] && Le(xs[0], x)
  {
    var i :| 0 <= i < |xs| && xs[i] == x;
    LeReflexive(x);
  }

  lemma HeadsAgree(a: seq<string>, b: seq<string>)
    requires Sorted(a) && Sorted(b) && multiset(a) == multiset(b) && a != []
    ensures b != [] && a[0] == b[0]
  {
    assert a[0] in multiset(a);
    FirstIsLeast(b, a[0]);
    assert b[0] in multiset(b);
    FirstIsLeast(a, b[0]);
    LeAntisymmetric(a[0], b[0]);
  }

  lemma TailBag(a: seq<string>)
    requires a != []
    ensures multiset(a[1..]) == multiset(a) - multiset{a[0]}
  {
    assert a == [a[0]] + a[1..];
  }

  /** A multiset has one sorted listing. */
  lemma {:induction false} SortedUnique(a: seq<string>, b: seq<string>)
    requires Sorted(a) && Sorted(b) && multiset(a) == multiset(b)
    ensures a == b
  {
    if a == [] {
      assert |multiset(b)| == |b|;
    } else {
      HeadsAgree(a, b);
      TailBag(a);
      TailBag(b);
      SortedUnique(a[1..], b[1..]);
      assert a == [a[0]] + a[1..] && b == [b[0]] + b[1..];
    }
  }

  lemma {:induction false} SortEqualIff(a: seq<string>, b: seq<string>)
    ensures Sort(a) == Sort(b) <==> multiset(a) == multiset(b)
  {
    SortCorrect(a);
    SortCorrect(b);
    if multiset(a) == multiset(b) {
      SortedUnique(Sort(a), Sort(b));
    }
  }

  /** Some listing of a set; sorting makes the choice irrelevant. */
  ghost function Listing(keys: set<string>): (r: seq<string>)
    ensures multiset(r) == multiset(keys)
  {
    if keys == {} then []
    else
      var k :| k in keys;
      assert multiset(keys) == multiset(keys - {k}) + multiset{k};
      Listing(keys - {k}) + [k]
  }

  ghost function SortedSet(keys: set<string>): seq<string> {
    Sort(Listing(keys))
  }

  lemma SortedSetIs(keys: set<string>, xs: seq<string>)
    requires Sorted(xs) && Distinct(xs) && forall k :: k in xs <==> k in keys
    ensures xs == SortedSet(keys)
  {
    SortCorrect(Listing(keys));
    DistinctAsSet(xs, keys);
    SortedUnique(xs, SortedSet(keys));
  }

  lemma {:induction false} DistinctAsSet(xs: seq<string>, keys: set<string>)
    requires Distinct(xs) && forall k :: k in xs <==> k in keys
    ensures multiset(xs) == multiset(keys)
  {
    if xs == [] {
      assert keys == {};
    } else {
      var x := xs[0];
      assert xs == [x] + xs[1..];
      DistinctAsSet(xs[1..], keys - {x});
      assert multiset(keys) == multiset(keys - {x}) + multiset{x};
    }
  }

  lemma SortedSetCorrect(keys: set<string>)
    ensures Sorted(SortedSet(keys)) && Distinct(SortedSet(keys))
    ensures forall k :: k in SortedSet(keys) <==> k in keys
  {
    var r := SortedSet(keys);
    SortCorrect(Listing(keys));
    assert multiset(r) == multiset(keys);
    forall k ensures k in r <==> k in keys {
      assert k in r <==> k in multiset(r);
    }
    forall i, j | 0 <= i < j < |r| ensures r[i] != r[j] {
      if r[i] == r[j] {
        CountTwice(r, i, j);
      }
    }
  }
}
