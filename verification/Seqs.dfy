/** Facts about sequences that proofs name instead of leaving them to be found. */
module Seqs {

  lemma Associative<T>(a: seq<T>, b: seq<T>, c: seq<T>)
    ensures a + b + c == a + (b + c)
  {
  }

  lemma InitLast<T>(s: seq<T>)
    requires s != []
    ensures s[..|s| - 1] + [s[|s| - 1]] == s
  {
  }

  lemma AppendNext<T>(before: seq<T>, s: seq<T>, i: nat)
    requires i < |s|
    ensures before + s[..i + 1] == before + s[..i] + [s[i]]
  {
  }

  lemma CountTwice<T>(xs: seq<T>, i: nat, j: nat)
    requires i < j < |xs| && xs[i] == xs[j]
    ensures multiset(xs)[xs[i]] >= 2
  {
    var a, b := xs[..j], xs[j..];
    assert xs == a + b && a[i] == xs[i] && b[0] == xs[j];
    assert xs[i] in multiset(a) && xs[i] in multiset(b);
  }

  /** A list being rewritten in place: done up to `i`, untouched from there on. */
  ghost predicate HalfDone<T>(r: seq<T>, done: seq<T>, before: seq<T>, i: nat) {
    |r| == |done| == |before| && i <= |r| && r[..i] == done[..i] && r[i..] == before[i..]
  }

  lemma HalfDoneNext<T>(r: seq<T>, done: seq<T>, before: seq<T>, i: nat)
    requires HalfDone(r, done, before, i) && i < |r|
    ensures r[i] == before[i] && HalfDone(r[i := done[i]], done, before, i + 1)
  {
    assert r[i..][0] == before[i..][0];
    assert r[i := done[i]][..i + 1] == r[..i] + [done[i]];
    assert r[i := done[i]][i + 1..] == r[i..][1..];
  }

  lemma AllDone<T>(r: seq<T>, done: seq<T>, before: seq<T>)
    requires HalfDone(r, done, before, |r|)
    ensures r == done
  {
    assert r[..|r|] == r && done[..|r|] == done;
  }

  // ---- Selecting by flags ----

  /** What stands at the positions flagged as wanted, in order. */
  function Select<T>(xs: seq<T>, flags: seq<bool>, want: bool): (r: seq<T>)
    requires |xs| == |flags|
    ensures |r| <= |xs|
    decreases |xs|
  {
    if xs == [] then []
    else
      var init := Select(xs[..|xs| - 1], flags[..|xs| - 1], want);
      if flags[|xs| - 1] == want then init + [xs[|xs| - 1]] else init
  }

  lemma SelectNext<T>(xs: seq<T>, flags: seq<bool>, want: bool, n: nat)
    requires n < |xs| == |flags|
    ensures Select(xs[..n + 1], flags[..n + 1], want)
         == Select(xs[..n], flags[..n], want) + if flags[n] == want then [xs[n]] else []
  {
    assert xs[..n + 1][..n] == xs[..n] && flags[..n + 1][..n] == flags[..n];
  }

  lemma {:induction false} SelectSameLength<S, T>(xs: seq<S>, ys: seq<T>, flags: seq<bool>, want: bool)
    requires |xs| == |ys| == |flags|
    ensures |Select(xs, flags, want)| == |Select(ys, flags, want)|
    decreases |xs|
  {
    if xs != [] {
      SelectSameLength(xs[..|xs| - 1], ys[..|ys| - 1], flags[..|xs| - 1], want);
    }
  }

  /** What a selection holds at `j`, in two lists selected by the same flags. */
  lemma {:induction false} SelectedFrom<S, T>(xs: seq<S>, ys: seq<T>, flags: seq<bool>, want: bool, j: nat)
      returns (n: nat)
    requires |xs| == |ys| == |flags| && j < |Select(xs, flags, want)|
    ensures n < |xs| && flags[n] == want && Select(xs, flags, want)[j] == xs[n]
    ensures j < |Select(ys, flags, want)| && Select(ys, flags, want)[j] == ys[n]
    decreases |xs|
  {
    var m := |xs| - 1;
    SelectSameLength(xs[..m], ys[..m], flags[..m], want);
    if j < |Select(xs[..m], flags[..m], want)| {
      n := SelectedFrom(xs[..m], ys[..m], flags[..m], want, j);
    } else {
      n := m;
    }
  }
}
