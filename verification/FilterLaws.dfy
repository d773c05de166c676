/**
  When criteria filter alike: each check, as a function of every text, against conditions on the lists alone, and what
  that means for criteria and their normal form.
*/
module FilterLaws {
  import opened Options
  import opened Text
  import opened Lex
  import opened Jobs
  import opened Criteria

  // ---- Lists that act alike on every text ----

  ghost predicate ContainAlike(a: seq<string>, b: seq<string>) {
    forall text :: AnyContained(text, a) == AnyContained(text, b)
  }

  /** Both lists match the same of the titles that `excludes` lets through. */
  ghost predicate MatchAlike(excludes: seq<string>, a: seq<string>, b: seq<string>) {
    forall title :: !AnyContained(title, excludes) ==> AnyWord(title, a) == AnyWord(title, b)
  }

  /** The requires and includes checks pass every title when they have no words. */
  predicate Passes(title: string, words: seq<string>) {
    words == [] || AnyWord(title, words)
  }

  ghost predicate PassAlike(excludes: seq<string>, a: seq<string>, b: seq<string>) {
    forall title :: !AnyContained(title, excludes) ==> Passes(title, a) == Passes(title, b)
  }

  // ---- The conditions on the lists ----

  /** Every entry of `a`, case folded, contains one of `b`. */
  predicate EachContains(a: seq<string>, b: seq<string>) {
    forall i {:trigger AnyContained(a[i], b)} :: 0 <= i < |a| ==> AnyContained(a[i], b)
  }

  /** Every entry of `a` that is not itself excluded is matched by a word of `b`. */
  predicate EachMatched(excludes: seq<string>, a: seq<string>, b: seq<string>) {
    forall i {:trigger AnyWord(a[i], b)} :: 0 <= i < |a| && !AnyContained(a[i], excludes) ==> AnyWord(a[i], b)
  }

  predicate BothContain(a: seq<string>, b: seq<string>) {
    EachContains(a, b) && EachContains(b, a)
  }

  predicate BothMatched(excludes: seq<string>, a: seq<string>, b: seq<string>) {
    EachMatched(excludes, a, b) && EachMatched(excludes, b, a)
  }

  lemma ContainsItself(s: string)
    ensures ContainsText(s, s)
  {
    assert OccursAt(s, s, 0);
  }

  lemma ContainsThrough(s: string, part: string, piece: string)
    requires ContainsText(s, part) && ContainsText(part, piece)
    ensures ContainsText(s, piece)
  {
    var i :| 0 <= i <= |s| && OccursAt(s, part, i);
    var j :| 0 <= j <= |part| && OccursAt(part, piece, j);
    forall k | 0 <= k < |piece| ensures s[i + j + k] == piece[k] {
      assert part[j..j + |piece|][k] == part[j + k] && s[i..i + |part|][j + k] == s[i + j + k];
    }
    assert OccursAt(s, piece, i + j);
  }

  lemma ContainedThrough(text: string, entry: string, b: seq<string>)
    requires ContainsText(Lower(text), Lower(entry)) && AnyContained(entry, b)
    ensures AnyContained(text, b)
  {
    var n :| 0 <= n < |b| && ContainsText(Lower(entry), Lower(b[n]));
    ContainsThrough(Lower(text), Lower(entry), Lower(b[n]));
  }

  /** Two exclude lists act alike on every text exactly when every entry of each contains an entry of the other. */
  lemma {:induction false} ContainAlikeIff(a: seq<string>, b: seq<string>)
    ensures ContainAlike(a, b) <==> BothContain(a, b)
  {
    if ContainAlike(a, b) {
      EachContainsItself(a);
      EachContainsItself(b);
    }
    if BothContain(a, b) {
      forall text ensures AnyContained(text, a) == AnyContained(text, b) {
        if AnyContained(text, a) {
          ContainedInBoth(text, a, b);
        }
        if AnyContained(text, b) {
          ContainedInBoth(text, b, a);
        }
      }
    }
  }

  lemma EachContainsItself(a: seq<string>)
    ensures EachContains(a, a)
  {
    forall i | 0 <= i < |a| ensures AnyContained(a[i], a) {
      ContainsItself(Lower(a[i]));
    }
  }

  lemma ContainedInBoth(text: string, a: seq<string>, b: seq<string>)
    requires EachContains(a, b) && AnyContained(text, a)
    ensures AnyContained(text, b)
  {
    var n :| 0 <= n < |a| && ContainsText(Lower(text), Lower(a[n]));
    ContainedThrough(text, a[n], b);
  }

  // ---- Words ----

  lemma FoldedLetter(c: char, d: char)
    requires LowerChar(c) == LowerChar(d)
    ensures IsLetter(c) == IsLetter(d)
  {
  }

  /** Where a title holds a word, it holds what the word holds. */
  lemma WordThrough(title: string, word: string, inner: string, i: nat, j: nat)
    requires i <= |title| && WordAt(title, word, i) && j <= |word| && WordAt(word, inner, j)
    ensures WordAt(title, inner, i + j)
  {
    var n := |inner|;
    SameFold(title[i..i + |word|], word);
    forall k | 0 <= k < |word| ensures LowerChar(title[i + k]) == LowerChar(word[k]) {
      assert title[i..i + |word|][k] == title[i + k];
    }
    forall k | 0 <= k < n ensures Lower(title[i + j..i + j + n])[k] == Lower(inner)[k] {
      assert Lower(word[j..j + n])[k] == LowerChar(word[j + k]);
    }
    if j > 0 {
      FoldedLetter(title[i + j - 1], word[j - 1]);
    }
    if j + n < |word| {
      FoldedLetter(title[i + j + n], word[j + n]);
    }
  }

  lemma SameFold(a: string, b: string)
    requires Lower(a) == Lower(b)
    ensures |a| == |b| && forall k :: 0 <= k < |a| ==> LowerChar(a[k]) == LowerChar(b[k])
  {
    assert |a| == |Lower(a)| && |b| == |Lower(b)|;
    forall k | 0 <= k < |a| ensures LowerChar(a[k]) == LowerChar(b[k]) {
      assert Lower(a)[k] == Lower(b)[k];
    }
  }

  lemma MatchedThrough(title: string, word: string, b: seq<string>)
    requires MatchesWord(title, word) && AnyWord(word, b)
    ensures AnyWord(title, b)
  {
    var i :| 0 <= i <= |title| && WordAt(title, word, i);
    var n :| 0 <= n < |b| && MatchesWord(word, b[n]);
    var j :| 0 <= j <= |word| && WordAt(word, b[n], j);
    WordThrough(title, word, b[n], i, j);
    assert MatchesWord(title, b[n]);
  }

  lemma WordIsContained(title: string, word: string)
    requires MatchesWord(title, word)
    ensures ContainsText(Lower(title), Lower(word))
  {
    var i :| 0 <= i <= |title| && WordAt(title, word, i);
    assert Lower(title)[i..i + |word|] == Lower(title[i..i + |word|]);
    assert OccursAt(Lower(title), Lower(word), i);
  }

  lemma MatchesItself(word: string)
    ensures MatchesWord(word, word)
  {
    assert word[0..0 + |word|] == word;
    assert WordAt(word, word, 0);
  }

  lemma EachMatchedByItself(excludes: seq<string>, a: seq<string>)
    ensures EachMatched(excludes, a, a)
  {
    forall i | 0 <= i < |a| ensures AnyWord(a[i], a) {
      MatchesItself(a[i]);
    }
  }

  lemma MatchedInBoth(excludes: seq<string>, title: string, a: seq<string>, b: seq<string>)
    requires EachMatched(excludes, a, b) && !AnyContained(title, excludes) && AnyWord(title, a)
    ensures AnyWord(title, b)
  {
    var n :| 0 <= n < |a| && MatchesWord(title, a[n]);
    WordIsContained(title, a[n]);
    if AnyContained(a[n], excludes) {
      ContainedThrough(title, a[n], excludes);
    }
    MatchedThrough(title, a[n], b);
  }

  /**
    Two word lists match the same titles, of those that `excludes` lets through, exactly when every such entry of each
    is itself matched by a word of the other.
  */
  lemma {:induction false} MatchAlikeIff(excludes: seq<string>, a: seq<string>, b: seq<string>)
    ensures MatchAlike(excludes, a, b) <==> BothMatched(excludes, a, b)
  {
    if MatchAlike(excludes, a, b) {
      EachMatchedByItself(excludes, a);
      EachMatchedByItself(excludes, b);
    }
    if BothMatched(excludes, a, b) {
      forall title | !AnyContained(title, excludes) ensures AnyWord(title, a) == AnyWord(title, b) {
        if AnyWord(title, a) {
          MatchedInBoth(excludes, title, a, b);
        }
        if AnyWord(title, b) {
          MatchedInBoth(excludes, title, b, a);
        }
      }
    }
  }

  /** A title of letters that no word of the list matches. */
  lemma {:induction false} UnmatchedTitle(words: seq<string>) returns (title: string)
    ensures forall n :: 0 <= n < |words| ==> |words[n]| < |title|
    ensures forall i :: 0 <= i < |title| ==> title[i] == 'a'
    ensures title != "" && !AnyWord(title, words)
    decreases |words|
  {
    if words == [] {
      title := "a";
    } else {
      var shorter := UnmatchedTitle(words[1..]);
      title := shorter + seq(|words[0]|, _ => 'a');
      forall n | 0 <= n < |words| ensures |words[n]| < |title| {
        if n > 0 {
          assert words[n] == words[1..][n - 1];
        }
      }
    }
    forall n | 0 <= n < |words| ensures !MatchesWord(title, words[n]) {
      LettersAreOneWord(title, words[n]);
    }
  }

  lemma LettersAreOneWord(title: string, word: string)
    requires |word| < |title| && forall i :: 0 <= i < |title| ==> title[i] == 'a'
    ensures !MatchesWord(title, word)
  {
    forall i | 0 <= i <= |title| ensures !WordAt(title, word, i) {
      if i > 0 {
        assert IsLetter(title[i - 1]);
      } else {
        assert IsLetter(title[|word|]);
      }
    }
  }

  /** The check of two word lists: alike exactly when both or neither have words, and those match each other. */
  lemma {:induction false} PassAlikeIff(a: seq<string>, b: seq<string>)
    ensures PassAlike([], a, b) <==> (a == [] <==> b == []) && BothMatched([], a, b)
  {
    var title := UnmatchedTitle(a + b);
    NotInEither(title, a, b);
    MatchAlikeIff([], a, b);
    if a != [] && b != [] {
      PassIsMatch([], a, b);
    } else if a != [] || b != [] {
      assert Passes(title, a) != Passes(title, b);
    }
  }

  lemma NotInEither(title: string, a: seq<string>, b: seq<string>)
    requires !AnyWord(title, a + b)
    ensures !AnyWord(title, a) && !AnyWord(title, b)
  {
    forall n | 0 <= n < |a| ensures !MatchesWord(title, a[n]) {
      assert (a + b)[n] == a[n];
    }
    forall n | 0 <= n < |b| ensures !MatchesWord(title, b[n]) {
      assert (a + b)[|a| + n] == b[n];
    }
  }

  lemma PassIsMatch(excludes: seq<string>, a: seq<string>, b: seq<string>)
    requires a != [] && b != []
    ensures PassAlike(excludes, a, b) <==> MatchAlike(excludes, a, b)
  {
    if PassAlike(excludes, a, b) {
      forall title | !AnyContained(title, excludes) ensures AnyWord(title, a) == AnyWord(title, b) {
        assert Passes(title, a) == Passes(title, b);
      }
    }
  }

  /** The same below an exclude list, between lists that both have words. */
  lemma {:induction false} PassAlikeBelowIff(excludes: seq<string>, a: seq<string>, b: seq<string>)
    requires a != [] && b != []
    ensures PassAlike(excludes, a, b) <==> BothMatched(excludes, a, b)
  {
    PassIsMatch(excludes, a, b);
    MatchAlikeIff(excludes, a, b);
  }

  // ---- Criteria ----

  /** What can be read off two criteria: list by list, the entries answer for each other. */
  predicate ChecksMatch(c: Config, d: Config) {
    && BothContain(c.titleExcludes, d.titleExcludes) && BothContain(c.industryExcludes, d.industryExcludes)
    && (c.titleRequires == [] <==> d.titleRequires == []) && BothMatched([], c.titleRequires, d.titleRequires)
    && (c.titleIncludes == [] <==> d.titleIncludes == []) && BothMatched([], c.titleIncludes, d.titleIncludes)
  }

  /** Each list check gives the same answer on every text. */
  ghost predicate ChecksAlike(c: Config, d: Config) {
    && ContainAlike(c.titleExcludes, d.titleExcludes) && ContainAlike(c.industryExcludes, d.industryExcludes)
    && PassAlike([], c.titleRequires, d.titleRequires) && PassAlike([], c.titleIncludes, d.titleIncludes)
  }

  /** All four list checks of two criteria agree on every text exactly when their entries answer for each other. */
  lemma {:induction false} ChecksAlikeIff(c: Config, d: Config)
    ensures ChecksAlike(c, d) <==> ChecksMatch(c, d)
  {
    ContainAlikeIff(c.titleExcludes, d.titleExcludes);
    ContainAlikeIff(c.industryExcludes, d.industryExcludes);
    PassAlikeIff(c.titleRequires, d.titleRequires);
    PassAlikeIff(c.titleIncludes, d.titleIncludes);
  }

  ghost predicate SameTitleReasons(c: Config, d: Config) {
    forall title :: TitleReason(title, c) == TitleReason(title, d)
  }

  ghost predicate SameReasons(env: Env, c: Config, d: Config) {
    forall job: Job :: FilterReason(env, job, Some(c)) == FilterReason(env, job, Some(d))
  }

  /** The includes check is alike where the checks before it let a title through. */
  ghost predicate IncludesAlike(c: Config, d: Config) {
    forall title :: !AnyContained(title, c.titleExcludes) && Passes(title, c.titleRequires) ==>
      Passes(title, c.titleIncludes) == Passes(title, d.titleIncludes)
  }

  /**
    A check matters only for what the checks before it let through: exactly these agreements make all title reasons
    agree.
  */
  lemma {:induction false} SameTitleReasonsIff(c: Config, d: Config)
    ensures SameTitleReasons(c, d) <==>
      && BothContain(c.titleExcludes, d.titleExcludes)
      && PassAlike(c.titleExcludes, c.titleRequires, d.titleRequires)
      && IncludesAlike(c, d)
  {
    ContainAlikeIff(c.titleExcludes, d.titleExcludes);
    if SameTitleReasons(c, d) {
      forall title ensures AnyContained(title, c.titleExcludes) == AnyContained(title, d.titleExcludes) {
        assert TitleReason(title, c) == TitleReason(title, d);
      }
      forall title | !AnyContained(title, c.titleExcludes)
        ensures Passes(title, c.titleRequires) == Passes(title, d.titleRequires)
      {
        assert TitleReason(title, c) == TitleReason(title, d);
      }
      forall title | !AnyContained(title, c.titleExcludes) && Passes(title, c.titleRequires)
        ensures Passes(title, c.titleIncludes) == Passes(title, d.titleIncludes)
      {
        assert TitleReason(title, c) == TitleReason(title, d);
      }
    }
  }

  /** Whether some title gets past the title checks. */
  ghost predicate LetsSomeTitleThrough(c: Config) {
    exists title :: TitleReason(title, c) == ""
  }

  /**
    Criteria that differ in their lists alone give every job the same reason exactly when they give every title the
    same reason and, unless no title gets through at all, their industry excludes contain each other's entries.
  */
  lemma {:induction false} SameReasonsIff(env: Env, c: Config, d: Config)
    requires c.settings == d.settings && c.minBaseUSD == d.minBaseUSD
    ensures SameReasons(env, c, d) <==>
      && SameTitleReasons(c, d)
      && (LetsSomeTitleThrough(c) ==> BothContain(c.industryExcludes, d.industryExcludes))
  {
    ContainAlikeIff(c.industryExcludes, d.industryExcludes);
    if SameReasons(env, c, d) {
      forall title ensures TitleReason(title, c) == TitleReason(title, d) {
        ReasonsOfJob(env, title, "", c, d);
      }
      if title :| TitleReason(title, c) == "" {
        forall text ensures AnyContained(text, c.industryExcludes) == AnyContained(text, d.industryExcludes) {
          ReasonsOfJob(env, title, text, c, d);
        }
      }
    }
    if SameTitleReasons(c, d) && (LetsSomeTitleThrough(c) ==> ContainAlike(c.industryExcludes, d.industryExcludes)) {
      forall job: Job ensures FilterReason(env, job, Some(c)) == FilterReason(env, job, Some(d)) {
        assert TitleReason(job.title, c) == TitleReason(job.title, d);
        SameChecksSameReason(env, job, c, d);
      }
    }
  }

  lemma SameChecksSameReason(env: Env, job: Job, c: Config, d: Config)
    requires TitleReason(job.title, c) == TitleReason(job.title, d)
    requires TitleReason(job.title, c) == "" ==>
               AnyContained(job.description, c.industryExcludes) == AnyContained(job.description, d.industryExcludes)
    requires c.settings == d.settings && c.minBaseUSD == d.minBaseUSD
    ensures FilterReason(env, job, Some(c)) == FilterReason(env, job, Some(d))
  {
    assert PayFails(job, c) == PayFails(job, d);
  }

  lemma ReasonsOfJob(env: Env, title: string, text: string, c: Config, d: Config)
    requires SameReasons(env, c, d)
    ensures TitleReason(title, c) == TitleReason(title, d)
    ensures TitleReason(title, c) == "" ==>
              AnyContained(text, c.industryExcludes) == AnyContained(text, d.industryExcludes)
  {
    var job := Job("", "", "", "", None, None, title, "", "", "", "", [], "", 0, "", text);
    assert FilterReason(env, job, Some(c)) == FilterReason(env, job, Some(d));
  }

  lemma {:induction false} ChecksAlikeSameReasons(env: Env, c: Config, d: Config)
    requires ChecksAlike(c, d) && c.settings == d.settings && c.minBaseUSD == d.minBaseUSD
    ensures SameReasons(env, c, d)
  {
    ContainAlikeIff(c.titleExcludes, d.titleExcludes);
    ContainAlikeIff(c.industryExcludes, d.industryExcludes);
    AlikeBelow(c.titleExcludes, c.titleRequires, d.titleRequires);
    AlikeBelow(c.titleExcludes, c.titleIncludes, d.titleIncludes);
    SameTitleReasonsIff(c, d);
    SameReasonsIff(env, c, d);
  }

  lemma AlikeBelow(excludes: seq<string>, a: seq<string>, b: seq<string>)
    requires PassAlike([], a, b)
    ensures PassAlike(excludes, a, b)
  {
    forall title ensures Passes(title, a) == Passes(title, b) {
      assert !AnyContained(title, []);
    }
  }

  // ---- Entries and their normal form ----

  ghost predicate TidyList(values: seq<string>) {
    forall i :: 0 <= i < |values| ==> Tidy(values[i])
  }

  lemma NormalEntryIsTidy(value: string)
    requires NormalEntry(value) != ""
    ensures Tidy(NormalEntry(value)) && Lower(NormalEntry(value)) == NormalEntry(value)
  {
    FieldsAreWords(value);
    JoinIsTidy(Fields(value));
    LowerKeepsTidy(JoinWords(Fields(value)));
    LowerIdempotent(JoinWords(Fields(value)));
  }

  lemma TidyWhenFolded(s: string)
    requires Tidy(Lower(s))
    ensures Tidy(s)
  {
    forall i | 0 <= i < |s| - 1 && IsSpace(s[i]) ensures s[i] == ' ' && !IsSpace(s[i + 1]) {
      assert IsSpace(Lower(s)[i]) && !IsSpace(Lower(s)[i + 1]);
    }
    assert !IsSpace(Lower(s)[0]) && !IsSpace(Lower(s)[|s| - 1]);
  }

  lemma OneNormalEntry(value: string)
    ensures NormalList([value]) == if NormalEntry(value) == "" then [] else [NormalEntry(value)]
  {
    NormalSetNext([value], 0);
    assert [value][..0] == [] && [value][..1] == [value];
    var xs := if NormalEntry(value) == "" then [] else [NormalEntry(value)];
    SortedSetIs(NormalSet([value]), xs);
  }

  lemma LongerIsNotContained(text: string, value: string)
    requires ContainsText(Lower(text), Lower(value))
    ensures |value| <= |text| && (|value| == |text| ==> Lower(value) == Lower(text))
  {
    var i :| 0 <= i <= |text| && OccursAt(Lower(text), Lower(value), i);
    if |value| == |text| {
      assert Lower(text)[0..0 + |text|] == Lower(text);
    }
  }

  /** Two one-entry lists answer for each other exactly when the entries are equal up to case. */
  lemma {:induction false} OneEntryAlike(v: string, w: string)
    ensures BothContain([v], [w]) <==> Lower(v) == Lower(w)
    ensures BothMatched([], [v], [w]) <==> Lower(v) == Lower(w)
  {
    OneContained(v, w);
    OneContained(w, v);
    OneMatched(v, w);
    OneMatched(w, v);
    if Lower(v) == Lower(w) {
      SameFold(v, w);
      SameFoldMatches(v, w);
      SameFoldMatches(w, v);
      ContainsItself(Lower(v));
    }
    if ContainsText(Lower(v), Lower(w)) && ContainsText(Lower(w), Lower(v)) {
      LongerIsNotContained(v, w);
      LongerIsNotContained(w, v);
    }
    if MatchesWord(v, w) && MatchesWord(w, v) {
      WordIsContained(v, w);
      WordIsContained(w, v);
      LongerIsNotContained(v, w);
      LongerIsNotContained(w, v);
    }
  }

  lemma OneContained(v: string, w: string)
    ensures EachContains([v], [w]) <==> ContainsText(Lower(v), Lower(w))
  {
    assert AnyContained([v][0], [w]) <==> ContainsText(Lower(v), Lower([w][0]));
  }

  lemma OneMatched(v: string, w: string)
    ensures EachMatched([], [v], [w]) <==> MatchesWord(v, w)
  {
    assert !AnyContained(v, []);
    assert AnyWord([v][0], [w]) <==> MatchesWord(v, [w][0]);
  }

  lemma SameFoldMatches(v: string, w: string)
    requires Lower(v) == Lower(w)
    ensures MatchesWord(v, w)
  {
    SameFold(v, w);
    assert v[0..0 + |w|] == v;
    assert WordAt(v, w, 0);
  }

  /**
    An entry acts as what normalization leaves of it, in the exclude checks and in the word checks, exactly when it is
    trimmed, single-spaced and not blank.
  */
  lemma {:induction false} ActsAsNormalIff(value: string)
    ensures ContainAlike([value], NormalList([value])) <==> Tidy(value)
    ensures PassAlike([], [value], NormalList([value])) <==> Tidy(value)
  {
    var normal := NormalEntry(value);
    OneNormalEntry(value);
    ContainAlikeIff([value], NormalList([value]));
    PassAlikeIff([value], NormalList([value]));
    if Tidy(value) {
      TidyNormal(value);
      LowerIdempotent(value);
      OneEntryAlike(value, normal);
    } else if normal != "" {
      NormalEntryIsTidy(value);
      OneEntryAlike(value, normal);
      if Lower(value) == Lower(normal) {
        TidyWhenFolded(value);
      }
    } else {
      assert !AnyContained([value][0], []);
    }
  }

  lemma BlankIsDropped(values: seq<string>, more: seq<string>, blank: string)
    requires NormalEntry(blank) == "" && more == values + [blank]
    ensures NormalList(more) == NormalList(values)
  {
    NormalSetNext(more, |values|);
    assert more[..|values|] == values && more[..|values| + 1] == more;
    assert NormalSet(more) == NormalSet(values);
  }

  lemma MoreFound(text: string, values: seq<string>, more: seq<string>)
    requires |values| <= |more| && more[..|values|] == values
    ensures AnyContained(text, values) ==> AnyContained(text, more)
    ensures AnyWord(text, values) ==> AnyWord(text, more)
  {
    assert forall n :: 0 <= n < |values| ==> more[n] == values[n];
  }

  lemma {:induction false} OneMoreContained(values: seq<string>, more: seq<string>, entry: string)
    requires more == values + [entry]
    ensures BothContain(more, values) <==> AnyContained(entry, values)
  {
    EachContainsItself(values);
    forall i | 0 <= i < |values| ensures AnyContained(values[i], more) {
      MoreFound(values[i], values, more);
    }
    assert EachContains(values, more);
    assert AnyContained(more[|values|], values) <==> AnyContained(entry, values);
    forall i | 0 <= i < |values| ensures AnyContained(more[i], values) {
      assert more[i] == values[i] && AnyContained(values[i], values);
    }
  }

  lemma {:induction false} OneMoreMatched(values: seq<string>, more: seq<string>, entry: string)
    requires more == values + [entry]
    ensures BothMatched([], more, values) <==> AnyWord(entry, values)
  {
    EachMatchedByItself([], values);
    assert forall s :: !AnyContained(s, []);
    forall i | 0 <= i < |values| ensures AnyWord(values[i], more) {
      MoreFound(values[i], values, more);
    }
    assert EachMatched([], values, more);
    assert AnyWord(more[|values|], values) <==> AnyWord(entry, values);
    forall i | 0 <= i < |values| ensures AnyWord(more[i], values) {
      assert more[i] == values[i] && AnyWord(values[i], values);
    }
  }

  /**
    A blank entry is dropped by normalization. That changes nothing exactly when the entry contains another one of an
    exclude list, or is matched by another one of a word list.
  */
  lemma {:induction false} BlankEntryActsIff(values: seq<string>, blank: string)
    requires NormalEntry(blank) == ""
    ensures NormalList(values + [blank]) == NormalList(values)
    ensures ContainAlike(values + [blank], values) <==> AnyContained(blank, values)
    ensures PassAlike([], values + [blank], values) <==> AnyWord(blank, values)
  {
    var more := values + [blank];
    BlankIsDropped(values, more, blank);
    ContainAlikeIff(more, values);
    OneMoreContained(values, more, blank);
    PassAlikeIff(more, values);
    OneMoreMatched(values, more, blank);
  }

  /** Excluding the empty entry rejects every title, although normalization drops it. */
  lemma EmptyExcludeRejectsAll(title: string, c: Config)
    requires "" in c.titleExcludes
    ensures TitleReason(title, c) == TITLE_EXCLUDES
  {
    var n :| 0 <= n < |c.titleExcludes| && c.titleExcludes[n] == "";
    assert OccursAt(Lower(title), Lower(c.titleExcludes[n]), 0);
  }

  // ---- Criteria and their normal form ----

  /** Every list check acts on every text as it would after normalization. */
  ghost predicate Faithful(criteria: Option<Config>) {
    criteria.Some? ==> ChecksMatch(criteria.value, NormalForm(criteria).value)
  }

  /** Equal normal forms give every job the same reason, for criteria whose checks act as those of their normal form. */
  lemma {:induction false} SameFormSameReason(env: Env, job: Job, c1: Option<Config>, c2: Option<Config>)
    requires Faithful(c1) && Faithful(c2) && NormalForm(c1) == NormalForm(c2)
    ensures FilterReason(env, job, c1) == FilterReason(env, job, c2)
  {
    if c1.Some? {
      var form := NormalForm(c1).value;
      ChecksAlikeIff(c1.value, form);
      ChecksAlikeIff(c2.value, form);
      ChecksAlikeSameReasons(env, c1.value, form);
      ChecksAlikeSameReasons(env, c2.value, form);
      assert FilterReason(env, job, Some(c1.value)) == FilterReason(env, job, Some(form));
      assert FilterReason(env, job, Some(c2.value)) == FilterReason(env, job, Some(form));
    }
  }

  /** The lists the filter reads are tidy. */
  ghost predicate TidyCriteria(criteria: Option<Config>) {
    criteria.Some? ==>
      && TidyList(criteria.value.titleRequires) && TidyList(criteria.value.titleIncludes)
      && TidyList(criteria.value.titleExcludes) && TidyList(criteria.value.industryExcludes)
  }

  lemma {:induction false} TidyListActsAsNormal(values: seq<string>)
    requires TidyList(values)
    ensures BothContain(values, NormalList(values)) && BothMatched([], values, NormalList(values))
    ensures values == [] <==> NormalList(values) == []
  {
    var normal := NormalList(values);
    forall i | 0 <= i < |values| ensures AnyContained(values[i], normal) && AnyWord(values[i], normal) {
      var n := NormalOf(values, normal, i);
      EqualEntryAnswers(values[i], normal, n);
    }
    forall n | 0 <= n < |normal| ensures AnyContained(normal[n], values) && AnyWord(normal[n], values) {
      var i := NormalFrom(values, normal, n);
      EqualEntryAnswers(normal[n], values, i);
    }
    assert values != [] ==> AnyWord(values[0], normal);
    assert normal != [] ==> AnyWord(normal[0], values);
  }

  lemma NormalOf(values: seq<string>, normal: seq<string>, i: nat) returns (n: nat)
    requires normal == NormalList(values) && i < |values| && Tidy(values[i])
    ensures n < |normal| && Lower(normal[n]) == Lower(values[i])
  {
    SortedSetCorrect(NormalSet(values));
    TidyNormal(values[i]);
    LowerIdempotent(values[i]);
    assert NormalEntry(values[i]) in NormalSet(values);
    n :| 0 <= n < |normal| && normal[n] == NormalEntry(values[i]);
  }

  lemma NormalFrom(values: seq<string>, normal: seq<string>, n: nat) returns (i: nat)
    requires normal == NormalList(values) && n < |normal| && TidyList(values)
    ensures i < |values| && Lower(values[i]) == Lower(normal[n])
  {
    SortedSetCorrect(NormalSet(values));
    assert normal[n] in NormalSet(values);
    i :| 0 <= i < |values| && NormalEntry(values[i]) == normal[n];
    TidyNormal(values[i]);
    LowerIdempotent(values[i]);
  }

  lemma EqualEntryAnswers(entry: string, words: seq<string>, n: nat)
    requires n < |words| && Lower(words[n]) == Lower(entry)
    ensures AnyContained(entry, words) && AnyWord(entry, words)
  {
    ContainsItself(Lower(entry));
    SameFoldMatches(entry, words[n]);
  }

  /** Tidy criteria act as their normal form, so equal normal forms of tidy criteria give equal reasons. */
  lemma {:induction false} TidyIsFaithful(criteria: Option<Config>)
    requires TidyCriteria(criteria)
    ensures Faithful(criteria)
  {
    if criteria.Some? {
      TidyListActsAsNormal(criteria.value.titleRequires);
      TidyListActsAsNormal(criteria.value.titleIncludes);
      TidyListActsAsNormal(criteria.value.titleExcludes);
      TidyListActsAsNormal(criteria.value.industryExcludes);
    }
  }

  lemma {:induction false} TidySameFormSameReason(env: Env, job: Job, c1: Option<Config>, c2: Option<Config>)
    requires TidyCriteria(c1) && TidyCriteria(c2) && NormalForm(c1) == NormalForm(c2)
    ensures FilterReason(env, job, c1) == FilterReason(env, job, c2)
  {
    TidyIsFaithful(c1);
    TidyIsFaithful(c2);
    SameFormSameReason(env, job, c1, c2);
  }

  // ---- An entry with a stray space ----

  /** Excluding one title word and nothing else. */
  function Excluding(word: string): Config {
    Config([], [], [word], [], [], [], [], [], WorkSettings(false, false, false), 0, "")
  }

  /**
    Excluding one word: the criteria give every job the reason their normal form gives exactly when the word is tidy.
  */
  lemma {:induction false} ExcludingActsAsFormIff(env: Env, word: string)
    ensures SameReasons(env, Excluding(word), NormalForm(Some(Excluding(word))).value) <==> Tidy(word)
  {
    var c, form := Excluding(word), NormalForm(Some(Excluding(word))).value;
    assert NormalSet([]) == {};
    SortedSetIs({}, []);
    ActsAsNormalIff(word);
    ContainAlikeIff([word], NormalList([word]));
    SameTitleReasonsIff(c, form);
    SameReasonsIff(env, c, form);
  }

  /** A concrete pair: a leading space leaves the normal form alone and changes the reason. */
  lemma {:induction false} UntidyEntriesDiffer(env: Env, job: Job)
    requires job.title == "x"
    ensures NormalForm(Some(Excluding("x"))) == NormalForm(Some(Excluding(" x")))
    ensures FilterReason(env, job, Some(Excluding("x"))) == TITLE_EXCLUDES
    ensures FilterReason(env, job, Some(Excluding(" x"))) != TITLE_EXCLUDES
  {
    SpaceIsDropped();
    SameListSameForm("x", " x");
    ReasonWhenExcluding(env, job, "x");
    ReasonWhenExcluding(env, job, " x");
    ContainsItself(Lower("x"));
    if ContainsText(Lower(job.title), Lower(" x")) {
      LongerIsNotContained(job.title, " x");
    }
  }

  lemma SameListSameForm(v: string, w: string)
    requires NormalList([v]) == NormalList([w])
    ensures NormalForm(Some(Excluding(v))) == NormalForm(Some(Excluding(w)))
  {
  }

  lemma ReasonWhenExcluding(env: Env, job: Job, word: string)
    ensures FilterReason(env, job, Some(Excluding(word))) == TITLE_EXCLUDES
       <==> ContainsText(Lower(job.title), Lower(word))
  {
    assert AnyContained(job.title, [word]) <==> ContainsText(Lower(job.title), Lower([word][0]));
  }

  lemma SpaceIsDropped()
    ensures NormalList(["x"]) == NormalList([" x"])
  {
    assert " x"[1..] == "x";
    assert NormalEntry(" x") == NormalEntry("x");
    OneNormalEntry("x");
    OneNormalEntry(" x");
  }
}
