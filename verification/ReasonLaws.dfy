/**
  The deterministic filter in plain terms: what each reason means, what counts as a word, and that rejections are
  kept.
*/
module ReasonLaws {
  import opened Options
  import opened Text
  import opened Lex
  import opened Seqs
  import opened Jobs
  import opened Criteria
  import opened DecisionStore
  import Salary

  // ---- Words ----

  predicate Letter(c: char) {
    'a' <= c <= 'z' || 'A' <= c <= 'Z'
  }

  /** A word is matched exactly when the title has it, case aside, with no letter right before it or right after it. */
  lemma {:induction false} MatchesWordIff(title: string, word: string)
    ensures MatchesWord(title, word) <==>
      exists before, found, after :: title == before + found + after && WordBetween(before, found, after, word)
  {
    if i :| 0 <= i <= |title| && WordAt(title, word, i) {
      var before, found, after := title[..i], title[i..i + |word|], title[i + |word|..];
      assert title == before + found + after && WordBetween(before, found, after, word);
    }
    if before, found, after :| title == before + found + after && WordBetween(before, found, after, word) {
      WordStandsAt(before, found, after, word, title);
    }
  }

  lemma WordStandsAt(before: string, found: string, after: string, word: string, title: string)
    requires title == before + found + after && WordBetween(before, found, after, word)
    ensures |before| <= |title| && WordAt(title, word, |before|)
  {
    assert |found| == |Lower(found)| == |Lower(word)| == |word|;
    assert title[|before|..|before| + |word|] == found;
  }

  predicate WordBetween(before: string, found: string, after: string, word: string) {
    && EqualFold(found, word)
    && (before != "" ==> !Letter(before[|before| - 1])) && (after != "" ==> !Letter(after[0]))
  }

  // ---- Entries ----

  /** Words are split at white space, wherever and however much of it there is. */
  lemma {:induction false} FieldsSplit(a: string, c: char, b: string)
    requires IsSpace(c)
    ensures Fields(a + [c] + b) == Fields(a) + Fields(b)
    decreases |a|
  {
    var s := a + [c] + b;
    if a == "" {
      assert s[1..] == b;
    } else if IsSpace(a[0]) {
      FieldsSplit(a[1..], c, b);
      assert s[1..] == a[1..] + [c] + b;
    } else {
      var n := FirstWordOfBoth(a, s, c, b);
      FieldsSplit(a[n..], c, b);
      Associative([a[..n]], Fields(a[n..]), Fields(b));
    }
  }

  lemma FirstWordOfBoth(a: string, s: string, c: char, b: string) returns (n: nat)
    requires a != "" && !IsSpace(a[0]) && IsSpace(c) && s == a + [c] + b
    ensures 0 < n <= |a|
    ensures Fields(a) == [a[..n]] + Fields(a[n..]) && Fields(s) == [a[..n]] + Fields(a[n..] + [c] + b)
  {
    n := WordEnd(a);
    WordEndOfPrefix(a, [c] + b);
    assert s == a + ([c] + b);
    assert s[n..] == a[n..] + [c] + b && s[..n] == a[..n];
  }

  lemma {:induction false} WordEndOfPrefix(a: string, rest: string)
    requires rest != "" && IsSpace(rest[0])
    ensures WordEnd(a + rest) == WordEnd(a)
  {
    if a != "" && !IsSpace(a[0]) {
      WordEndOfPrefix(a[1..], rest);
      assert (a + rest)[1..] == a[1..] + rest;
    } else if a == "" {
      assert a + rest == rest;
    }
  }

  /** A text without white space is one word, and an empty one is none. */
  lemma {:induction false} FieldsOfWord(word: string)
    requires forall i :: 0 <= i < |word| ==> !IsSpace(word[i])
    ensures Fields(word) == if word == "" then [] else [word]
  {
    if word != "" {
      FieldsAtWord(word);
    }
  }

  /** A list in normal form: strictly ascending, of the normalized entries that are not blank. */
  ghost predicate NormalOf(form: seq<string>, values: seq<string>) {
    && Sorted(form) && Distinct(form)
    && forall k :: k in form <==> k != "" && exists i :: 0 <= i < |values| && Lower(JoinWords(Fields(values[i]))) == k
  }

  lemma ListInForm(values: seq<string>)
    ensures NormalOf(NormalList(values), values)
  {
    SortedSetCorrect(NormalSet(values));
  }

  /** The form that is hashed: seven lists in normal form, the role families sorted as they are, all else unchanged. */
  lemma {:induction false} FormLists(c: Config)
    ensures var r := NormalForm(Some(c)).value;
      && NormalOf(r.titleRequires, c.titleRequires) && NormalOf(r.titleIncludes, c.titleIncludes)
      && NormalOf(r.titleExcludes, c.titleExcludes) && NormalOf(r.industryIncludes, c.industryIncludes)
      && NormalOf(r.industryExcludes, c.industryExcludes) && NormalOf(r.resolvedSourceIDs, c.resolvedSourceIDs)
      && NormalOf(r.prioritySignals, c.prioritySignals)
      && Sorted(r.roleFamilies) && Distinct(r.roleFamilies)
      && (forall k :: k in r.roleFamilies <==> k != "" && k in c.roleFamilies)
      && r.settings == c.settings && r.minBaseUSD == c.minBaseUSD && r.rest == c.rest
    ensures NormalForm(None) == None
  {
    ListInForm(c.titleRequires);
    ListInForm(c.titleIncludes);
    ListInForm(c.titleExcludes);
    ListInForm(c.industryIncludes);
    ListInForm(c.industryExcludes);
    ListInForm(c.resolvedSourceIDs);
    ListInForm(c.prioritySignals);
    SortedSetCorrect(set v | v in c.roleFamilies && v != "");
  }

  // ---- Reasons ----

  predicate Named(s: Signals) {
    s.remote || s.hybrid || s.onsite
  }

  predicate Wanted(s: Signals, settings: WorkSettings) {
    (s.remote && settings.remote) || (s.hybrid && settings.hybrid) || (s.onsite && settings.onsite)
  }

  /**
    The work setting fails: some are wanted, and what the remote text says, or if it says nothing the description, is
    none.
  */
  predicate WrongSetting(env: Env, job: Job, settings: WorkSettings) {
    && (settings.remote || settings.hybrid || settings.onsite)
    && var said := if Named(env.signals(job.remote)) then env.signals(job.remote) else env.signals(job.description);
       Named(said) && !Wanted(said, settings)
  }

  ghost predicate Excluded(text: string, words: seq<string>) {
    exists n :: 0 <= n < |words| && ContainsText(Lower(text), Lower(words[n]))
  }

  ghost predicate NoneMatches(title: string, words: seq<string>) {
    words != [] && forall n :: 0 <= n < |words| ==> !MatchesWord(title, words[n])
  }

  ghost predicate Underpaid(job: Job, minBase: int) {
    minBase > 0 && job.compensation !in {"", "Not listed"} && !Salary.PayAccepts(job.compensation, minBase)
  }

  /** The six checks in their order; the first that fails names the reason. */
  lemma {:induction false} ReasonIs(env: Env, job: Job, c: Config)
    ensures FilterReason(env, job, Some(c)) ==
      if Excluded(job.title, c.titleExcludes) then "title excludes"
      else if NoneMatches(job.title, c.titleRequires) then "title requirements"
      else if NoneMatches(job.title, c.titleIncludes) then "title includes"
      else if Excluded(job.description, c.industryExcludes) then "industry excludes"
      else if Underpaid(job, c.minBaseUSD) then "pay"
      else if WrongSetting(env, job, c.settings) then "work setting"
      else ""
    ensures FilterReason(env, job, None) == ""
  {
    assert Excluded(job.title, c.titleExcludes) <==> AnyContained(job.title, c.titleExcludes);
    assert Excluded(job.description, c.industryExcludes) <==> AnyContained(job.description, c.industryExcludes);
    assert NoneMatches(job.title, c.titleRequires) <==> c.titleRequires != [] && !AnyWord(job.title, c.titleRequires);
    assert NoneMatches(job.title, c.titleIncludes) <==> c.titleIncludes != [] && !AnyWord(job.title, c.titleIncludes);
    SettingIff(env, job, c.settings);
  }

  lemma SettingIff(env: Env, job: Job, settings: WorkSettings)
    ensures WrongSetting(env, job, settings) <==> !MatchesWorkSettings(env, job, settings)
  {
  }

  // ---- Rejections are kept ----

  lemma {:induction false} EveryReasonIsKnown(env: Env, job: Job, criteria: Option<Config>)
    ensures FilterReason(env, job, criteria) != "" ==> FilterReason(env, job, criteria) in REASONS
  {
  }

  /**
    A filtering pass and its recording: the candidate key of every rejected job ends up rejected under the criteria's
    normal form, and that of every kept job accepted unless some job with that key was rejected.
  */
  lemma {:induction false} PassIsRecorded(env: Env, criteria: Option<Config>, jobs: seq<Job>,
      filtered: map<string, seq<Job>>, m: map<DecisionKey, Stored>, order: seq<string>, i: nat)
    requires Grouped(env, criteria, jobs, filtered) && forall reason :: reason in order <==> reason in filtered
    requires i < |jobs| && CandidateKey(env, jobs[i]) != ""
    ensures var form := NormalForm(criteria);
      var k := DecisionKey(CandidateKey(env, jobs[i]), form, Deterministic);
      var accepted := PutAll(env, form, m, WithReason(env, criteria, jobs, ""), false, "");
      var r := PutGroups(env, form, accepted, filtered, order);
      && k in r
      && (FilterReason(env, jobs[i], criteria) != "" ==> r[k].rejected)
      && (r[k].rejected ==> exists j :: 0 <= j < |jobs| && CandidateKey(env, jobs[j]) == k.candidate &&
                              FilterReason(env, jobs[j], criteria) != "")
  {
    var form := NormalForm(criteria);
    var k := DecisionKey(CandidateKey(env, jobs[i]), form, Deterministic);
    var kept, reason := WithReason(env, criteria, jobs, ""), FilterReason(env, jobs[i], criteria);
    RejectionWins(env, form, m, kept, filtered, order, k);
    var at := WithReasonHolds(env, criteria, jobs, i);
    assert HasKey(env, WithReason(env, criteria, jobs, reason), k.candidate);
    if reason != "" {
      EveryReasonIsKnown(env, jobs[i], criteria);
      assert GroupIs(filtered, reason, WithReason(env, criteria, jobs, reason));
      var n :| 0 <= n < |order| && order[n] == reason;
      assert HasKey(env, filtered[order[n]], k.candidate);
      assert RejectedHere(env, filtered, order, k.candidate);
    } else {
      assert HasKey(env, kept, k.candidate);
    }
    if RejectedHere(env, filtered, order, k.candidate) {
      RejectedHereByAJob(env, criteria, jobs, filtered, order, k.candidate);
    }
  }

  /** A job is among those with its reason. */
  lemma {:induction false} WithReasonHolds(env: Env, criteria: Option<Config>, jobs: seq<Job>, i: nat) returns (n: nat)
    requires i < |jobs|
    ensures var sel := WithReason(env, criteria, jobs, FilterReason(env, jobs[i], criteria));
      n < |sel| && sel[n] == jobs[i]
    decreases |jobs|
  {
    var m, reason := |jobs| - 1, FilterReason(env, jobs[i], criteria);
    WithReasonNext(env, criteria, jobs, reason, m);
    assert jobs[..m + 1] == jobs;
    if i < m {
      n := WithReasonHolds(env, criteria, jobs[..m], i);
    } else {
      n := |WithReason(env, criteria, jobs[..m], reason)|;
    }
  }

  lemma {:induction false} RejectedHereByAJob(env: Env, criteria: Option<Config>, jobs: seq<Job>,
      filtered: map<string, seq<Job>>, order: seq<string>, candidate: string)
    requires Grouped(env, criteria, jobs, filtered) && RejectedHere(env, filtered, order, candidate)
    ensures exists j :: 0 <= j < |jobs| && CandidateKey(env, jobs[j]) == candidate &&
              FilterReason(env, jobs[j], criteria) != ""
  {
    var n :| 0 <= n < |order| && order[n] in REASONS && order[n] in filtered &&
        HasKey(env, filtered[order[n]], candidate);
    var reason := order[n];
    assert GroupIs(filtered, reason, WithReason(env, criteria, jobs, reason));
    var h :| 0 <= h < |filtered[reason]| && CandidateKey(env, filtered[reason][h]) == candidate;
    var j := SelectedFrom(jobs, jobs, GivenReason(env, criteria, jobs, reason), true, h);
  }
}
