/** Search criteria: the normal form that is hashed for the decision cache, and the deterministic filter. */
module Criteria {
  import opened Options
  import opened Text
  import opened Lex
  import opened Jobs
  import KeyedMerge
  import Salary

  // ---- Normalized entries ----

  /** Where the first word ends. */
  function WordEnd(s: string): (n: nat)
    ensures n <= |s| && (forall i :: 0 <= i < n ==> !IsSpace(s[i])) && (n < |s| ==> IsSpace(s[n]))
  {
    if s == "" || IsSpace(s[0]) then 0 else 1 + WordEnd(s[1..])
  }

  /** `strings.Fields`. */
  function Fields(s: string): seq<string>
    decreases |s|
  {
    if s == "" then []
    else if IsSpace(s[0]) then Fields(s[1..])
    else [s[..WordEnd(s)]] + Fields(s[WordEnd(s)..])
  }

  function JoinWords(words: seq<string>): string {
    if words == [] then ""
    else if |words| == 1 then words[0]
    else words[0] + [' '] + JoinWords(words[1..])
  }

  function NormalEntry(value: string): string {
    Lower(JoinWords(Fields(value)))
  }

  /** Trimmed, single-spaced and not blank. */
  predicate Tidy(s: string) {
    && s != "" && !IsSpace(s[0]) && !IsSpace(s[|s| - 1])
    && forall i :: 0 <= i < |s| - 1 && IsSpace(s[i]) ==> s[i] == ' ' && !IsSpace(s[i + 1])
  }

  lemma RestIsTidy(s: string, n: nat)
    requires Tidy(s) && n < |s| && IsSpace(s[n])
    ensures s[n] == ' ' && Tidy(s[n + 1..])
  {
    var rest := s[n + 1..];
    forall i | 0 <= i < |rest| - 1 && IsSpace(rest[i]) ensures rest[i] == ' ' && !IsSpace(rest[i + 1]) {
      assert rest[i] == s[n + 1 + i] && rest[i + 1] == s[n + 2 + i];
    }
  }

  lemma {:induction false} FieldsAtWord(s: string)
    requires s != "" && !IsSpace(s[0])
    ensures var n := WordEnd(s);
      if n < |s| then Fields(s) == [s[..n]] + Fields(s[n + 1..]) else Fields(s) == [s]
  {
    var n := WordEnd(s);
    if n < |s| {
      assert s[n..][1..] == s[n + 1..];
    } else {
      assert s[..n] == s && s[n..] == "";
    }
  }

  lemma CutAndJoin(s: string, n: nat)
    requires n < |s|
    ensures s[..n] + [s[n]] + s[n + 1..] == s
  {
  }

  lemma {:induction false} TidyIsFixed(s: string)
    requires Tidy(s)
    ensures JoinWords(Fields(s)) == s && Fields(s) != []
    decreases |s|
  {
    var n := WordEnd(s);
    FieldsAtWord(s);
    if n < |s| {
      RestIsTidy(s, n);
      TidyIsFixed(s[n + 1..]);
      JoinNext(s[..n], Fields(s[n + 1..]));
      CutAndJoin(s, n);
    }
  }

  lemma JoinNext(w: string, words: seq<string>)
    requires words != []
    ensures JoinWords([w] + words) == w + [' '] + JoinWords(words)
  {
    assert ([w] + words)[1..] == words;
  }

  lemma TidyNormal(s: string)
    requires Tidy(s)
    ensures NormalEntry(s) == Lower(s) != ""
  {
    TidyIsFixed(s);
  }

  /** Normalized entries stay as they are. */
  lemma NormalEntryIsFixed(value: string)
    ensures NormalEntry(NormalEntry(value)) == NormalEntry(value)
  {
    FieldsAreWords(value);
    if Fields(value) != [] {
      JoinIsTidy(Fields(value));
      LowerKeepsTidy(JoinWords(Fields(value)));
      TidyNormal(NormalEntry(value));
      LowerIdempotent(JoinWords(Fields(value)));
    }
  }

  predicate IsWord(w: string) {
    w != "" && forall i :: 0 <= i < |w| ==> !IsSpace(w[i])
  }

  lemma {:induction false} FieldsAreWords(s: string)
    ensures forall i :: 0 <= i < |Fields(s)| ==> IsWord(Fields(s)[i])
    decreases |s|
  {
    if s == "" {
    } else if IsSpace(s[0]) {
      FieldsAreWords(s[1..]);
    } else {
      FieldsAreWords(s[WordEnd(s)..]);
    }
  }

  lemma {:induction false} JoinIsTidy(words: seq<string>)
    requires words != [] && forall i :: 0 <= i < |words| ==> IsWord(words[i])
    ensures Tidy(JoinWords(words))
  {
    if |words| > 1 {
      JoinIsTidy(words[1..]);
      var rest, s := JoinWords(words[1..]), JoinWords(words);
      forall i | 0 <= i < |s| - 1 && IsSpace(s[i]) ensures s[i] == ' ' && !IsSpace(s[i + 1]) {
        if i > |words[0]| {
          assert s[i] == rest[i - |words[0]| - 1] && s[i + 1] == rest[i - |words[0]|];
        }
      }
    }
  }

  lemma LowerKeepsTidy(s: string)
    requires Tidy(s)
    ensures Tidy(Lower(s))
  {
  }

  // ---- Normalized lists ----

  function NormalSet(values: seq<string>): set<string> {
    set i | 0 <= i < |values| && NormalEntry(values[i]) != "" :: NormalEntry(values[i])
  }

  ghost function NormalList(values: seq<string>): seq<string> {
    SortedSet(NormalSet(values))
  }

  /**
    `normalizeStringSlice`: for a list that is not empty, the one strictly increasing listing of its normalized
    entries.
  */
  method NormalizeStringSlice(values: seq<string>) returns (r: seq<string>)
    ensures r == NormalList(values)
    ensures Sorted(r) && Distinct(r)
    ensures forall k :: k in r <==> k != "" && exists i :: 0 <= i < |values| && NormalEntry(values[i]) == k
  {
    SortedSetCorrect(NormalSet(values));
    if |values| == 0 {
      assert NormalSet(values) == {};
      return values;
    }
    var normalized := UniqueEntries(values);
    SortListing(normalized, NormalSet(values));
    r := Sort(normalized);
  }

  method UniqueEntries(values: seq<string>) returns (normalized: seq<string>)
    ensures Distinct(normalized) && forall k :: k in normalized <==> k in NormalSet(values)
  {
    normalized := [];
    var seen: set<string> := {};
    for n := 0 to |values|
      invariant Distinct(normalized) && forall k :: k in normalized <==> k in seen
      invariant seen == NormalSet(values[..n])
    {
      NormalSetNext(values, n);
      var value := NormalEntry(values[n]);
      if value == "" || value in seen {
        continue;
      }
      seen := seen + {value};
      normalized := normalized + [value];
    }
    assert values[..|values|] == values;
  }

  lemma NormalSetNext(values: seq<string>, n: nat)
    requires n < |values|
    ensures NormalSet(values[..n + 1])
         == NormalSet(values[..n]) + if NormalEntry(values[n]) == "" then {} else {NormalEntry(values[n])}
  {
    var a, b := NormalSet(values[..n + 1]), NormalSet(values[..n]);
    forall k | k in b ensures k in a {
      var i :| 0 <= i < n && NormalEntry(values[..n][i]) == k;
      assert values[..n + 1][i] == values[..n][i];
    }
    forall k | k in a && k != NormalEntry(values[n]) ensures k in b {
      var i :| 0 <= i <= n && NormalEntry(values[..n + 1][i]) == k;
      assert values[..n][i] == values[i];
    }
    assert NormalEntry(values[n]) != "" ==> NormalEntry(values[..n + 1][n]) in a;
  }

  lemma SortListing(xs: seq<string>, all: set<string>)
    requires Distinct(xs) && forall k :: k in xs <==> k in all
    ensures Sort(xs) == SortedSet(all)
  {
    DistinctAsSet(xs, all);
    SortEqualIff(xs, Listing(all));
  }

  // ---- Criteria ----

  datatype WorkSettings = WorkSettings(remote: bool, hybrid: bool, onsite: bool)

  /** The criteria; `rest` stands for the candidate's data and the distance, which no normalization touches. */
  datatype Config = Config(
    titleRequires: seq<string>,
    titleIncludes: seq<string>,
    titleExcludes: seq<string>,
    industryIncludes: seq<string>,
    industryExcludes: seq<string>,
    roleFamilies: seq<string>,
    resolvedSourceIDs: seq<string>,
    prioritySignals: seq<string>,
    settings: WorkSettings,
    minBaseUSD: int,
    rest: string)

  ghost function RoleFamilyList(values: seq<string>): seq<string> {
    SortedSet(set v | v in values && v != "")
  }

  method NormalizeRoleFamilySlice(values: seq<string>) returns (r: seq<string>)
    ensures r == RoleFamilyList(values)
    ensures Sorted(r) && Distinct(r) && forall k :: k in r <==> k != "" && k in values
  {
    ghost var all := set v | v in values && v != "";
    SortedSetCorrect(all);
    if |values| == 0 {
      assert all == {};
      return values;
    }
    var normalized: seq<string> := [];
    var seen: set<string> := {};
    for n := 0 to |values|
      invariant Distinct(normalized) && forall k :: k in normalized <==> k in seen
      invariant forall k :: k in seen <==> k != "" && k in values[..n]
    {
      if values[n] == "" || values[n] in seen {
        continue;
      }
      seen := seen + {values[n]};
      normalized := normalized + [values[n]];
    }
    SortListing(normalized, all);
    r := Sort(normalized);
  }

  /** What `CriteriaHash` hashes. */
  ghost function NormalForm(criteria: Option<Config>): Option<Config> {
    if criteria.None? then None
    else
      var c := criteria.value;
      Some(c.(
        titleRequires := NormalList(c.titleRequires),
        titleIncludes := NormalList(c.titleIncludes),
        titleExcludes := NormalList(c.titleExcludes),
        industryIncludes := NormalList(c.industryIncludes),
        industryExcludes := NormalList(c.industryExcludes),
        roleFamilies := RoleFamilyList(c.roleFamilies),
        resolvedSourceIDs := NormalList(c.resolvedSourceIDs),
        prioritySignals := NormalList(c.prioritySignals)))
  }

  method NormalizeCriteria(criteria: Option<Config>) returns (form: Option<Config>)
    ensures form == NormalForm(criteria)
  {
    if criteria.None? {
      return None;
    }
    var c := criteria.value;
    var requiresList := NormalizeStringSlice(c.titleRequires);
    var includesList := NormalizeStringSlice(c.titleIncludes);
    var excludesList := NormalizeStringSlice(c.titleExcludes);
    var industryIncludes := NormalizeStringSlice(c.industryIncludes);
    var industryExcludes := NormalizeStringSlice(c.industryExcludes);
    var families := NormalizeRoleFamilySlice(c.roleFamilies);
    var sources := NormalizeStringSlice(c.resolvedSourceIDs);
    var signals := NormalizeStringSlice(c.prioritySignals);
    form := Some(Config(requiresList, includesList, excludesList, industryIncludes, industryExcludes, families, sources,
                        signals, c.settings, c.minBaseUSD, c.rest));
  }

  lemma NormalListIsFixed(values: seq<string>)
    ensures NormalList(NormalList(values)) == NormalList(values)
  {
    var r := NormalList(values);
    SortedSetCorrect(NormalSet(values));
    forall k ensures k in NormalSet(r) <==> k in NormalSet(values) {
      if k in NormalSet(values) {
        var i :| 0 <= i < |values| && NormalEntry(values[i]) == k;
        NormalEntryIsFixed(values[i]);
        var j :| 0 <= j < |r| && r[j] == k;
        assert NormalEntry(r[j]) == k;
      }
      if k in NormalSet(r) {
        var j :| 0 <= j < |r| && NormalEntry(r[j]) == k;
        assert r[j] in NormalSet(values);
        var i :| 0 <= i < |values| && NormalEntry(values[i]) == r[j];
        NormalEntryIsFixed(values[i]);
      }
    }
    assert NormalSet(r) == NormalSet(values);
  }

  /** A normal form is its own normal form. */
  lemma {:induction false} NormalFormIsFixed(criteria: Option<Config>)
    ensures NormalForm(NormalForm(criteria)) == NormalForm(criteria)
  {
    if criteria.Some? {
      var c := criteria.value;
      NormalListIsFixed(c.titleRequires);
      NormalListIsFixed(c.titleIncludes);
      NormalListIsFixed(c.titleExcludes);
      NormalListIsFixed(c.industryIncludes);
      NormalListIsFixed(c.industryExcludes);
      NormalListIsFixed(c.resolvedSourceIDs);
      NormalListIsFixed(c.prioritySignals);
      var all := set v | v in c.roleFamilies && v != "";
      SortedSetCorrect(all);
      assert (set v | v in SortedSet(all) && v != "") == all;
    }
  }

  // ---- The deterministic filter ----

  datatype Signals = Signals(remote: bool, hybrid: bool, onsite: bool)

  /** The text heuristic for work settings, and the dedupe key, uninterpreted. */
  datatype Env = Env(signals: string -> Signals, key: KeyedMerge.Key)

  predicate IsLetter(c: char) {
    'a' <= c <= 'z' || 'A' <= c <= 'Z'
  }

  predicate WordAt(title: string, word: string, i: nat) {
    && i + |word| <= |title|
    && Lower(title[i..i + |word|]) == Lower(word)
    && (i > 0 ==> !IsLetter(title[i - 1]))
    && (i + |word| < |title| ==> !IsLetter(title[i + |word|]))
  }

  /** The regular expression of the title checks: the word, case folded, with no letter on either side. */
  predicate MatchesWord(title: string, word: string) {
    exists i :: 0 <= i <= |title| && WordAt(title, word, i)
  }

  predicate AnyWord(title: string, words: seq<string>) {
    exists n :: 0 <= n < |words| && MatchesWord(title, words[n])
  }

  predicate AnyContained(text: string, words: seq<string>) {
    exists n :: 0 <= n < |words| && ContainsText(Lower(text), Lower(words[n]))
  }

  predicate SignalsMatch(s: Signals, settings: WorkSettings) {
    (s.remote && settings.remote) || (s.hybrid && settings.hybrid) || (s.onsite && settings.onsite)
  }

  predicate MatchesWorkSettings(env: Env, job: Job, settings: WorkSettings) {
    var remote, description := env.signals(job.remote), env.signals(job.description);
    if settings == WorkSettings(false, false, false) then true
    else if remote != Signals(false, false, false) then SignalsMatch(remote, settings)
    else if description != Signals(false, false, false) then SignalsMatch(description, settings)
    else true
  }

  const TITLE_EXCLUDES := "title excludes"
  const TITLE_REQUIREMENTS := "title requirements"
  const TITLE_INCLUDES := "title includes"
  const INDUSTRY_EXCLUDES := "industry excludes"
  const PAY := "pay"
  const WORK_SETTING := "work setting"

  const REASONS := {TITLE_EXCLUDES, TITLE_REQUIREMENTS, TITLE_INCLUDES, INDUSTRY_EXCLUDES, PAY, WORK_SETTING}

  function TitleReason(title: string, c: Config): string {
    if AnyContained(title, c.titleExcludes) then TITLE_EXCLUDES
    else if c.titleRequires != [] && !AnyWord(title, c.titleRequires) then TITLE_REQUIREMENTS
    else if c.titleIncludes != [] && !AnyWord(title, c.titleIncludes) then TITLE_INCLUDES
    else ""
  }

  ghost predicate PayFails(job: Job, c: Config) {
    && c.minBaseUSD > 0 && job.compensation != "" && job.compensation != "Not listed"
    && !Salary.PayAccepts(job.compensation, c.minBaseUSD)
  }

  ghost function FilterReason(env: Env, job: Job, criteria: Option<Config>): string {
    if criteria.None? then ""
    else
      var c := criteria.value;
      if TitleReason(job.title, c) != "" then TitleReason(job.title, c)
      else if AnyContained(job.description, c.industryExcludes) then INDUSTRY_EXCLUDES
      else if PayFails(job, c) then PAY
      else if !MatchesWorkSettings(env, job, c.settings) then WORK_SETTING
      else ""
  }

  method FindContained(text: string, words: seq<string>) returns (found: bool)
    ensures found == AnyContained(text, words)
  {
    var lower := Lower(text);
    for n := 0 to |words|
      invariant forall m :: 0 <= m < n ==> !ContainsText(lower, Lower(words[m]))
    {
      if ContainsText(lower, Lower(words[n])) {
        return true;
      }
    }
    return false;
  }

  method FindWord(title: string, words: seq<string>) returns (matched: bool)
    ensures matched == AnyWord(title, words)
  {
    for n := 0 to |words|
      invariant forall m :: 0 <= m < n ==> !MatchesWord(title, words[m])
    {
      if MatchesWord(title, words[n]) {
        return true;
      }
    }
    return false;
  }

  method TitleScopeFilterReason(title: string, c: Config) returns (reason: string)
    ensures reason == TitleReason(title, c)
  {
    var excluded := FindContained(title, c.titleExcludes);
    if excluded {
      return TITLE_EXCLUDES;
    }
    if |c.titleRequires| > 0 {
      var matched := FindWord(title, c.titleRequires);
      if !matched {
        return TITLE_REQUIREMENTS;
      }
    }
    if |c.titleIncludes| > 0 {
      var matched := FindWord(title, c.titleIncludes);
      if !matched {
        return TITLE_INCLUDES;
      }
    }
    return "";
  }

  method FilterJobReason(env: Env, job: Job, criteria: Option<Config>) returns (reason: string)
    ensures reason == FilterReason(env, job, criteria)
  {
    if criteria.None? {
      return "";
    }
    var c := criteria.value;
    reason := TitleScopeFilterReason(job.title, c);
    if reason != "" {
      return;
    }
    var excluded := FindContained(job.description, c.industryExcludes);
    if excluded {
      return INDUSTRY_EXCLUDES;
    }
    if c.minBaseUSD > 0 && job.compensation != "" && job.compensation != "Not listed" {
      var ok := Salary.ExtractAndCheckSalary(job.compensation, c.minBaseUSD);
      if !ok {
        return PAY;
      }
    }
    if !MatchesWorkSettings(env, job, c.settings) {
      return WORK_SETTING;
    }
    return "";
  }
}
