/**
  The end of a fetch, from the last source to the return: hydration, the filters for company target, cached
  rejection and already saved jobs, deduplication and the accepted limit, all filing into one summary.
*/
module Finalize {
  import opened Options
  import opened Text
  import opened Seqs
  import opened Jobs
  import opened KeyedMerge
  import opened Dedupe
  import opened Lex

  const COMPANY_TARGET := "company target"
  const CACHED_REJECTION := "cached rejection"
  const ALREADY_SAVED := "already saved"
  const DUPLICATE := "duplicate"
  const LIMIT_REACHED := "accepted limit reached"

  datatype Decision = Accepted | Rejected(reason: string)

  /**
    The candidate store as the tail of one fetch sees it: what the lookup for the n-th job of a pass returns.
    A failed lookup and a missing row have the same effect.
  */
  datatype Cache = Cache(candidate: (nat, string) -> Option<Job>, decision: (nat, string) -> Option<Decision>)

  /** What the tail of a fetch works with; the source's merge is `IdentityMerge` of its validity checks. */
  datatype Fetch = Fetch(
    merge: Merge,
    key: Key,
    cache: Option<Cache>,
    target: Option<Job -> bool>,
    existing: Option<set<string>>,
    limit: int)

  // ---- Splitting a list by flags ----

  lemma {:induction false} SelectSplits<T>(xs: seq<T>, flags: seq<bool>)
    requires |xs| == |flags|
    ensures multiset(xs) == multiset(Select(xs, flags, true)) + multiset(Select(xs, flags, false))
    ensures |xs| == |Select(xs, flags, true)| + |Select(xs, flags, false)|
    decreases |xs|
  {
    if xs != [] {
      SelectSplits(xs[..|xs| - 1], flags[..|xs| - 1]);
      assert xs == xs[..|xs| - 1] + [xs[|xs| - 1]];
    }
  }

  predicate Increasing(ps: seq<nat>, bound: nat) {
    && (forall i, j :: 0 <= i < j < |ps| ==> ps[i] < ps[j])
    && (forall i :: 0 <= i < |ps| ==> ps[i] < bound)
  }

  /** `xs` is what stands in `all` at the positions `ps`. */
  ghost predicate At<T(!new)>(all: seq<T>, ps: seq<nat>, xs: seq<T>) {
    && |ps| == |xs|
    && (forall i :: 0 <= i < |ps| ==> ps[i] < |all| && xs[i] == all[ps[i]])
  }

  lemma {:induction false} SelectAt<T(!new)>(all: seq<T>, ps: seq<nat>, xs: seq<T>, flags: seq<bool>, want: bool)
    requires At(all, ps, xs) && |flags| == |xs| && Increasing(ps, |all|)
    ensures At(all, Select(ps, flags, want), Select(xs, flags, want))
    ensures Increasing(Select(ps, flags, want), if ps == [] then 0 else ps[|ps| - 1] + 1)
    decreases |ps|
  {
    if ps != [] {
      var m := |ps| - 1;
      SelectAt(all, ps[..m], xs[..m], flags[..m], want);
      var init := Select(ps[..m], flags[..m], want);
      forall i | 0 <= i < |init| ensures init[i] < ps[m] {
        assert m > 0 && ps[m - 1] < ps[m];
      }
    }
  }

  function Range(n: nat): (r: seq<nat>)
    ensures |r| == n && forall i :: 0 <= i < n ==> r[i] == i
  {
    seq(n, i => i)
  }

  // ---- The passes ----

  function HydratedJob(merge: Merge, key: Key, cache: Cache, n: nat, job: Job): Job {
    var k := CandidateKey(key, job);
    if k == "" then job
    else
      var candidate := cache.candidate(n, k);
      if candidate.None? then job else merge(job, candidate.value)
  }

  function Hydrated(f: Fetch, jobs: seq<Job>): (r: seq<Job>)
    ensures |r| == |jobs|
  {
    if f.cache.None? then jobs
    else seq(|jobs|, n requires 0 <= n < |jobs| => HydratedJob(f.merge, f.key, f.cache.value, n, jobs[n]))
  }

  function OffTarget(f: Fetch, jobs: seq<Job>): (flags: seq<bool>)
    ensures |flags| == |jobs|
  {
    seq(|jobs|, n requires 0 <= n < |jobs| => f.target.Some? && !f.target.value(jobs[n]))
  }

  function Verdict(f: Fetch, n: nat, job: Job): Decision {
    var k := CandidateKey(f.key, job);
    if f.cache.None? || k == "" then Accepted
    else
      var decision := f.cache.value.decision(n, k);
      if decision.None? then Accepted else decision.value
  }

  function CachedOut(f: Fetch, jobs: seq<Job>): (flags: seq<bool>)
    ensures |flags| == |jobs|
  {
    seq(|jobs|, n requires 0 <= n < |jobs| => Verdict(f, n, jobs[n]).Rejected?)
  }

  function Noted(verdict: Decision, job: Job): Job {
    if verdict.Rejected? && !Blank(verdict.reason)
    then job.(whyMatches := job.whyMatches + ["Cached rejection: " + verdict.reason])
    else job
  }

  /** The jobs as they would be filed, with the cached reason noted. */
  function AllNoted(f: Fetch, jobs: seq<Job>): (r: seq<Job>)
    ensures |r| == |jobs|
  {
    seq(|jobs|, n requires 0 <= n < |jobs| => Noted(Verdict(f, n, jobs[n]), jobs[n]))
  }

  predicate Contains(existing: Option<set<string>>, k: string) {
    existing.Some? && k != "" && k in existing.value
  }

  function Saved(f: Fetch, jobs: seq<Job>): (flags: seq<bool>)
    ensures |flags| == |jobs|
  {
    seq(|jobs|, n requires 0 <= n < |jobs| => Contains(f.existing, KeyOf(f.key, jobs[n])))
  }

  function Repeats(key: Key, jobs: seq<Job>): (flags: seq<bool>)
    ensures |flags| == |jobs|
  {
    seq(|jobs|, n requires 0 <= n < |jobs| => IsRepeat(key, jobs[..n], jobs[n]))
  }

  function OnTarget(f: Fetch, jobs: seq<Job>): seq<Job> {
    Select(Hydrated(f, jobs), OffTarget(f, Hydrated(f, jobs)), false)
  }

  function Uncached(f: Fetch, jobs: seq<Job>): seq<Job> {
    Select(OnTarget(f, jobs), CachedOut(f, OnTarget(f, jobs)), false)
  }

  function Unsaved(f: Fetch, jobs: seq<Job>): seq<Job> {
    Select(Uncached(f, jobs), Saved(f, Uncached(f, jobs)), false)
  }

  function CapAt(limit: int, size: nat): (n: nat)
    ensures n <= size && (limit > 0 ==> n <= limit)
  {
    if limit <= 0 || size <= limit then size else limit
  }

  /** Where every job of a fetch went. */
  datatype Outcome = Outcome(
    offTarget: seq<Job>, cached: seq<Job>, saved: seq<Job>, duplicates: seq<Job>, omitted: seq<Job>, returned: seq<Job>)

  function Finalized(f: Fetch, jobs: seq<Job>): Outcome {
    var hydrated, onTarget, uncached, unsaved := Hydrated(f, jobs), OnTarget(f, jobs), Uncached(f, jobs),
        Unsaved(f, jobs);
    var deduped := Deduped(f.merge, f.key, unsaved);
    var n := CapAt(f.limit, |deduped|);
    Outcome(
      Select(hydrated, OffTarget(f, hydrated), true),
      Select(AllNoted(f, onTarget), CachedOut(f, onTarget), true),
      Select(uncached, Saved(f, uncached), true),
      Duplicates(f.key, unsaved),
      deduped[n..],
      deduped[..n])
  }

  function Filed(filtered: map<string, seq<Job>>, group: string, jobs: seq<Job>): map<string, seq<Job>> {
    if jobs == [] then filtered
    else filtered[group := (if group in filtered then filtered[group] else []) + jobs]
  }

  function AllFiled(filtered: map<string, seq<Job>>, o: Outcome): map<string, seq<Job>> {
    Filed(Filed(Filed(Filed(Filed(filtered,
      COMPANY_TARGET, o.offTarget),
      CACHED_REJECTION, o.cached),
      ALREADY_SAVED, o.saved),
      DUPLICATE, o.duplicates),
      LIMIT_REACHED, o.omitted)
  }

  /** The jobs of one group, none when it is absent. */
  function Group(filtered: map<string, seq<Job>>, group: string): seq<Job> {
    if group in filtered then filtered[group] else []
  }

  // ---- The code ----

  method HydrateJobs(f: Fetch, jobs: seq<Job>) returns (hydrated: seq<Job>)
    ensures hydrated == Hydrated(f, jobs)
  {
    hydrated := jobs;
    if f.cache.None? {
      return;
    }
    for i := 0 to |jobs|
      invariant |hydrated| == |jobs|
      invariant forall j :: 0 <= j < i ==> hydrated[j] == HydratedJob(f.merge, f.key, f.cache.value, j, jobs[j])
      invariant forall j :: i <= j < |jobs| ==> hydrated[j] == jobs[j]
    {
      hydrated := hydrated[i := HydratedJob(f.merge, f.key, f.cache.value, i, hydrated[i])];
    }
  }

  method FilterJobsByCompanyTarget(f: Fetch, jobs: seq<Job>) returns (kept: seq<Job>, filtered: seq<Job>)
    requires f.target.Some?
    ensures kept == Select(jobs, OffTarget(f, jobs), false) && filtered == Select(jobs, OffTarget(f, jobs), true)
  {
    ghost var flags := OffTarget(f, jobs);
    kept, filtered := [], [];
    for n := 0 to |jobs|
      invariant kept == Select(jobs[..n], flags[..n], false) && filtered == Select(jobs[..n], flags[..n], true)
    {
      SelectNext(jobs, flags, false, n);
      SelectNext(jobs, flags, true, n);
      if f.target.value(jobs[n]) {
        kept := kept + [jobs[n]];
        continue;
      }
      filtered := filtered + [jobs[n]];
    }
    assert jobs[..|jobs|] == jobs && flags[..|jobs|] == flags;
  }

  method FilterCachedRejectedJobs(f: Fetch, jobs: seq<Job>) returns (kept: seq<Job>, rejected: seq<Job>)
    ensures kept == Select(jobs, CachedOut(f, jobs), false)
    ensures rejected == Select(AllNoted(f, jobs), CachedOut(f, jobs), true)
  {
    ghost var flags, noted := CachedOut(f, jobs), AllNoted(f, jobs);
    kept, rejected := [], [];
    for n := 0 to |jobs|
      invariant kept == Select(jobs[..n], flags[..n], false) && rejected == Select(noted[..n], flags[..n], true)
    {
      SelectNext(jobs, flags, false, n);
      SelectNext(noted, flags, true, n);
      var job := jobs[n];
      var k := CandidateKey(f.key, job);
      if f.cache.None? || k == "" {
        kept := kept + [job];
        continue;
      }
      var decision := f.cache.value.decision(n, k);
      if decision.Some? && decision.value.Rejected? {
        if !Blank(decision.value.reason) {
          job := job.(whyMatches := job.whyMatches + ["Cached rejection: " + decision.value.reason]);
        }
        rejected := rejected + [job];
        continue;
      }
      kept := kept + [job];
    }
    assert jobs[..|jobs|] == jobs && flags[..|jobs|] == flags && noted[..|jobs|] == noted;
  }

  /** `newExistingJobIndex`. */
  method NewExistingJobIndex(key: Key, jobs: seq<Job>) returns (keys: set<string>)
    ensures forall k :: k in keys <==> k != "" && IndexOf(key, jobs, k).Some?
  {
    keys := {};
    for n := 0 to |jobs|
      invariant forall k :: k in keys <==> k != "" && IndexOf(key, jobs[..n], k).Some?
    {
      forall k
        ensures IndexOf(key, jobs[..n + 1], k).Some? <==> KeyOf(key, jobs[n]) == k || IndexOf(key, jobs[..n], k).Some?
      {
        assert jobs[..n + 1] == jobs[..n] + [jobs[n]];
        IndexAfterAppend(key, jobs[..n], jobs[n], k);
      }
      var k := KeyOf(key, jobs[n]);
      if k == "" {
        continue;
      }
      keys := keys + {k};
    }
    assert jobs[..|jobs|] == jobs;
  }

  method SkipExistingFetchedJobs(f: Fetch, jobs: seq<Job>) returns (kept: seq<Job>, skipped: seq<Job>)
    ensures kept == Select(jobs, Saved(f, jobs), false) && skipped == Select(jobs, Saved(f, jobs), true)
  {
    ghost var flags := Saved(f, jobs);
    kept, skipped := [], [];
    for n := 0 to |jobs|
      invariant kept == Select(jobs[..n], flags[..n], false) && skipped == Select(jobs[..n], flags[..n], true)
    {
      SelectNext(jobs, flags, false, n);
      SelectNext(jobs, flags, true, n);
      if Contains(f.existing, KeyOf(f.key, jobs[n])) {
        skipped := skipped + [jobs[n]];
        continue;
      }
      kept := kept + [jobs[n]];
    }
    assert jobs[..|jobs|] == jobs && flags[..|jobs|] == flags;
  }

  const LIMIT_NOTICE := "Accepted result limit reached; additional matching jobs were omitted from this fetch."

  /** The notices once one more was appended: trimmed, and only when it is not blank and not there yet. */
  function Noticed(notices: seq<string>, notice: string): (r: seq<string>)
    ensures Trim(notice) != "" ==> Trim(notice) in r
    ensures Distinct(notices) ==> Distinct(r)
  {
    if Blank(notice) || Trim(notice) in notices then notices else notices + [Trim(notice)]
  }

  /** The summary that all sources and all passes of one fetch share. */
  class Summary {
    var filtered: map<string, seq<Job>>
    var notices: seq<string>

    constructor ()
      ensures filtered == map[] && notices == []
    {
      filtered, notices := map[], [];
    }

    method File(group: string, jobs: seq<Job>)
      modifies this`filtered
      ensures filtered == Filed(old(filtered), group, jobs)
    {
      if |jobs| > 0 {
        var earlier := if group in filtered then filtered[group] else [];
        filtered := filtered[group := earlier + jobs];
      }
    }

    method AppendFetchNotice(notice: string)
      modifies this`notices
      ensures notices == Noticed(old(notices), notice)
    {
      var trimmed := Trim(notice);
      if trimmed == "" {
        return;
      }
      for n := 0 to |notices|
        invariant notices == old(notices) && forall i :: 0 <= i < n ==> notices[i] != trimmed
      {
        if notices[n] == trimmed {
          return;
        }
      }
      notices := notices + [trimmed];
    }

    method CapAcceptedFetchedJobs(jobs: seq<Job>, limit: int) returns (kept: seq<Job>)
      modifies this
      ensures var n := CapAt(limit, |jobs|);
        && kept == jobs[..n]
        && filtered == Filed(old(filtered), LIMIT_REACHED, jobs[n..])
        && notices == if n == |jobs| then old(notices) else Noticed(old(notices), LIMIT_NOTICE)
    {
      if limit <= 0 || |jobs| <= limit {
        return jobs;
      }
      kept := jobs[..limit];
      File(LIMIT_REACHED, jobs[limit..]);
      AppendFetchNotice(LIMIT_NOTICE);
    }

    method Finalize(f: Fetch, jobs: seq<Job>) returns (returned: seq<Job>)
      modifies this
      ensures returned == Finalized(f, jobs).returned
      ensures filtered == AllFiled(old(filtered), Finalized(f, jobs))
      ensures notices == if Finalized(f, jobs).omitted == [] then old(notices) else Noticed(old(notices), LIMIT_NOTICE)
    {
      var fetched := HydrateJobs(f, jobs);
      if f.target.Some? {
        var companyFiltered;
        fetched, companyFiltered := FilterJobsByCompanyTarget(f, fetched);
        File(COMPANY_TARGET, companyFiltered);
      } else {
        NoneSelected(fetched, OffTarget(f, fetched));
      }
      var rejected;
      fetched, rejected := FilterCachedRejectedJobs(f, fetched);
      File(CACHED_REJECTION, rejected);
      var skippedExisting;
      fetched, skippedExisting := SkipExistingFetchedJobs(f, fetched);
      File(ALREADY_SAVED, skippedExisting);
      var duplicates;
      fetched, duplicates := DedupeFetchedJobs(f.merge, f.key, fetched);
      File(DUPLICATE, duplicates);
      returned := CapAcceptedFetchedJobs(fetched, f.limit);
    }
  }

  lemma {:induction false} NoneSelected<T>(xs: seq<T>, flags: seq<bool>)
    requires |xs| == |flags| && forall i :: 0 <= i < |flags| ==> !flags[i]
    ensures Select(xs, flags, true) == [] && Select(xs, flags, false) == xs
    decreases |xs|
  {
    if xs != [] {
      NoneSelected(xs[..|xs| - 1], flags[..|xs| - 1]);
      assert xs == xs[..|xs| - 1] + [xs[|xs| - 1]];
    }
  }

  // ---- Where the jobs went ----

  /** No earlier entry is lost: each group keeps what it had and gains exactly its jobs. */
  lemma NothingFiledIsLost(filtered: map<string, seq<Job>>, o: Outcome, group: string)
    ensures Group(AllFiled(filtered, o), group) == Group(filtered, group) +
      match group
      case "company target" => o.offTarget
      case "cached rejection" => o.cached
      case "already saved" => o.saved
      case "duplicate" => o.duplicates
      case "accepted limit reached" => o.omitted
      case _ => []
  {
    var f1 := Filed(filtered, COMPANY_TARGET, o.offTarget);
    var f2 := Filed(f1, CACHED_REJECTION, o.cached);
    var f3 := Filed(f2, ALREADY_SAVED, o.saved);
    var f4 := Filed(f3, DUPLICATE, o.duplicates);
    FiledGroup(filtered, COMPANY_TARGET, o.offTarget, group);
    FiledGroup(f1, CACHED_REJECTION, o.cached, group);
    FiledGroup(f2, ALREADY_SAVED, o.saved, group);
    FiledGroup(f3, DUPLICATE, o.duplicates, group);
    FiledGroup(f4, LIMIT_REACHED, o.omitted, group);
  }

  lemma FiledGroup(filtered: map<string, seq<Job>>, into: string, jobs: seq<Job>, group: string)
    ensures Group(Filed(filtered, into, jobs), group)
         == Group(filtered, group) + if group == into then jobs else []
  {
  }

  /** For each of the six destinations, the fetch positions of the jobs that went there. */
  datatype Fates = Fates(
    offTarget: seq<nat>, cached: seq<nat>, saved: seq<nat>, duplicates: seq<nat>, omitted: seq<nat>, returned: seq<nat>)

  /** The positions of the jobs left after each filter. */
  function OnTargetAt(f: Fetch, jobs: seq<Job>): (ps: seq<nat>)
    ensures |ps| == |OnTarget(f, jobs)|
  {
    SelectSameLength(Range(|jobs|), Hydrated(f, jobs), OffTarget(f, Hydrated(f, jobs)), false);
    Select(Range(|jobs|), OffTarget(f, Hydrated(f, jobs)), false)
  }

  function UncachedAt(f: Fetch, jobs: seq<Job>): (ps: seq<nat>)
    ensures |ps| == |Uncached(f, jobs)|
  {
    SelectSameLength(OnTargetAt(f, jobs), OnTarget(f, jobs), CachedOut(f, OnTarget(f, jobs)), false);
    Select(OnTargetAt(f, jobs), CachedOut(f, OnTarget(f, jobs)), false)
  }

  function UnsavedAt(f: Fetch, jobs: seq<Job>): (ps: seq<nat>)
    ensures |ps| == |Unsaved(f, jobs)|
  {
    SelectSameLength(UncachedAt(f, jobs), Uncached(f, jobs), Saved(f, Uncached(f, jobs)), false);
    Select(UncachedAt(f, jobs), Saved(f, Uncached(f, jobs)), false)
  }

  function FirstsAt(f: Fetch, jobs: seq<Job>): seq<nat> {
    Select(UnsavedAt(f, jobs), Repeats(f.key, Unsaved(f, jobs)), false)
  }

  function FatesOf(f: Fetch, jobs: seq<Job>): Fates {
    var firsts := FirstsAt(f, jobs);
    var n := CapAt(f.limit, |firsts|);
    Fates(
      Select(Range(|jobs|), OffTarget(f, Hydrated(f, jobs)), true),
      Select(OnTargetAt(f, jobs), CachedOut(f, OnTarget(f, jobs)), true),
      Select(UncachedAt(f, jobs), Saved(f, Uncached(f, jobs)), true),
      Select(UnsavedAt(f, jobs), Repeats(f.key, Unsaved(f, jobs)), true),
      firsts[n..],
      firsts[..n])
  }

  lemma {:induction false} DuplicatesAreRepeats(key: Key, jobs: seq<Job>)
    ensures Duplicates(key, jobs) == Select(jobs, Repeats(key, jobs), true)
    decreases |jobs|
  {
    if jobs != [] {
      DuplicatesAreRepeats(key, jobs[..|jobs| - 1]);
      RepeatsOfPrefix(key, jobs, |jobs| - 1);
    }
  }

  lemma FirstsStep(merge: Merge, key: Key, acc: seq<Job>, firsts: seq<Job>, job: Job, repeat: bool)
    requires SameKeys(key, acc, firsts)
    requires repeat <==> KeyOf(key, job) != "" && IndexOf(key, acc, KeyOf(key, job)).Some?
    ensures SameKeys(key, Step(merge, key, false, acc, job), if repeat then firsts else firsts + [job])
  {
    StepKeepsKeys(merge, key, false, acc, job);
  }

  lemma {:induction false} SurvivorsAreFirsts(merge: Merge, key: Key, jobs: seq<Job>)
    ensures SameKeys(key, Deduped(merge, key, jobs), Select(jobs, Repeats(key, jobs), false))
    decreases |jobs|
  {
    if jobs != [] {
      var init, job := jobs[..|jobs| - 1], jobs[|jobs| - 1];
      SurvivorsAreFirsts(merge, key, init);
      RepeatsOfPrefix(key, jobs, |jobs| - 1);
      if KeyOf(key, job) != "" {
        SameKeySet(merge, key, init, KeyOf(key, job));
      }
      FirstsStep(merge, key, Deduped(merge, key, init), Select(init, Repeats(key, init), false), job,
          IsRepeat(key, init, job));
    }
  }

  /** Duplicates are the jobs whose key came before; the survivors keep the keys of the others, in order. */
  lemma DedupeBySelection(f: Fetch, jobs: seq<Job>)
    ensures Duplicates(f.key, jobs) == Select(jobs, Repeats(f.key, jobs), true)
    ensures SameKeys(f.key, Deduped(f.merge, f.key, jobs), Select(jobs, Repeats(f.key, jobs), false))
  {
    DuplicatesAreRepeats(f.key, jobs);
    SurvivorsAreFirsts(f.merge, f.key, jobs);
  }

  lemma RepeatsOfPrefix(key: Key, jobs: seq<Job>, m: nat)
    requires m <= |jobs|
    ensures Repeats(key, jobs[..m]) == Repeats(key, jobs)[..m]
  {
    forall n | 0 <= n < m ensures Repeats(key, jobs[..m])[n] == Repeats(key, jobs)[n] {
      assert jobs[..m][..n] == jobs[..n];
    }
  }

  lemma CutBag(p: seq<nat>, n: nat)
    requires n <= |p|
    ensures multiset(p) == multiset(p[n..]) + multiset(p[..n])
  {
    assert p == p[..n] + p[n..];
  }

  lemma AddUp(m1: multiset<nat>, m2: multiset<nat>, m3: multiset<nat>, m4: multiset<nat>, m5: multiset<nat>,
      a: multiset<nat>, b: multiset<nat>, c: multiset<nat>, d: multiset<nat>, e: multiset<nat>, f: multiset<nat>)
    requires m1 == a + m2 && m2 == b + m3 && m3 == c + m4 && m4 == d + m5 && m5 == e + f
    ensures m1 == a + b + c + d + e + f
  {
  }

  lemma FiveWaySplit(p: seq<nat>, p2: seq<nat>, p3: seq<nat>, p4: seq<nat>, p5: seq<nat>,
                     off1: seq<bool>, off2: seq<bool>, off3: seq<bool>, off4: seq<bool>, n: nat)
    requires |off1| == |p| && p2 == Select(p, off1, false)
    requires |off2| == |p2| && p3 == Select(p2, off2, false)
    requires |off3| == |p3| && p4 == Select(p3, off3, false)
    requires |off4| == |p4| && p5 == Select(p4, off4, false)
    requires n <= |p5|
    ensures multiset(p)
         == multiset(Select(p, off1, true)) + multiset(Select(p2, off2, true)) + multiset(Select(p3, off3, true))
          + multiset(Select(p4, off4, true)) + multiset(p5[n..]) + multiset(p5[..n])
  {
    SelectSplits(p, off1);
    SelectSplits(p2, off2);
    SelectSplits(p3, off3);
    SelectSplits(p4, off4);
    CutBag(p5, n);
    AddUp(multiset(p), multiset(p2), multiset(p3), multiset(p4), multiset(p5),
      multiset(Select(p, off1, true)), multiset(Select(p2, off2, true)), multiset(Select(p3, off3, true)),
      multiset(Select(p4, off4, true)), multiset(p5[n..]), multiset(p5[..n]));
  }

  /** Every fetched position goes to exactly one destination. */
  lemma {:induction false} EveryJobEndsOnce(f: Fetch, jobs: seq<Job>)
    ensures var p := FatesOf(f, jobs);
      multiset(Range(|jobs|)) == multiset(p.offTarget) + multiset(p.cached) + multiset(p.saved)
                               + multiset(p.duplicates) + multiset(p.omitted) + multiset(p.returned)
  {
    FiveWaySplit(Range(|jobs|), OnTargetAt(f, jobs), UncachedAt(f, jobs), UnsavedAt(f, jobs), FirstsAt(f, jobs),
      OffTarget(f, Hydrated(f, jobs)), CachedOut(f, OnTarget(f, jobs)), Saved(f, Uncached(f, jobs)),
      Repeats(f.key, Unsaved(f, jobs)),
      CapAt(f.limit, |FirstsAt(f, jobs)|));
  }

  ghost predicate Places(f: Fetch, jobs: seq<Job>, ps: seq<nat>, group: seq<Job>) {
    At(Hydrated(f, jobs), ps, group) && Increasing(ps, |jobs|)
  }

  lemma PlacesSelected(f: Fetch, jobs: seq<Job>, ps: seq<nat>, group: seq<Job>, flags: seq<bool>, want: bool)
    requires Places(f, jobs, ps, group) && |flags| == |ps|
    ensures Places(f, jobs, Select(ps, flags, want), Select(group, flags, want))
  {
    SelectAt(Hydrated(f, jobs), ps, group, flags, want);
  }

  lemma OnTargetPlaces(f: Fetch, jobs: seq<Job>)
    ensures Places(f, jobs, OnTargetAt(f, jobs), OnTarget(f, jobs))
    ensures Places(f, jobs, FatesOf(f, jobs).offTarget, Finalized(f, jobs).offTarget)
  {
    var hydrated := Hydrated(f, jobs);
    PlacesSelected(f, jobs, Range(|jobs|), hydrated, OffTarget(f, hydrated), true);
    PlacesSelected(f, jobs, Range(|jobs|), hydrated, OffTarget(f, hydrated), false);
  }

  lemma UncachedPlaces(f: Fetch, jobs: seq<Job>)
    ensures Places(f, jobs, UncachedAt(f, jobs), Uncached(f, jobs))
  {
    OnTargetPlaces(f, jobs);
    PlacesSelected(f, jobs, OnTargetAt(f, jobs), OnTarget(f, jobs), CachedOut(f, OnTarget(f, jobs)), false);
  }

  lemma UnsavedPlaces(f: Fetch, jobs: seq<Job>)
    ensures Places(f, jobs, UnsavedAt(f, jobs), Unsaved(f, jobs))
  {
    UncachedPlaces(f, jobs);
    PlacesSelected(f, jobs, UncachedAt(f, jobs), Uncached(f, jobs), Saved(f, Uncached(f, jobs)), false);
  }

  /**
    Each group holds the (hydrated) jobs of its positions, in fetch order: as they are for company target, already
    saved and duplicate, with the stored reason noted for cached rejection.
  */
  lemma {:induction false} GroupsHoldTheirJobs(f: Fetch, jobs: seq<Job>)
    ensures Places(f, jobs, FatesOf(f, jobs).offTarget, Finalized(f, jobs).offTarget)
    ensures Places(f, jobs, FatesOf(f, jobs).saved, Finalized(f, jobs).saved)
    ensures Places(f, jobs, FatesOf(f, jobs).duplicates, Finalized(f, jobs).duplicates)
  {
    OnTargetPlaces(f, jobs);
    UncachedPlaces(f, jobs);
    PlacesSelected(f, jobs, UncachedAt(f, jobs), Uncached(f, jobs), Saved(f, Uncached(f, jobs)), true);
    UnsavedPlaces(f, jobs);
    PlacesSelected(f, jobs, UnsavedAt(f, jobs), Unsaved(f, jobs), Repeats(f.key, Unsaved(f, jobs)), true);
    DedupeBySelection(f, Unsaved(f, jobs));
  }

  /** The turns, in the pass over the jobs on target, at which the lookup found a cached rejection. */
  function RejectedTurns(f: Fetch, jobs: seq<Job>): (turns: seq<nat>)
    ensures |turns| == |FatesOf(f, jobs).cached| == |Finalized(f, jobs).cached|
  {
    var onTarget := OnTarget(f, jobs);
    var flags := CachedOut(f, onTarget);
    SelectSameLength(Range(|onTarget|), OnTargetAt(f, jobs), flags, true);
    SelectSameLength(Range(|onTarget|), AllNoted(f, onTarget), flags, true);
    Select(Range(|onTarget|), flags, true)
  }

  lemma AtTurn<S, T>(xs: seq<S>, ys: seq<T>, flags: seq<bool>, i: nat)
    requires |xs| == |ys| == |flags| && i < |Select(xs, flags, true)|
    ensures i < |Select(Range(|flags|), flags, true)|
    ensures var turn := Select(Range(|flags|), flags, true)[i];
      && turn < |flags| && flags[turn]
      && i < |Select(xs, flags, true)| && Select(xs, flags, true)[i] == xs[turn]
      && i < |Select(ys, flags, true)| && Select(ys, flags, true)[i] == ys[turn]
  {
    SelectSameLength(Range(|flags|), xs, flags, true);
    var n := SelectedFrom(Range(|flags|), xs, flags, true, i);
    var m := SelectedFrom(Range(|flags|), ys, flags, true, i);
  }

  /**
    Each job of the cached group is the hydrated job of its position, rejected by the lookup of its own turn, with the
    reason that lookup returned noted unless it is blank.
  */
  lemma {:induction false} CachedGroupIsNoted(f: Fetch, jobs: seq<Job>, i: nat)
    requires i < |FatesOf(f, jobs).cached|
    ensures var p, o, turn := FatesOf(f, jobs), Finalized(f, jobs), RejectedTurns(f, jobs)[i];
      && turn < |OnTargetAt(f, jobs)| && p.cached[i] == OnTargetAt(f, jobs)[turn] < |jobs| && f.cache.Some?
      && var job := Hydrated(f, jobs)[p.cached[i]];
         var k := Trim(f.key(job.company, job.title, job.applyURL));
         var found := f.cache.value.decision(turn, k);
         && k != "" && found.Some? && found.value.Rejected?
         && o.cached[i] == if Trim(found.value.reason) == "" then job
              else job.(whyMatches := job.whyMatches + ["Cached rejection: " + found.value.reason])
  {
    var ps, onTarget := OnTargetAt(f, jobs), OnTarget(f, jobs);
    AtTurn(ps, AllNoted(f, onTarget), CachedOut(f, onTarget), i);
    OnTargetAtPlace(f, jobs, RejectedTurns(f, jobs)[i]);
  }

  lemma OnTargetAtPlace(f: Fetch, jobs: seq<Job>, turn: nat)
    requires turn < |OnTarget(f, jobs)|
    ensures OnTargetAt(f, jobs)[turn] < |jobs|
    ensures OnTarget(f, jobs)[turn] == Hydrated(f, jobs)[OnTargetAt(f, jobs)[turn]]
  {
    OnTargetPlaces(f, jobs);
  }

  /** Each job of the group has the key of the job fetched at its position. */
  ghost predicate KeysFollow(key: Key, jobs: seq<Job>, ps: seq<nat>, group: seq<Job>) {
    && |ps| == |group|
    && forall i :: 0 <= i < |ps| ==> ps[i] < |jobs| && KeyOf(key, group[i]) == KeyOf(key, jobs[ps[i]])
  }

  lemma FirstsPlaces(f: Fetch, jobs: seq<Job>)
    ensures Increasing(FirstsAt(f, jobs), |jobs|)
    ensures KeysFollow(f.key, jobs, FirstsAt(f, jobs), Deduped(f.merge, f.key, Unsaved(f, jobs)))
  {
    var unsaved, firsts := Unsaved(f, jobs), FirstsAt(f, jobs);
    var deduped, kept := Deduped(f.merge, f.key, unsaved), Select(unsaved, Repeats(f.key, unsaved), false);
    UnsavedPlaces(f, jobs);
    PlacesSelected(f, jobs, UnsavedAt(f, jobs), unsaved, Repeats(f.key, unsaved), false);
    DedupeBySelection(f, unsaved);
    forall i | 0 <= i < |firsts| ensures KeyOf(f.key, deduped[i]) == KeyOf(f.key, jobs[firsts[i]]) {
      assert KeyOf(f.key, deduped[i]) == KeyOf(f.key, kept[i]);
      HydrationKeepsKey(f, jobs, firsts[i]);
    }
  }

  lemma CutKeepsOrder(key: Key, jobs: seq<Job>, ps: seq<nat>, group: seq<Job>, n: nat)
    requires KeysFollow(key, jobs, ps, group) && n <= |ps|
    ensures KeysFollow(key, jobs, ps[..n], group[..n]) && KeysFollow(key, jobs, ps[n..], group[n..])
    ensures ps[..n] + ps[n..] == ps
  {
  }

  lemma HydrationKeepsKey(f: Fetch, jobs: seq<Job>, n: nat)
    requires n < |jobs|
    ensures KeyOf(f.key, Hydrated(f, jobs)[n]) == KeyOf(f.key, jobs[n])
  {
  }

  /** The returned list and what the cap left out follow the fetch order, each under the key of its first position. */
  lemma {:induction false} ReturnedInFetchOrder(f: Fetch, jobs: seq<Job>)
    ensures Increasing(FatesOf(f, jobs).returned + FatesOf(f, jobs).omitted, |jobs|)
    ensures KeysFollow(f.key, jobs, FatesOf(f, jobs).returned, Finalized(f, jobs).returned)
    ensures KeysFollow(f.key, jobs, FatesOf(f, jobs).omitted, Finalized(f, jobs).omitted)
  {
    FirstsPlaces(f, jobs);
    var firsts, deduped := FirstsAt(f, jobs), Deduped(f.merge, f.key, Unsaved(f, jobs));
    CutKeepsOrder(f.key, jobs, firsts, deduped, CapAt(f.limit, |firsts|));
  }

  lemma DedupedIsUnsaved(f: Fetch, jobs: seq<Job>, i: nat)
    requires i < |Deduped(f.merge, f.key, Unsaved(f, jobs))|
    ensures !Contains(f.existing, KeyOf(f.key, Deduped(f.merge, f.key, Unsaved(f, jobs))[i]))
  {
    var unsaved := Unsaved(f, jobs);
    DedupeBySelection(f, unsaved);
    var n := SelectedFrom(unsaved, unsaved, Repeats(f.key, unsaved), false, i);
    var m := SelectedFrom(Uncached(f, jobs), Uncached(f, jobs), Saved(f, Uncached(f, jobs)), false, n);
  }

  lemma DedupedIsClean(f: Fetch, jobs: seq<Job>, i: nat)
    requires i < |Deduped(f.merge, f.key, Unsaved(f, jobs))|
    ensures var job := Deduped(f.merge, f.key, Unsaved(f, jobs))[i];
      var sel := WithKey(f.key, Unsaved(f, jobs), KeyOf(f.key, job));
      && (f.existing.Some? ==> KeyOf(f.key, job) !in f.existing.value - {""})
      && (KeyOf(f.key, job) != "" ==> sel != [] && job == Fold(f.merge, sel[0], sel[1..]))
  {
    DedupedIsUnsaved(f, jobs, i);
    if KeyOf(f.key, Deduped(f.merge, f.key, Unsaved(f, jobs))[i]) != "" {
      SurvivorIsFold(f.merge, f.key, Unsaved(f, jobs), i);
    }
  }

  lemma CutIsDistinct(key: Key, jobs: seq<Job>, n: nat)
    requires DistinctKeys(key, jobs) && n <= |jobs|
    ensures DistinctKeys(key, jobs[..n])
  {
  }

  /**
    The returned jobs have pairwise different non-empty keys, none of them in the existing index, each is the fold
    of all unsaved jobs with its key, and a positive limit is respected and used up before any job is omitted.
  */
  lemma {:induction false} ReturnedIsClean(f: Fetch, jobs: seq<Job>)
    ensures var r := Finalized(f, jobs).returned;
      && (f.limit > 0 ==> |r| <= f.limit)
      && (Finalized(f, jobs).omitted != [] ==> f.limit > 0 && |r| == f.limit)
      && DistinctKeys(f.key, r)
      && (f.existing.Some? ==> forall i :: 0 <= i < |r| ==> KeyOf(f.key, r[i]) !in f.existing.value - {""})
      && (forall i :: 0 <= i < |r| && KeyOf(f.key, r[i]) != "" ==>
            var sel := WithKey(f.key, Unsaved(f, jobs), KeyOf(f.key, r[i]));
            sel != [] && r[i] == Fold(f.merge, sel[0], sel[1..]))
  {
    var deduped := Deduped(f.merge, f.key, Unsaved(f, jobs));
    OutputIsDistinct(f.merge, f.key, Unsaved(f, jobs));
    CutIsDistinct(f.key, deduped, CapAt(f.limit, |deduped|));
    forall i | 0 <= i < |Finalized(f, jobs).returned|
      ensures var job := Finalized(f, jobs).returned[i];
        var sel := WithKey(f.key, Unsaved(f, jobs), KeyOf(f.key, job));
        && (f.existing.Some? ==> KeyOf(f.key, job) !in f.existing.value - {""})
        && (KeyOf(f.key, job) != "" ==> sel != [] && job == Fold(f.merge, sel[0], sel[1..]))
    {
      DedupedIsClean(f, jobs, i);
    }
  }
}
