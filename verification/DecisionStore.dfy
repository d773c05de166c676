/** The decision cache: the deterministic filter's rejections, stored under the normal form of the criteria. */
module DecisionStore {
  import opened Options
  import opened Text
  import opened Lex
  import opened Seqs
  import opened Jobs
  import opened Criteria
  import opened FilterLaws
  import KeyedMerge

  // ---- The decision store ----

  datatype Stage = Deterministic | LlmFiltering(provider: string, model: string)

  datatype DecisionKey = DecisionKey(candidate: string, form: Option<Config>, stage: Stage)

  /** A stored decision: the reason of a rejection, empty when accepted, and the job it was made about. */
  datatype Stored = Stored(rejected: bool, reason: string, job: Job)

  function CandidateKey(env: Env, job: Job): string {
    KeyedMerge.CandidateKey(env.key, job)
  }

  function Put(env: Env, form: Option<Config>, m: map<DecisionKey, Stored>, job: Job, rejected: bool,
      reason: string): map<DecisionKey, Stored> {
    if CandidateKey(env, job) == "" then m
    else m[DecisionKey(CandidateKey(env, job), form, Deterministic) := Stored(rejected, Trim(reason), job)]
  }

  function PutAll(env: Env, form: Option<Config>, m: map<DecisionKey, Stored>, jobs: seq<Job>, rejected: bool,
      reason: string): map<DecisionKey, Stored> {
    if jobs == [] then m
    else Put(env, form, PutAll(env, form, m, jobs[..|jobs| - 1], rejected, reason), jobs[|jobs| - 1], rejected, reason)
  }

  function PutGroups(env: Env, form: Option<Config>, m: map<DecisionKey, Stored>,
      filtered: map<string, seq<Job>>, order: seq<string>): map<DecisionKey, Stored>
    requires forall i :: 0 <= i < |order| ==> order[i] in filtered
  {
    if order == [] then m
    else
      var init, reason := PutGroups(env, form, m, filtered, order[..|order| - 1]), order[|order| - 1];
      if reason in REASONS then PutAll(env, form, init, filtered[reason], true, reason) else init
  }

  /** Each deterministic group holds only jobs that the filter rejected for its reason. */
  ghost predicate GroupsAreRejections(env: Env, criteria: Option<Config>, filtered: map<string, seq<Job>>) {
    forall reason, i :: reason in filtered && reason in REASONS && 0 <= i < |filtered[reason]|
      ==> FilterReason(env, filtered[reason][i], criteria) == reason
  }

  /** Which jobs the filter gives this reason, none for those it keeps. */
  ghost function GivenReason(env: Env, criteria: Option<Config>, jobs: seq<Job>, reason: string): (flags: seq<bool>)
    ensures |flags| == |jobs|
  {
    seq(|jobs|, n requires 0 <= n < |jobs| => FilterReason(env, jobs[n], criteria) == reason)
  }

  /** The jobs the filter gives this reason, in order. */
  ghost function WithReason(env: Env, criteria: Option<Config>, jobs: seq<Job>, reason: string): seq<Job> {
    Select(jobs, GivenReason(env, criteria, jobs, reason), true)
  }

  lemma WithReasonNext(env: Env, criteria: Option<Config>, jobs: seq<Job>, reason: string, n: nat)
    requires n < |jobs|
    ensures WithReason(env, criteria, jobs[..n + 1], reason)
         == WithReason(env, criteria, jobs[..n], reason)
          + if FilterReason(env, jobs[n], criteria) == reason then [jobs[n]] else []
  {
    var flags := GivenReason(env, criteria, jobs, reason);
    assert flags[..n + 1] == GivenReason(env, criteria, jobs[..n + 1], reason);
    assert flags[..n] == GivenReason(env, criteria, jobs[..n], reason);
    SelectNext(jobs, flags, true, n);
  }

  /** A group for every reason given, of the jobs given it. */
  ghost predicate Grouped(env: Env, criteria: Option<Config>, jobs: seq<Job>, filtered: map<string, seq<Job>>) {
    forall reason :: GroupIs(filtered, reason, WithReason(env, criteria, jobs, reason))
  }

  /** The group of a reason, which is there exactly when a rejection for it was made. */
  predicate GroupIs(filtered: map<string, seq<Job>>, reason: string, rejected: seq<Job>) {
    if reason == "" || rejected == [] then reason !in filtered
    else reason in filtered && filtered[reason] == rejected
  }

  lemma GroupedNext(env: Env, criteria: Option<Config>, jobs: seq<Job>, filtered: map<string, seq<Job>>, n: nat)
    requires n < |jobs| && Grouped(env, criteria, jobs[..n], filtered)
    ensures var reason := FilterReason(env, jobs[n], criteria);
      if reason == "" then Grouped(env, criteria, jobs[..n + 1], filtered)
      else
        var group := (if reason in filtered then filtered[reason] else []) + [jobs[n]];
        Grouped(env, criteria, jobs[..n + 1], filtered[reason := group])
  {
    var given := FilterReason(env, jobs[n], criteria);
    var group := (if given in filtered then filtered[given] else []) + [jobs[n]];
    var after := if given == "" then filtered else filtered[given := group];
    var next := jobs[..n + 1];
    forall reason ensures GroupIs(after, reason, WithReason(env, criteria, next, reason)) {
      WithReasonNext(env, criteria, jobs, reason, n);
      OneGroupNext(filtered, given, jobs[n], reason, WithReason(env, criteria, jobs[..n], reason));
    }
  }

  lemma OneGroupNext(filtered: map<string, seq<Job>>, given: string, job: Job, reason: string, rejected: seq<Job>)
    requires GroupIs(filtered, reason, rejected)
    ensures var group := (if given in filtered then filtered[given] else []) + [job];
      var after := if given == "" then filtered else filtered[given := group];
      GroupIs(after, reason, rejected + if given == reason then [job] else [])
  {
    assert rejected + [] == rejected && [] + [job] == [job];
  }

  lemma {:induction false} GroupedAreRejections(env: Env, criteria: Option<Config>, jobs: seq<Job>,
      filtered: map<string, seq<Job>>)
    requires Grouped(env, criteria, jobs, filtered)
    ensures GroupsAreRejections(env, criteria, filtered)
  {
    forall reason, i | reason in filtered && reason in REASONS && 0 <= i < |filtered[reason]|
      ensures FilterReason(env, filtered[reason][i], criteria) == reason
    {
      assert GroupIs(filtered, reason, WithReason(env, criteria, jobs, reason));
      var n := SelectedFrom(jobs, jobs, GivenReason(env, criteria, jobs, reason), true, i);
    }
  }

  /** One filtering pass over fetched jobs: what is kept and each group are the jobs of that outcome, in order. */
  method FilterJobs(env: Env, criteria: Option<Config>, jobs: seq<Job>) returns (kept: seq<Job>,
      filtered: map<string, seq<Job>>)
    ensures kept == WithReason(env, criteria, jobs, "") && Grouped(env, criteria, jobs, filtered)
    ensures GroupsAreRejections(env, criteria, filtered)
  {
    kept, filtered := [], map[];
    for n := 0 to |jobs|
      invariant kept == WithReason(env, criteria, jobs[..n], "") && Grouped(env, criteria, jobs[..n], filtered)
    {
      WithReasonNext(env, criteria, jobs, "", n);
      GroupedNext(env, criteria, jobs, filtered, n);
      var reason := FilterJobReason(env, jobs[n], criteria);
      if reason != "" {
        filtered := filtered[reason := (if reason in filtered then filtered[reason] else []) + [jobs[n]]];
        continue;
      }
      kept := kept + [jobs[n]];
    }
    assert jobs[..|jobs|] == jobs;
    GroupedAreRejections(env, criteria, jobs, filtered);
  }

  /** Some criteria of this normal form, faithful ones if only such are in use, reject the job for this reason. */
  ghost predicate RejectedUnder(env: Env, faithful: bool, form: Option<Config>, job: Job, reason: string) {
    && reason in REASONS
    && exists c :: NormalForm(c) == form && FilterReason(env, job, c) == reason && (faithful ==> Faithful(c))
  }

  /** A stored deterministic rejection comes from a job of that key that the filter rejected under that normal form. */
  ghost predicate Justified(env: Env, faithful: bool, k: DecisionKey, s: Stored) {
    s.rejected && k.stage.Deterministic? ==>
        k.candidate == CandidateKey(env, s.job) && RejectedUnder(env, faithful, k.form, s.job, s.reason)
  }

  ghost predicate AllJustified(env: Env, faithful: bool, m: map<DecisionKey, Stored>) {
    forall k :: k in m ==> Justified(env, faithful, k, m[k])
  }

  lemma ReasonsAreTrimmed(reason: string)
    requires reason in REASONS
    ensures Trim(reason) == reason != ""
  {
    TrimmedIsFixed(reason);
  }

  lemma {:induction false} PutJustified(env: Env, faithful: bool, form: Option<Config>, m: map<DecisionKey, Stored>,
      job: Job, rejected: bool, reason: string)
    requires AllJustified(env, faithful, m)
    requires rejected ==> RejectedUnder(env, faithful, form, job, reason)
    ensures AllJustified(env, faithful, Put(env, form, m, job, rejected, reason))
  {
    if rejected {
      ReasonsAreTrimmed(reason);
    }
    var r := Put(env, form, m, job, rejected, reason);
    forall k | k in r ensures Justified(env, faithful, k, r[k]) {
      if k in m && r[k] == m[k] {
        assert Justified(env, faithful, k, m[k]);
      }
    }
  }

  lemma {:induction false} PutAllJustified(env: Env, faithful: bool, form: Option<Config>,
      m: map<DecisionKey, Stored>, jobs: seq<Job>, rejected: bool, reason: string)
    requires AllJustified(env, faithful, m)
    requires rejected ==> forall i :: 0 <= i < |jobs| ==> RejectedUnder(env, faithful, form, jobs[i], reason)
    ensures AllJustified(env, faithful, PutAll(env, form, m, jobs, rejected, reason))
    decreases |jobs|
  {
    if jobs != [] {
      var init := jobs[..|jobs| - 1];
      PutAllJustified(env, faithful, form, m, init, rejected, reason);
      PutJustified(env, faithful, form, PutAll(env, form, m, init, rejected, reason), jobs[|jobs| - 1], rejected,
          reason);
    }
  }

  lemma GroupIsRejected(env: Env, faithful: bool, criteria: Option<Config>, filtered: map<string, seq<Job>>,
      reason: string, i: nat)
    requires GroupsAreRejections(env, criteria, filtered) && (faithful ==> Faithful(criteria)) && reason in filtered
    requires reason in REASONS && i < |filtered[reason]|
    ensures RejectedUnder(env, faithful, NormalForm(criteria), filtered[reason][i], reason)
  {
  }

  lemma {:induction false} PutGroupsJustified(env: Env, faithful: bool, criteria: Option<Config>,
      m: map<DecisionKey, Stored>, filtered: map<string, seq<Job>>, order: seq<string>)
    requires AllJustified(env, faithful, m) && GroupsAreRejections(env, criteria, filtered)
    requires faithful ==> Faithful(criteria)
    requires forall i :: 0 <= i < |order| ==> order[i] in filtered
    ensures AllJustified(env, faithful, PutGroups(env, NormalForm(criteria), m, filtered, order))
    decreases |order|
  {
    if order != [] {
      var init, reason := order[..|order| - 1], order[|order| - 1];
      PutGroupsJustified(env, faithful, criteria, m, filtered, init);
      if reason in REASONS {
        forall i | 0 <= i < |filtered[reason]|
          ensures RejectedUnder(env, faithful, NormalForm(criteria), filtered[reason][i], reason)
        {
          GroupIsRejected(env, faithful, criteria, filtered, reason, i);
        }
        PutAllJustified(env, faithful, NormalForm(criteria), PutGroups(env, NormalForm(criteria), m, filtered, init),
            filtered[reason], true, reason);
      }
    }
  }

  // ---- Recording ----

  /** The store of decisions: a map in which the last write wins. */
  class CandidateStore {
    const env: Env
    /** Whether only faithful criteria are ever recorded here. */
    ghost const faithful: bool
    var decisions: map<DecisionKey, Stored>

    ghost predicate Valid()
      reads this
    {
      AllJustified(env, faithful, decisions)
    }

    constructor (env: Env, ghost faithful: bool)
      ensures Valid() && this.env == env && this.faithful == faithful && decisions == map[]
    {
      this.env, this.faithful, decisions := env, faithful, map[];
    }

    method UpsertAll(form: Option<Config>, jobs: seq<Job>, rejected: bool, reason: string)
      modifies this
      ensures decisions == PutAll(env, form, old(decisions), jobs, rejected, reason)
    {
      for n := 0 to |jobs|
        invariant decisions == PutAll(env, form, old(decisions), jobs[..n], rejected, reason)
      {
        assert jobs[..n + 1][..n] == jobs[..n];
        var k := CandidateKey(env, jobs[n]);
        if k != "" {
          decisions := decisions[DecisionKey(k, form, Deterministic) := Stored(rejected, Trim(reason), jobs[n])];
        }
      }
      assert jobs[..|jobs|] == jobs;
    }

    method UpsertGroups(form: Option<Config>, filtered: map<string, seq<Job>>) returns (ghost order: seq<string>)
      modifies this
      ensures Distinct(order) && forall reason :: reason in order <==> reason in filtered
      ensures decisions == PutGroups(env, form, old(decisions), filtered, order)
    {
      order := [];
      var left := filtered.Keys;
      while left != {}
        invariant left <= filtered.Keys && Distinct(order)
        invariant forall reason :: reason in order <==> reason in filtered && reason !in left
        invariant decisions == PutGroups(env, form, old(decisions), filtered, order)
      {
        var reason :| reason in left;
        left := left - {reason};
        assert (order + [reason])[..|order|] == order;
        order := order + [reason];
        if reason in REASONS {
          UpsertAll(form, filtered[reason], true, reason);
        }
      }
    }

    /** `recordDeterministicCandidateDecisions`: the accepted first, then the groups in whatever order the map gives. */
    method RecordDeterministicDecisions(criteria: Option<Config>, accepted: seq<Job>,
        filtered: map<string, seq<Job>>) returns (ghost order: seq<string>)
      requires Valid() && GroupsAreRejections(env, criteria, filtered) && (faithful ==> Faithful(criteria))
      modifies this
      ensures Valid()
      ensures Distinct(order) && forall reason :: reason in order <==> reason in filtered
      ensures var form := NormalForm(criteria);
        decisions == PutGroups(env, form, PutAll(env, form, old(decisions), accepted, false, ""), filtered, order)
    {
      var form := NormalizeCriteria(criteria);
      PutAllJustified(env, faithful, form, decisions, accepted, false, "");
      UpsertAll(form, accepted, false, "");
      ghost var before := decisions;
      order := UpsertGroups(form, filtered);
      PutGroupsJustified(env, faithful, criteria, before, filtered, order);
    }
  }

  // ---- What the store guarantees ----

  ghost predicate HasKey(env: Env, jobs: seq<Job>, candidate: string) {
    exists i :: 0 <= i < |jobs| && CandidateKey(env, jobs[i]) == candidate
  }

  /** A job's key is accepted or rejected by a write of its jobs; other keys keep what they had. */
  lemma {:induction false} PutAllWrites(env: Env, form: Option<Config>, m: map<DecisionKey, Stored>,
      jobs: seq<Job>, rejected: bool, reason: string, k: DecisionKey)
    ensures var r := PutAll(env, form, m, jobs, rejected, reason);
      if k.form == form && k.stage.Deterministic? && k.candidate != "" && HasKey(env, jobs, k.candidate)
      then k in r && r[k].rejected == rejected && r[k].reason == Trim(reason) &&
          CandidateKey(env, r[k].job) == k.candidate
      else (k in r <==> k in m) && (k in m ==> r[k] == m[k])
    decreases |jobs|
  {
    if jobs != [] {
      var init, last := jobs[..|jobs| - 1], jobs[|jobs| - 1];
      PutAllWrites(env, form, m, init, rejected, reason, k);
      HasKeyNext(env, jobs, k.candidate);
    }
  }

  lemma HasKeyNext(env: Env, jobs: seq<Job>, candidate: string)
    requires jobs != []
    ensures HasKey(env, jobs, candidate) <==>
          HasKey(env, jobs[..|jobs| - 1], candidate) || CandidateKey(env, jobs[|jobs| - 1]) == candidate
  {
    var init := jobs[..|jobs| - 1];
    if i :| 0 <= i < |init| && CandidateKey(env, init[i]) == candidate {
      assert jobs[i] == init[i];
    }
  }

  ghost predicate RejectedHere(env: Env, filtered: map<string, seq<Job>>, reasons: seq<string>, candidate: string) {
    exists i :: 0 <= i < |reasons| && reasons[i] in REASONS && reasons[i] in filtered &&
        HasKey(env, filtered[reasons[i]], candidate)
  }

  /** Whatever the order of the groups, a key rejected by any of them ends rejected, and the others are untouched. */
  lemma {:induction false} PutGroupsWrites(env: Env, form: Option<Config>, m: map<DecisionKey, Stored>,
      filtered: map<string, seq<Job>>, order: seq<string>, k: DecisionKey)
    requires forall i :: 0 <= i < |order| ==> order[i] in filtered
    ensures var r := PutGroups(env, form, m, filtered, order);
      var here := k.form == form && k.stage.Deterministic? && k.candidate != "";
      if here && RejectedHere(env, filtered, order, k.candidate) then k in r && r[k].rejected
      else (k in r <==> k in m) && (k in m ==> r[k] == m[k])
    decreases |order|
  {
    if order != [] {
      var init, reason := order[..|order| - 1], order[|order| - 1];
      PutGroupsWrites(env, form, m, filtered, init, k);
      RejectedHereNext(env, filtered, order, k.candidate);
      if reason in REASONS {
        PutAllWrites(env, form, PutGroups(env, form, m, filtered, init), filtered[reason], true, reason, k);
      }
    }
  }

  lemma RejectedHereNext(env: Env, filtered: map<string, seq<Job>>, order: seq<string>, candidate: string)
    requires order != []
    ensures RejectedHere(env, filtered, order, candidate) <==>
      || RejectedHere(env, filtered, order[..|order| - 1], candidate)
      || (order[|order| - 1] in REASONS && order[|order| - 1] in filtered &&
          HasKey(env, filtered[order[|order| - 1]], candidate))
  {
    var init := order[..|order| - 1];
    if i :| 0 <= i < |init| && init[i] in REASONS && init[i] in filtered && HasKey(env, filtered[init[i]], candidate) {
      assert order[i] == init[i];
    }
  }

  /**
    Last write wins: after recording, a key that some deterministic group holds is rejected even when it was also
    accepted, a key only accepted is accepted, and every other decision is as before.
  */
  lemma RejectionWins(env: Env, form: Option<Config>, m: map<DecisionKey, Stored>, accepted: seq<Job>,
      filtered: map<string, seq<Job>>, order: seq<string>, k: DecisionKey)
    requires forall reason :: reason in order <==> reason in filtered
    ensures var r := PutGroups(env, form, PutAll(env, form, m, accepted, false, ""), filtered, order);
      var here := k.form == form && k.stage.Deterministic? && k.candidate != "";
      if here && RejectedHere(env, filtered, order, k.candidate) then k in r && r[k].rejected
      else if here && HasKey(env, accepted, k.candidate) then k in r && !r[k].rejected
      else (k in r <==> k in m) && (k in m ==> r[k] == m[k])
  {
    PutAllWrites(env, form, m, accepted, false, "", k);
    PutGroupsWrites(env, form, PutAll(env, form, m, accepted, false, ""), filtered, order, k);
  }

  /**
    A cached rejection is sound: in a store that has only seen faithful criteria, faithful criteria that look up a
    rejection would today reject the job it was stored for, with the stored reason.
  */
  lemma {:induction false} CachedRejectionIsSound(env: Env, m: map<DecisionKey, Stored>, k: DecisionKey,
      today: Option<Config>)
    requires AllJustified(env, true, m) && k in m && m[k].rejected && k.stage.Deterministic?
    requires NormalForm(today) == k.form && Faithful(today)
    ensures CandidateKey(env, m[k].job) == k.candidate && FilterReason(env, m[k].job, today) == m[k].reason != ""
  {
    assert Justified(env, true, k, m[k]);
    var c :| NormalForm(c) == k.form && FilterReason(env, m[k].job, c) == m[k].reason && Faithful(c);
    SameFormSameReason(env, m[k].job, c, today);
    ReasonsAreTrimmed(m[k].reason);
  }
}
