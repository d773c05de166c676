/** Copying trusted company identity between jobs of one company: choose per company and field, then fill the gaps. */
module IdentityPropagation {
  import opened Options
  import opened Text
  import opened Jobs
  import opened Seqs

  datatype Fact = Website | Summary | Industry

  /** The heuristics and the company key, uninterpreted. */
  datatype Env = Env(ch: Checks, companyKey: string -> string, blocked: (string, string) -> bool)

  const NO_IDENTITY := Identity(None, None, None)

  function ValueOf(job: Job, k: Fact): string {
    match k
    case Website => job.companyWebsite
    case Summary => job.companySummary
    case Industry => job.companyIndustry
  }

  function EvidenceOf(job: Job, k: Fact): Option<Evidence> {
    if job.companyIdentity.None? then None
    else
      match k
      case Website => job.companyIdentity.value.website
      case Summary => job.companyIdentity.value.summary
      case Industry => job.companyIdentity.value.industry
  }

  // ---- Trust ----

  function EvidenceRank(e: Option<Evidence>): nat {
    if e.None? || e.value.provisional then 0
    else if Lower(Trim(e.value.confidence)) == "high" then 2
    else if Lower(Trim(e.value.confidence)) == "medium" then 1
    else 0
  }

  predicate Trusted(e: Option<Evidence>, value: string) {
    !Blank(value) && EvidenceRank(e) > 0 && EqualFold(Trim(e.value.value), Trim(value))
  }

  predicate Blocked(env: Env, value: string, e: Option<Evidence>) {
    e.Some? && env.blocked(value, e.value.url)
  }

  /** The rank a job's value has as a source for others, 0 when it is not trusted. */
  function RankOf(env: Env, job: Job, k: Fact): nat {
    var value, e := ValueOf(job, k), EvidenceOf(job, k);
    if !Trusted(e, value) then 0
    else
      match k
      case Website => if WebsiteMissing(env.ch, value) || Blocked(env, value, e) then 0 else EvidenceRank(e)
      case Summary => if SummaryMissing(env.ch, value, job.company) then 0 else EvidenceRank(e)
      case Industry => if env.ch.looksLikeIndustry(value) then EvidenceRank(e) else 0
  }

  /** Whether a job still wants a value. */
  predicate Missing(env: Env, job: Job, k: Fact) {
    match k
    case Website => WebsiteMissing(env.ch, job.companyWebsite)
    case Summary => SummaryMissing(env.ch, job.companySummary, job.company)
    case Industry => Blank(job.companyIndustry) || (EvidenceOf(job, k).Some? && EvidenceOf(job, k).value.provisional)
  }

  // ---- The choice ----

  /** What was chosen for one company and field; rank 0 means nothing. */
  datatype Pick = Pick(value: string, evidence: Option<Evidence>, rank: nat)

  const NOTHING := Pick("", None, 0)

  datatype Record = Record(website: Pick, summary: Pick, industry: Pick)

  function PickOf(record: Record, k: Fact): Pick {
    match k
    case Website => record.website
    case Summary => record.summary
    case Industry => record.industry
  }

  function Offer(env: Env, job: Job, k: Fact): Pick {
    if RankOf(env, job, k) == 0 then NOTHING else Pick(ValueOf(job, k), EvidenceOf(job, k), RankOf(env, job, k))
  }

  function Better(offer: Pick, current: Pick): Pick {
    if offer.rank > current.rank then offer else current
  }

  function RankFor(env: Env, job: Job, key: string, k: Fact): nat {
    if env.companyKey(job.company) == key then RankOf(env, job, k) else 0
  }

  /** The ranks of the jobs as sources for one company; jobs of other companies have none. */
  function Ranks(env: Env, jobs: seq<Job>, key: string, k: Fact): (r: seq<nat>)
    ensures |r| == |jobs|
  {
    seq(|jobs|, i requires 0 <= i < |jobs| => RankFor(env, jobs[i], key, k))
  }

  /** Scanning left to right, a strictly higher rank takes over. */
  function BestOf(ranks: seq<nat>): (b: Option<nat>)
    ensures b.Some? ==> b.value < |ranks|
  {
    if ranks == [] then None
    else
      var init := BestOf(ranks[..|ranks| - 1]);
      if ranks[|ranks| - 1] > (if init.Some? then ranks[init.value] else 0) then Some(|ranks| - 1) else init
  }

  lemma {:induction false} BestOfIsFirstHighest(ranks: seq<nat>)
    ensures var b := BestOf(ranks);
      if b.Some? then
        && ranks[b.value] > 0
        && (forall j :: 0 <= j < |ranks| ==> ranks[j] <= ranks[b.value])
        && (forall j :: 0 <= j < b.value ==> ranks[j] < ranks[b.value])
      else
        forall j :: 0 <= j < |ranks| ==> ranks[j] == 0
  {
    if ranks != [] {
      BestOfIsFirstHighest(ranks[..|ranks| - 1]);
    }
  }

  /** The job chosen for a company and field. */
  function Best(env: Env, jobs: seq<Job>, key: string, k: Fact): (b: Option<nat>)
    ensures b.Some? ==> b.value < |jobs|
  {
    BestOf(Ranks(env, jobs, key, k))
  }

  function Chosen(env: Env, jobs: seq<Job>, key: string, k: Fact): Pick {
    var b := Best(env, jobs, key, k);
    if b.None? then NOTHING else Offer(env, jobs[b.value], k)
  }

  /** The first job of highest trusted rank is chosen, and none exactly when no job of the company is trusted. */
  lemma BestIsFirstHighest(env: Env, jobs: seq<Job>, key: string, k: Fact)
    ensures var b := Best(env, jobs, key, k);
      if b.Some? then
        && RankOf(env, jobs[b.value], k) > 0 && env.companyKey(jobs[b.value].company) == key
        && (forall j :: 0 <= j < |jobs| && env.companyKey(jobs[j].company) == key ==>
            RankOf(env, jobs[j], k) <= RankOf(env, jobs[b.value], k))
        && (forall j :: 0 <= j < b.value && env.companyKey(jobs[j].company) == key ==>
            RankOf(env, jobs[j], k) < RankOf(env, jobs[b.value], k))
      else
        forall j :: 0 <= j < |jobs| && env.companyKey(jobs[j].company) == key ==> RankOf(env, jobs[j], k) == 0
  {
    var ranks := Ranks(env, jobs, key, k);
    BestOfIsFirstHighest(ranks);
    forall j | 0 <= j < |jobs| && env.companyKey(jobs[j].company) == key ensures RankOf(env, jobs[j], k) == ranks[j] {
    }
  }

  lemma ChosenNext(env: Env, jobs: seq<Job>, n: nat, key: string, k: Fact)
    requires n < |jobs|
    ensures Chosen(env, jobs[..n + 1], key, k) ==
      if env.companyKey(jobs[n].company) == key then Better(Offer(env, jobs[n], k), Chosen(env, jobs[..n], key, k))
      else Chosen(env, jobs[..n], key, k)
  {
    var ranks := Ranks(env, jobs[..n + 1], key, k);
    assert ranks[..n] == Ranks(env, jobs[..n], key, k);
    BestIsFirstHighest(env, jobs[..n], key, k);
  }

  // ---- The copy ----

  function SetEvidence(job: Job, k: Fact, e: Evidence): Job {
    if Blank(e.value) then job
    else
      var trimmed :=
          Evidence(Trim(e.value), Trim(e.source), Trim(e.url), Trim(e.confidence), e.provisional, Trim(e.reason));
      var identity := if job.companyIdentity.Some? then job.companyIdentity.value else NO_IDENTITY;
      job.(companyIdentity := Some(
        match k
        case Website => identity.(website := Some(trimmed))
        case Summary => identity.(summary := Some(trimmed))
        case Industry => identity.(industry := Some(trimmed))))
  }

  function SetValue(job: Job, k: Fact, value: string): Job {
    match k
    case Website => job.(companyWebsite := value)
    case Summary => job.(companySummary := value)
    case Industry => job.(companyIndustry := value)
  }

  const COPIED := "Copied from another same-company job with trusted identity evidence"

  function CopiedEvidence(pick: Pick): Evidence {
    if pick.evidence.None? then Evidence(pick.value, "same_company_identity_copy", "", "medium", false, COPIED + ".")
    else
      var e := pick.evidence.value;
      var reason := if Blank(e.source) then COPIED + "." else COPIED + " from " + Trim(e.source) + ".";
      Evidence(pick.value, "same_company_identity_copy", e.url, e.confidence, false, reason)
  }

  predicate Copies(env: Env, job: Job, k: Fact, pick: Pick) {
    && Missing(env, job, k)
    && pick.value != ""
    && (k.Website? ==> !Blocked(env, pick.value, pick.evidence))
  }

  function CopyFact(env: Env, job: Job, k: Fact, pick: Pick): Job {
    if Copies(env, job, k, pick) then SetEvidence(SetValue(job, k, pick.value), k, CopiedEvidence(pick)) else job
  }

  function ChosenFor(env: Env, jobs: seq<Job>, job: Job, k: Fact): Pick {
    var key := env.companyKey(job.company);
    if key == "" then NOTHING else Chosen(env, jobs, key, k)
  }

  function PropagatedJob(env: Env, jobs: seq<Job>, job: Job): Job {
    var one := CopyFact(env, job, Website, ChosenFor(env, jobs, job, Website));
    var two := CopyFact(env, one, Summary, ChosenFor(env, jobs, job, Summary));
    CopyFact(env, two, Industry, ChosenFor(env, jobs, job, Industry))
  }

  function Propagated(env: Env, jobs: seq<Job>): (r: seq<Job>)
    ensures |r| == |jobs|
    ensures forall i :: 0 <= i < |jobs| ==> r[i] == PropagatedJob(env, jobs, jobs[i])
  {
    seq(|jobs|, i requires 0 <= i < |jobs| => PropagatedJob(env, jobs, jobs[i]))
  }

  // ---- The code ----

  /** The records of the first `n` jobs; a company without one has nothing chosen. */
  ghost predicate RecordsOf(env: Env, jobs: seq<Job>, records: map<string, Record>) {
    && "" !in records
    && forall key, k :: key != "" ==> PickIn(records, key, k) == Chosen(env, jobs, key, k)
  }

  function PickIn(records: map<string, Record>, key: string, k: Fact): Pick {
    if key in records then PickOf(records[key], k) else NOTHING
  }

  function WithOffer(env: Env, job: Job, own: bool, current: Pick, k: Fact): Pick {
    if own then Better(Offer(env, job, k), current) else current
  }

  function Joined(env: Env, record: Record, job: Job): Record {
    Record(Better(Offer(env, job, Website), record.website),
           Better(Offer(env, job, Summary), record.summary),
           Better(Offer(env, job, Industry), record.industry))
  }

  lemma RecordsStep(env: Env, jobs: seq<Job>, n: nat, records: map<string, Record>, next: map<string, Record>)
    requires n < |jobs| && RecordsOf(env, jobs[..n], records) && "" !in next
    requires forall key, k :: key != "" ==>
      PickIn(next, key, k)
          == WithOffer(env, jobs[n], key == env.companyKey(jobs[n].company), PickIn(records, key, k), k)
    ensures RecordsOf(env, jobs[..n + 1], next)
  {
    forall key, k | key != "" ensures PickIn(next, key, k) == Chosen(env, jobs[..n + 1], key, k) {
      ChosenNext(env, jobs, n, key, k);
      assert PickIn(records, key, k) == Chosen(env, jobs[..n], key, k);
    }
  }

  method CollectRecords(env: Env, jobs: seq<Job>) returns (records: map<string, Record>)
    ensures RecordsOf(env, jobs, records)
  {
    records := map[];
    for n := 0 to |jobs|
      invariant RecordsOf(env, jobs[..n], records)
    {
      ghost var before := records;
      var key := env.companyKey(jobs[n].company);
      if key != "" {
        records := AddOffer(env, jobs[n], records, key);
      }
      RecordsStep(env, jobs, n, before, records);
    }
    assert jobs[..|jobs|] == jobs;
  }

  method AddOffer(env: Env, job: Job, records: map<string, Record>, key: string) returns (next: map<string, Record>)
    requires key != "" && "" !in records
    ensures "" !in next
    ensures forall other, k :: PickIn(next, other, k) == WithOffer(env, job, other == key, PickIn(records, other, k), k)
  {
    if RankOf(env, job, Website) == 0 && RankOf(env, job, Summary) == 0 && RankOf(env, job, Industry) == 0 {
      next := records;
      forall k ensures Offer(env, job, k) == NOTHING {
        assert RankOf(env, job, k) == 0 by { match k case Website => case Summary => case Industry => }
      }
      return;
    }
    var existing := if key in records then records[key] else Record(NOTHING, NOTHING, NOTHING);
    next := records[key := Joined(env, existing, job)];
    forall k ensures PickOf(Joined(env, existing, job), k) == Better(Offer(env, job, k), PickOf(existing, k)) {
      match k case Website => case Summary => case Industry =>
    }
  }

  method ApplySameCompanyIdentity(env: Env, job: Job, record: Record) returns (r: Job, copied: nat)
    ensures var withWebsite := CopyFact(env, job, Website, record.website);
      r == CopyFact(env, CopyFact(env, withWebsite, Summary, record.summary), Industry, record.industry)
    ensures copied == (if Copies(env, job, Website, record.website) then 1 else 0)
      + (if Copies(env, job, Summary, record.summary) then 1 else 0)
      + (if Copies(env, job, Industry, record.industry) then 1 else 0)
  {
    r, copied := job, 0;
    OtherFactsKept(env, job, Website, record.website);
    OtherFactsKept(env, CopyFact(env, job, Website, record.website), Summary, record.summary);
    if Copies(env, r, Website, record.website) {
      r, copied := CopyFact(env, r, Website, record.website), copied + 1;
    }
    if Copies(env, r, Summary, record.summary) {
      r, copied := CopyFact(env, r, Summary, record.summary), copied + 1;
    }
    if Copies(env, r, Industry, record.industry) {
      r, copied := CopyFact(env, r, Industry, record.industry), copied + 1;
    }
  }

  /** How many values one run copies into a job. */
  function CopiesInto(env: Env, jobs: seq<Job>, job: Job): nat {
    (if Copies(env, job, Website, ChosenFor(env, jobs, job, Website)) then 1 else 0)
    + (if Copies(env, job, Summary, ChosenFor(env, jobs, job, Summary)) then 1 else 0)
    + (if Copies(env, job, Industry, ChosenFor(env, jobs, job, Industry)) then 1 else 0)
  }

  function CopyCount(env: Env, jobs: seq<Job>, n: nat): nat
    requires n <= |jobs|
  {
    if n == 0 then 0 else CopyCount(env, jobs, n - 1) + CopiesInto(env, jobs, jobs[n - 1])
  }

  method PropagateSameCompanyIdentity(env: Env, jobs: seq<Job>) returns (r: seq<Job>, copied: nat)
    ensures r == Propagated(env, jobs)
    ensures copied == CopyCount(env, jobs, |jobs|)
  {
    var records := CollectRecords(env, jobs);
    r, copied := jobs, 0;
    ghost var done := Propagated(env, jobs);
    for i := 0 to |jobs|
      invariant HalfDone(r, done, jobs, i)
      invariant copied == CopyCount(env, jobs, i)
    {
      HalfDoneNext(r, done, jobs, i);
      var job, count := PropagateInto(env, jobs, r[i], records);
      r := r[i := job];
      copied := copied + count;
    }
    AllDone(r, done, jobs);
  }

  method PropagateInto(env: Env, jobs: seq<Job>, job: Job, records: map<string, Record>) returns (r: Job, copied: nat)
    requires RecordsOf(env, jobs, records)
    ensures r == PropagatedJob(env, jobs, job) && copied == CopiesInto(env, jobs, job)
  {
    var key := env.companyKey(job.company);
    var record := Record(NOTHING, NOTHING, NOTHING);
    if key != "" && key in records {
      record := records[key];
    }
    RecordIsChosen(env, jobs, job, records, record);
    r, copied := ApplySameCompanyIdentity(env, job, record);
  }

  lemma RecordIsChosen(env: Env, jobs: seq<Job>, job: Job, records: map<string, Record>, record: Record)
    requires RecordsOf(env, jobs, records)
    requires var key := env.companyKey(job.company);
      record == if key != "" && key in records then records[key] else Record(NOTHING, NOTHING, NOTHING)
    ensures record.website == ChosenFor(env, jobs, job, Website)
    ensures record.summary == ChosenFor(env, jobs, job, Summary)
    ensures record.industry == ChosenFor(env, jobs, job, Industry)
  {
    var key := env.companyKey(job.company);
    if key != "" {
      assert PickIn(records, key, Website) == Chosen(env, jobs, key, Website);
      assert PickIn(records, key, Summary) == Chosen(env, jobs, key, Summary);
      assert PickIn(records, key, Industry) == Chosen(env, jobs, key, Industry);
    }
  }

  // ---- What propagation guarantees ----

  /** Copying one fact leaves the company, the other facts and their evidence alone. */
  lemma OtherFactsKept(env: Env, job: Job, k: Fact, pick: Pick)
    ensures var r := CopyFact(env, job, k, pick);
      && r.company == job.company
      && forall o :: o != k ==>
           && ValueOf(r, o) == ValueOf(job, o) && EvidenceOf(r, o) == EvidenceOf(job, o)
           && Missing(env, r, o) == Missing(env, job, o)
  {
    var r := CopyFact(env, job, k, pick);
    forall o | o != k
      ensures ValueOf(r, o) == ValueOf(job, o) && EvidenceOf(r, o) == EvidenceOf(job, o)
      ensures Missing(env, r, o) == Missing(env, job, o)
    {
      match k case Website => case Summary => case Industry =>
      match o case Website => case Summary => case Industry =>
    }
  }

  /** After a run each fact is as one copy of it alone would leave it. */
  lemma {:induction false} FactAfter(env: Env, jobs: seq<Job>, job: Job, k: Fact)
    ensures var r, one := PropagatedJob(env, jobs, job), CopyFact(env, job, k, ChosenFor(env, jobs, job, k));
      && r.company == job.company && ValueOf(r, k) == ValueOf(one, k) && EvidenceOf(r, k) == EvidenceOf(one, k)
      && Missing(env, r, k) == Missing(env, one, k)
  {
    var w, s, i := ChosenFor(env, jobs, job, Website), ChosenFor(env, jobs, job, Summary),
        ChosenFor(env, jobs, job, Industry);
    var one := CopyFact(env, job, Website, w);
    var two := CopyFact(env, one, Summary, s);
    OtherFactsKept(env, job, Website, w);
    OtherFactsKept(env, one, Summary, s);
    OtherFactsKept(env, two, Industry, i);
    SameFactSameCopy(env, one, job, Summary, s);
    SameFactSameCopy(env, two, job, Industry, i);
    match k case Website => case Summary => case Industry =>
  }

  lemma SameFactSameCopy(env: Env, a: Job, b: Job, k: Fact, pick: Pick)
    requires a.company == b.company && ValueOf(a, k) == ValueOf(b, k) && EvidenceOf(a, k) == EvidenceOf(b, k)
    ensures var ra, rb := CopyFact(env, a, k, pick), CopyFact(env, b, k, pick);
      && ValueOf(ra, k) == ValueOf(rb, k) && EvidenceOf(ra, k) == EvidenceOf(rb, k)
      && Missing(env, ra, k) == Missing(env, rb, k)
  {
    match k case Website => case Summary => case Industry =>
  }

  /**
    A fact that is not missing, such as a valid website or a present non-provisional industry, is never
    overwritten.
  */
  lemma {:induction false} NeverOverwritten(env: Env, jobs: seq<Job>, i: nat, k: Fact)
    requires i < |jobs| && !Missing(env, jobs[i], k)
    ensures var r := Propagated(env, jobs)[i];
      ValueOf(r, k) == ValueOf(jobs[i], k) && EvidenceOf(r, k) == EvidenceOf(jobs[i], k)
  {
    FactAfter(env, jobs, jobs[i], k);
  }

  lemma ChosenIsUsable(env: Env, jobs: seq<Job>, key: string, k: Fact)
    requires Best(env, jobs, key, k).Some?
    ensures var pick := Chosen(env, jobs, key, k);
      && pick.value != "" && !Blank(pick.value)
      && (k.Website? ==> !Blocked(env, pick.value, pick.evidence) && !WebsiteMissing(env.ch, pick.value))
  {
    BestIsFirstHighest(env, jobs, key, k);
    assert Blank("");
  }

  /** A missing fact takes the chosen value whenever there is one. */
  lemma GapTakesChosen(env: Env, jobs: seq<Job>, i: nat, k: Fact)
    requires i < |jobs| && Missing(env, jobs[i], k)
    requires env.companyKey(jobs[i].company) != "" && Best(env, jobs, env.companyKey(jobs[i].company), k).Some?
    ensures var r, pick := Propagated(env, jobs)[i], Chosen(env, jobs, env.companyKey(jobs[i].company), k);
      ValueOf(r, k) == pick.value && EvidenceOf(r, k).Some? && !EvidenceOf(r, k).value.provisional
  {
    ChosenIsUsable(env, jobs, env.companyKey(jobs[i].company), k);
    FactAfter(env, jobs, jobs[i], k);
    match k case Website => case Summary => case Industry =>
  }

  /** No job of a company with a trusted website or industry is left lacking it. */
  lemma {:induction false} NoneLeftLacking(env: Env, jobs: seq<Job>, i: nat, k: Fact)
    requires i < |jobs| && !k.Summary?
    requires env.companyKey(jobs[i].company) != "" && Best(env, jobs, env.companyKey(jobs[i].company), k).Some?
    ensures !Missing(env, Propagated(env, jobs)[i], k)
  {
    FactAfter(env, jobs, jobs[i], k);
    if Missing(env, jobs[i], k) {
      GapTakesChosen(env, jobs, i, k);
      ChosenIsUsable(env, jobs, env.companyKey(jobs[i].company), k);
    }
  }

  /** A job may stay without a valid summary: exactly when the chosen one is not valid for its own company name. */
  lemma SummaryLeftLackingIff(env: Env, jobs: seq<Job>, i: nat)
    requires i < |jobs|
    requires env.companyKey(jobs[i].company) != "" && Best(env, jobs, env.companyKey(jobs[i].company), Summary).Some?
    ensures Missing(env, Propagated(env, jobs)[i], Summary) <==>
      && Missing(env, jobs[i], Summary)
      && SummaryMissing(env.ch, Chosen(env, jobs, env.companyKey(jobs[i].company), Summary).value, jobs[i].company)
  {
    FactAfter(env, jobs, jobs[i], Summary);
    if Missing(env, jobs[i], Summary) {
      GapTakesChosen(env, jobs, i, Summary);
    }
  }

  /** A run makes no company trusted that was not. */
  lemma {:induction false} TrustNeedsASource(env: Env, jobs: seq<Job>, key: string, k: Fact)
    requires key != "" && Best(env, Propagated(env, jobs), key, k).Some?
    ensures Best(env, jobs, key, k).Some?
  {
    var r := Propagated(env, jobs);
    BestIsFirstHighest(env, r, key, k);
    BestIsFirstHighest(env, jobs, key, k);
    var b := Best(env, r, key, k).value;
    FactAfter(env, jobs, jobs[b], k);
    if Best(env, jobs, key, k).None? {
      SameFactSameRank(env, r[b], jobs[b], k);
    }
  }

  lemma SameFactSameRank(env: Env, a: Job, b: Job, k: Fact)
    requires a.company == b.company && ValueOf(a, k) == ValueOf(b, k) && EvidenceOf(a, k) == EvidenceOf(b, k)
    ensures RankOf(env, a, k) == RankOf(env, b, k)
  {
    match k case Website => case Summary => case Industry =>
  }

  /** A second run copies no website and no industry. */
  lemma {:induction false} SecondRunCopiesNothing(env: Env, jobs: seq<Job>, i: nat, k: Fact)
    requires i < |jobs| && !k.Summary?
    ensures var r := Propagated(env, jobs);
      && !Copies(env, r[i], k, ChosenFor(env, r, r[i], k))
      && ValueOf(Propagated(env, r)[i], k) == ValueOf(r[i], k)
      && EvidenceOf(Propagated(env, r)[i], k) == EvidenceOf(r[i], k)
  {
    var r := Propagated(env, jobs);
    FactAfter(env, jobs, jobs[i], k);
    FactAfter(env, r, r[i], k);
    var key := env.companyKey(r[i].company);
    if key != "" && Best(env, r, key, k).Some? {
      TrustNeedsASource(env, jobs, key, k);
      NoneLeftLacking(env, jobs, i, k);
    }
  }
}
