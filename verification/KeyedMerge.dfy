/**
  Folding a batch of jobs into a list by key: the common core of MergeJobs and dedupeFetchedJobs. A job whose
  key is already there merges into it, any other is appended, and a job with the empty key is always appended.
*/
module KeyedMerge {
  import opened Options
  import opened Text
  import opened Jobs
  import opened MetadataLaws
  import opened Seqs

  /** A key reads company, title and apply URL, which no merge alters. */
  type Key = (string, string, string) -> string

  /** A merge of an incoming job into an existing one, which leaves the fields a key reads alone. */
  type Merge = m: (Job, Job) -> Job | KeepsKeyFields(m) witness (existing: Job, incoming: Job) => existing

  ghost predicate KeepsKeyFields(m: (Job, Job) -> Job) {
    forall a, b :: m(a, b).company == a.company && m(a, b).title == a.title && m(a, b).applyURL == a.applyURL
  }

  /** The source's merge. */
  function IdentityMerge(ch: Checks): Merge {
    (existing, incoming) => MergeIdentity(ch, existing, incoming)
  }

  function KeyOf(key: Key, job: Job): string {
    key(job.company, job.title, job.applyURL)
  }

  /** The key a job has in the candidate store. */
  function CandidateKey(key: Key, job: Job): string {
    Trim(KeyOf(key, job))
  }

  function Opened(job: Job): Job {
    if job.status == "" || job.status == "New" then job.(status := "Unopened") else job
  }

  function Admit(open: bool, job: Job): Job {
    if open then Opened(job) else job
  }

  /** The last job with a key. */
  function IndexOf(key: Key, jobs: seq<Job>, k: string): (i: Option<nat>)
    ensures i.Some? ==> i.value < |jobs| && KeyOf(key, jobs[i.value]) == k
    ensures i.None? ==> forall j :: 0 <= j < |jobs| ==> KeyOf(key, jobs[j]) != k
    ensures i.Some? ==> forall j :: i.value < j < |jobs| ==> KeyOf(key, jobs[j]) != k
  {
    if jobs == [] then None
    else if KeyOf(key, jobs[|jobs| - 1]) == k then Some(|jobs| - 1)
    else IndexOf(key, jobs[..|jobs| - 1], k)
  }

  function Step(merge: Merge, key: Key, open: bool, acc: seq<Job>, job: Job): seq<Job> {
    var k := KeyOf(key, job);
    var i := IndexOf(key, acc, k);
    if k != "" && i.Some? then acc[i.value := merge(acc[i.value], job)]
    else acc + [Admit(open, job)]
  }

  function MergeAll(merge: Merge, key: Key, open: bool, acc: seq<Job>, jobs: seq<Job>): seq<Job>
    decreases |jobs|
  {
    if jobs == [] then acc
    else Step(merge, key, open, MergeAll(merge, key, open, acc, jobs[..|jobs| - 1]), jobs[|jobs| - 1])
  }

  /** The simple specification: all jobs with one key, folded first to last into a start. */
  function Fold(merge: Merge, start: Job, jobs: seq<Job>): Job
    decreases |jobs|
  {
    if jobs == [] then start else merge(Fold(merge, start, jobs[..|jobs| - 1]), jobs[|jobs| - 1])
  }

  function WithKey(key: Key, jobs: seq<Job>, k: string): (sel: seq<Job>)
    ensures forall j :: 0 <= j < |sel| ==> KeyOf(key, sel[j]) == k
    ensures |sel| <= |jobs|
  {
    if jobs == [] then []
    else
      var init, last := WithKey(key, jobs[..|jobs| - 1], k), jobs[|jobs| - 1];
      if KeyOf(key, last) == k then init + [last] else init
  }

  /** Same keys position by position. */
  predicate SameKeys(key: Key, a: seq<Job>, b: seq<Job>) {
    |a| == |b| && forall j :: 0 <= j < |a| ==> KeyOf(key, a[j]) == KeyOf(key, b[j])
  }

  lemma {:induction false} SameKeysSameIndex(key: Key, a: seq<Job>, b: seq<Job>, k: string)
    requires SameKeys(key, a, b)
    ensures IndexOf(key, a, k) == IndexOf(key, b, k)
  {
  }

  lemma IndexAfterAppend(key: Key, a: seq<Job>, job: Job, k: string)
    ensures IndexOf(key, a + [job], k) == if KeyOf(key, job) == k then Some(|a|) else IndexOf(key, a, k)
  {
    assert (a + [job])[..|a|] == a;
  }

  lemma StepKeepsKeys(merge: Merge, key: Key, open: bool, acc: seq<Job>, job: Job)
    ensures |acc| <= |Step(merge, key, open, acc, job)|
    ensures SameKeys(key, acc, Step(merge, key, open, acc, job)[..|acc|])
    ensures |Step(merge, key, open, acc, job)| == |acc| ==> SameKeys(key, acc, Step(merge, key, open, acc, job))
  {
  }

  lemma {:induction false} StepIndex(merge: Merge, key: Key, open: bool, acc: seq<Job>, job: Job, k: string)
    requires k != ""
    ensures var i, i' := IndexOf(key, acc, k), IndexOf(key, Step(merge, key, open, acc, job), k);
      && (i.Some? ==> i' == i)
      && (i.None? ==> i' == if KeyOf(key, job) == k then Some(|acc|) else None)
  {
    var next := Step(merge, key, open, acc, job);
    StepKeepsKeys(merge, key, open, acc, job);
    if |next| == |acc| {
      SameKeysSameIndex(key, acc, next, k);
    } else {
      IndexAfterAppend(key, acc, Admit(open, job), k);
    }
  }

  /** What Survivor says of one key, with `sel` the batch jobs of that key. */
  ghost predicate Survives(merge: Merge, key: Key, open: bool, acc: seq<Job>, r: seq<Job>, sel: seq<Job>, k: string) {
    var i, i0 := IndexOf(key, r, k), IndexOf(key, acc, k);
    && |acc| <= |r|
    && (i0.Some? ==> i == i0 && r[i.value] == Fold(merge, acc[i.value], sel))
    && (i0.None? && sel == [] ==> i.None?)
    && (i0.None? && sel != [] ==>
        i.Some? && i.value >= |acc| && r[i.value] == Fold(merge, Admit(open, sel[0]), sel[1..]))
  }

  lemma FoldOneMore(merge: Merge, start: Job, sel: seq<Job>, job: Job)
    ensures Fold(merge, start, sel + [job]) == merge(Fold(merge, start, sel), job)
  {
    assert (sel + [job])[..|sel|] == sel;
  }

  lemma SurvivesStored(merge: Merge, key: Key, open: bool, acc: seq<Job>, r: seq<Job>, sel: seq<Job>, k: string,
      job: Job)
    requires k != "" && KeyOf(key, job) == k && Survives(merge, key, open, acc, r, sel, k) && IndexOf(key, acc, k).Some?
    ensures Survives(merge, key, open, acc, Step(merge, key, open, r, job), sel + [job], k)
  {
    StepIndex(merge, key, open, r, job, k);
    FoldOneMore(merge, acc[IndexOf(key, acc, k).value], sel, job);
  }

  lemma SurvivesAdded(merge: Merge, key: Key, open: bool, acc: seq<Job>, r: seq<Job>, sel: seq<Job>, k: string,
      job: Job)
    requires k != "" && KeyOf(key, job) == k && Survives(merge, key, open, acc, r, sel, k) && IndexOf(key, acc, k).None?
    ensures Survives(merge, key, open, acc, Step(merge, key, open, r, job), sel + [job], k)
  {
    StepIndex(merge, key, open, r, job, k);
    if sel != [] {
      FoldOneMore(merge, Admit(open, sel[0]), sel[1..], job);
      assert (sel + [job])[1..] == sel[1..] + [job];
    } else {
      assert (sel + [job])[1..] == [];
    }
  }

  lemma SurvivesStep(merge: Merge, key: Key, open: bool, acc: seq<Job>, r: seq<Job>, sel: seq<Job>, k: string, job: Job)
    requires k != "" && Survives(merge, key, open, acc, r, sel, k)
    ensures var after := if KeyOf(key, job) == k then sel + [job] else sel;
      Survives(merge, key, open, acc, Step(merge, key, open, r, job), after, k)
  {
    if KeyOf(key, job) == k {
      if IndexOf(key, acc, k).Some? {
        SurvivesStored(merge, key, open, acc, r, sel, k, job);
      } else {
        SurvivesAdded(merge, key, open, acc, r, sel, k, job);
      }
    } else {
      StepIndex(merge, key, open, r, job, k);
    }
  }

  /**
    The survivor for a key: the job already there, or else the first of the batch as admitted, with every
    other batch job of that key folded into it first to last.
  */
  lemma {:induction false} Survivor(merge: Merge, key: Key, open: bool, acc: seq<Job>, jobs: seq<Job>, k: string)
    requires k != ""
    ensures Survives(merge, key, open, acc, MergeAll(merge, key, open, acc, jobs), WithKey(key, jobs, k), k)
    decreases |jobs|
  {
    if jobs != [] {
      var init := jobs[..|jobs| - 1];
      Survivor(merge, key, open, acc, init, k);
      SurvivesStep(merge, key, open, acc, MergeAll(merge, key, open, acc, init), WithKey(key, init, k), k,
          jobs[|jobs| - 1]);
    }
  }

  /** A position changes only if it is the last one with its key and that key comes in the batch. */
  lemma {:induction false} Untouched(merge: Merge, key: Key, open: bool, acc: seq<Job>, jobs: seq<Job>, p: nat)
    requires p < |acc|
    requires KeyOf(key, acc[p]) == "" || IndexOf(key, acc, KeyOf(key, acc[p])) != Some(p)
    ensures |acc| <= |MergeAll(merge, key, open, acc, jobs)| && MergeAll(merge, key, open, acc, jobs)[p] == acc[p]
    decreases |jobs|
  {
    if jobs != [] {
      var init, job := jobs[..|jobs| - 1], jobs[|jobs| - 1];
      Untouched(merge, key, open, acc, init, p);
      var before := MergeAll(merge, key, open, acc, init);
      StepKeepsKeys(merge, key, open, before, job);
      var k := KeyOf(key, acc[p]);
      if k != "" {
        Survivor(merge, key, open, acc, init, k);
      }
    }
  }

  lemma {:induction false} MergeAllKeepsKeys(merge: Merge, key: Key, open: bool, acc: seq<Job>, jobs: seq<Job>)
    ensures |acc| <= |MergeAll(merge, key, open, acc, jobs)|
    ensures SameKeys(key, acc, MergeAll(merge, key, open, acc, jobs)[..|acc|])
    decreases |jobs|
  {
    if jobs != [] {
      var init := jobs[..|jobs| - 1];
      MergeAllKeepsKeys(merge, key, open, acc, init);
      StepKeepsKeys(merge, key, open, MergeAll(merge, key, open, acc, init), jobs[|jobs| - 1]);
    }
  }

  /** Every appended job with a key is the last, hence the only one appended, with that key. */
  lemma {:induction false} AppendedIsLast(merge: Merge, key: Key, open: bool, acc: seq<Job>, jobs: seq<Job>, q: nat)
    requires |acc| <= q < |MergeAll(merge, key, open, acc, jobs)|
    requires KeyOf(key, MergeAll(merge, key, open, acc, jobs)[q]) != ""
    ensures var r := MergeAll(merge, key, open, acc, jobs); IndexOf(key, r, KeyOf(key, r[q])) == Some(q)
    decreases |jobs|
  {
    if jobs != [] {
      var init, job := jobs[..|jobs| - 1], jobs[|jobs| - 1];
      var before := MergeAll(merge, key, open, acc, init);
      StepKeepsKeys(merge, key, open, before, job);
      if q < |before| {
        AppendedIsLast(merge, key, open, acc, init, q);
        StepIndex(merge, key, open, before, job, KeyOf(key, before[q]));
      } else {
        StepIndex(merge, key, open, before, job, KeyOf(key, job));
      }
    }
  }

  /** A lookup table of last positions, for every key but the empty one. */
  ghost predicate Indexes(key: Key, index: map<string, nat>, jobs: seq<Job>) {
    forall k :: k != "" ==> IndexOf(key, jobs, k) == if k in index then Some(index[k]) else None
  }

  lemma {:induction false} IndexesAfterAppend(key: Key, index: map<string, nat>, jobs: seq<Job>, job: Job)
    requires Indexes(key, index, jobs)
    ensures Indexes(key, index[KeyOf(key, job) := |jobs|], jobs + [job])
  {
    forall k | k != ""
      ensures IndexOf(key, jobs + [job], k) == if KeyOf(key, job) == k then Some(|jobs|) else IndexOf(key, jobs, k)
    {
      IndexAfterAppend(key, jobs, job, k);
    }
  }

  lemma {:induction false} IndexesAfterMerge(merge: Merge, key: Key, index: map<string, nat>, jobs: seq<Job>, job: Job)
    requires Indexes(key, index, jobs) && KeyOf(key, job) != "" && KeyOf(key, job) in index
    ensures var i := index[KeyOf(key, job)];
            i < |jobs| && Indexes(key, index, jobs[i := merge(jobs[i], job)])
  {
    var k0 := KeyOf(key, job);
    assert IndexOf(key, jobs, k0) == Some(index[k0]);
    var i := index[k0];
    var merged := jobs[i := merge(jobs[i], job)];
    forall k | k != "" ensures IndexOf(key, merged, k) == IndexOf(key, jobs, k) {
      SameKeysSameIndex(key, jobs, merged, k);
    }
  }

  // ---- Folding the same batch again ----

  /** A field filled from offers while it is missing; an offer may itself count as missing on the target. */
  function FoldFill(missing: string -> bool, x: string, offers: seq<Option<string>>): string
    decreases |offers|
  {
    if offers == [] then x
    else
      var y, offer := FoldFill(missing, x, offers[..|offers| - 1]), offers[|offers| - 1];
      if missing(y) && offer.Some? then offer.value else y
  }

  lemma {:induction false} FillStays(missing: string -> bool, x: string, offers: seq<Option<string>>)
    requires !missing(x)
    ensures FoldFill(missing, x, offers) == x
    decreases |offers|
  {
    if offers != [] {
      FillStays(missing, x, offers[..|offers| - 1]);
    }
  }

  /** From two missing starts a fold ends the same, unless there was nothing to fill them with. */
  lemma {:induction false} FillForgetsStart(missing: string -> bool, x: string, y: string, offers: seq<Option<string>>)
    requires missing(x) && missing(y)
    ensures FoldFill(missing, x, offers) == FoldFill(missing, y, offers)
         || (FoldFill(missing, x, offers) == x && FoldFill(missing, y, offers) == y)
    decreases |offers|
  {
    if offers != [] {
      FillForgetsStart(missing, x, y, offers[..|offers| - 1]);
    }
  }

  lemma {:induction false} FillRepeats(missing: string -> bool, x: string, offers: seq<Option<string>>)
    ensures FoldFill(missing, FoldFill(missing, x, offers), offers) == FoldFill(missing, x, offers)
  {
    var y := FoldFill(missing, x, offers);
    if !missing(y) {
      FillStays(missing, y, offers);
    } else if !missing(x) {
      FillStays(missing, x, offers);
    } else {
      FillForgetsStart(missing, x, y, offers);
    }
  }

  lemma {:induction false} FillAfterFirst(missing: string -> bool, x: string, first: Option<string>,
      offers: seq<Option<string>>)
    ensures FoldFill(missing, x, [first] + offers) ==
            FoldFill(missing, if missing(x) && first.Some? then first.value else x, offers)
    decreases |offers|
  {
    if offers == [] {
      assert [first] + offers == [first];
      assert FoldFill(missing, x, [first][..0]) == x;
    } else {
      FillAfterFirst(missing, x, first, offers[..|offers| - 1]);
      assert ([first] + offers)[..|offers|] == [first] + offers[..|offers| - 1];
    }
  }

  /** The batch comes again with the value the field started from at its head: still nothing changes. */
  lemma {:induction false} FillRepeatsFromStart(missing: string -> bool, x: string, offers: seq<Option<string>>)
    ensures var own: Option<string> := if missing(x) then None else Some(x);
            FoldFill(missing, FoldFill(missing, x, offers), [own] + offers) == FoldFill(missing, x, offers)
  {
    var y := FoldFill(missing, x, offers);
    var own: Option<string> := if missing(x) then None else Some(x);
    FillAfterFirst(missing, y, own, offers);
    FillRepeats(missing, x, offers);
    if !missing(x) {
      FillStays(missing, x, offers);
    }
  }

  function NoWebsite(ch: Checks): string -> bool {
    website => WebsiteMissing(ch, website)
  }

  function NoSummary(ch: Checks, company: string): string -> bool {
    summary => SummaryMissing(ch, summary, company)
  }

  function WebsiteOffers(ch: Checks, jobs: seq<Job>): seq<Option<string>> {
    seq(|jobs|, i requires 0 <= i < |jobs| =>
      if WebsiteMissing(ch, jobs[i].companyWebsite) then None else Some(jobs[i].companyWebsite))
  }

  function SummaryOffers(ch: Checks, jobs: seq<Job>): seq<Option<string>> {
    seq(|jobs|, i requires 0 <= i < |jobs| =>
      if SummaryMissing(ch, jobs[i].companySummary, jobs[i].company) then None else Some(jobs[i].companySummary))
  }

  function IndustryOffers(jobs: seq<Job>): seq<Option<string>> {
    seq(|jobs|, i requires 0 <= i < |jobs| =>
      if Blank(jobs[i].companyIndustry) then None else Some(jobs[i].companyIndustry))
  }

  function CompensationOffers(jobs: seq<Job>): seq<Option<string>> {
    seq(|jobs|, i requires 0 <= i < |jobs| =>
      if CompensationMissing(jobs[i].compensation) then None else Some(jobs[i].compensation))
  }

  function DescriptionOffers(jobs: seq<Job>): seq<Option<string>> {
    seq(|jobs|, i requires 0 <= i < |jobs| => if Blank(jobs[i].description) then None else Some(jobs[i].description))
  }

  function MetadataOffers(jobs: seq<Job>): (r: seq<Option<Metadata>>)
    ensures |r| == |jobs| && forall i :: 0 <= i < |jobs| ==> r[i] == jobs[i].metadata
  {
    seq(|jobs|, i requires 0 <= i < |jobs| => jobs[i].metadata)
  }

  lemma {:induction false} FoldMetadataLast(start: Option<Metadata>, batch: seq<Option<Metadata>>)
    requires batch != []
    ensures FoldMetadata(start, batch) == MergeMetadata(FoldMetadata(start, batch[..|batch| - 1]), batch[|batch| - 1])
    decreases |batch|
  {
    if |batch| > 1 {
      FoldMetadataLast(MergeMetadata(start, batch[0]), batch[1..]);
      assert batch[1..][..|batch| - 2] == batch[..|batch| - 1][1..];
      assert batch[..|batch| - 1][0] == batch[0];
    }
  }

  /** A fold of jobs is its fields' folds. */
  function FoldByField(ch: Checks, start: Job, jobs: seq<Job>): Job {
    start.(
      companyWebsite := FoldFill(NoWebsite(ch), start.companyWebsite, WebsiteOffers(ch, jobs)),
      companySummary := FoldFill(NoSummary(ch, start.company), start.companySummary, SummaryOffers(ch, jobs)),
      companyIndustry := FoldFill(Blank, start.companyIndustry, IndustryOffers(jobs)),
      compensation := FoldFill(CompensationMissing, start.compensation, CompensationOffers(jobs)),
      description := FoldFill(Blank, start.description, DescriptionOffers(jobs)),
      metadata := FoldMetadata(start.metadata, MetadataOffers(jobs)))
  }

  lemma {:induction false} FillOneMore(missing: string -> bool, x: string, offers: seq<Option<string>>,
      offer: Option<string>)
    ensures var y := FoldFill(missing, x, offers);
            FoldFill(missing, x, offers + [offer]) == if missing(y) && offer.Some? then offer.value else y
  {
    assert (offers + [offer])[..|offers|] == offers;
  }

  lemma {:induction false} OffersOfSnoc(ch: Checks, init: seq<Job>, last: Job)
    ensures var jobs := init + [last];
      && WebsiteOffers(ch, jobs) == WebsiteOffers(ch, init) + [WebsiteOffers(ch, [last])[0]]
      && SummaryOffers(ch, jobs) == SummaryOffers(ch, init) + [SummaryOffers(ch, [last])[0]]
      && IndustryOffers(jobs) == IndustryOffers(init) + [IndustryOffers([last])[0]]
      && CompensationOffers(jobs) == CompensationOffers(init) + [CompensationOffers([last])[0]]
      && DescriptionOffers(jobs) == DescriptionOffers(init) + [DescriptionOffers([last])[0]]
      && MetadataOffers(jobs) == MetadataOffers(init) + [last.metadata]
  {
  }

  lemma {:induction false} CheckedOffersOfCons(ch: Checks, first: Job, later: seq<Job>)
    ensures WebsiteOffers(ch, [first] + later) == [WebsiteOffers(ch, [first])[0]] + WebsiteOffers(ch, later)
    ensures SummaryOffers(ch, [first] + later) == [SummaryOffers(ch, [first])[0]] + SummaryOffers(ch, later)
  {
  }

  lemma {:induction false} OffersOfCons(first: Job, later: seq<Job>)
    ensures var jobs := [first] + later;
      && IndustryOffers(jobs) == [IndustryOffers([first])[0]] + IndustryOffers(later)
      && CompensationOffers(jobs) == [CompensationOffers([first])[0]] + CompensationOffers(later)
      && DescriptionOffers(jobs) == [DescriptionOffers([first])[0]] + DescriptionOffers(later)
      && MetadataOffers(jobs) == [first.metadata] + MetadataOffers(later)
  {
  }

  lemma {:induction false} ByFieldOneMore(ch: Checks, start: Job, init: seq<Job>, last: Job)
    ensures FoldByField(ch, start, init + [last]) == MergeIdentity(ch, FoldByField(ch, start, init), last)
  {
    OffersOfSnoc(ch, init, last);
    FillOneMore(NoWebsite(ch), start.companyWebsite, WebsiteOffers(ch, init), WebsiteOffers(ch, [last])[0]);
    FillOneMore(NoSummary(ch, start.company), start.companySummary, SummaryOffers(ch, init),
        SummaryOffers(ch, [last])[0]);
    FillOneMore(Blank, start.companyIndustry, IndustryOffers(init), IndustryOffers([last])[0]);
    FillOneMore(CompensationMissing, start.compensation, CompensationOffers(init), CompensationOffers([last])[0]);
    FillOneMore(Blank, start.description, DescriptionOffers(init), DescriptionOffers([last])[0]);
    FoldMetadataLast(start.metadata, MetadataOffers(init) + [last.metadata]);
    assert (MetadataOffers(init) + [last.metadata])[..|init|] == MetadataOffers(init);
  }

  lemma {:induction false} EmptyFoldByField(ch: Checks, start: Job)
    ensures FoldByField(ch, start, []) == start
  {
  }

  lemma {:induction false} FoldByFieldStep(ch: Checks, start: Job, init: seq<Job>, last: Job, soFar: Job)
    requires Fold(IdentityMerge(ch), start, init) == soFar == FoldByField(ch, start, init)
    ensures Fold(IdentityMerge(ch), start, init + [last]) == FoldByField(ch, start, init + [last])
  {
    ByFieldOneMore(ch, start, init, last);
    FoldOneMore(IdentityMerge(ch), start, init, last);
  }

  lemma {:induction false} FoldIsByField(ch: Checks, start: Job, jobs: seq<Job>)
    ensures Fold(IdentityMerge(ch), start, jobs) == FoldByField(ch, start, jobs)
    decreases |jobs|
  {
    if jobs == [] {
      EmptyFoldByField(ch, start);
    } else {
      FoldIsByField(ch, start, jobs[..|jobs| - 1]);
      FoldByFieldStep(ch, start, jobs[..|jobs| - 1], jobs[|jobs| - 1],
          Fold(IdentityMerge(ch), start, jobs[..|jobs| - 1]));
      InitLast(jobs);
    }
  }

  /** When folding a batch into a job that was already there settles at once. */
  ghost predicate SettlesStored(start: Option<Metadata>, jobs: seq<Job>) {
    !(AnyMetadata(MetadataOffers(jobs)) && CountArrivesLate(CountOf(start), MetadataOffers(jobs)))
  }

  /** The same for a job first added from the batch, with `later` the rest of its key. */
  ghost predicate SettlesAdded(first: Option<Metadata>, later: seq<Job>) {
    if AnyMetadata(MetadataOffers(later)) then !CountArrivesLate(CountOf(first), MetadataOffers(later))
    else Normal(first)
  }

  lemma {:induction false} FoldRepeats(ch: Checks, start: Job, jobs: seq<Job>)
    ensures var once := Fold(IdentityMerge(ch), start, jobs);
      Fold(IdentityMerge(ch), once, jobs) == once <==> SettlesStored(start.metadata, jobs)
  {
    var once := Fold(IdentityMerge(ch), start, jobs);
    FoldIsByField(ch, start, jobs);
    FoldIsByField(ch, once, jobs);
    FillRepeats(NoWebsite(ch), start.companyWebsite, WebsiteOffers(ch, jobs));
    FillRepeats(NoSummary(ch, start.company), start.companySummary, SummaryOffers(ch, jobs));
    FillRepeats(Blank, start.companyIndustry, IndustryOffers(jobs));
    FillRepeats(CompensationMissing, start.compensation, CompensationOffers(jobs));
    FillRepeats(Blank, start.description, DescriptionOffers(jobs));
    MetadataRepeats(start.metadata, MetadataOffers(jobs));
  }

  lemma {:induction false} FoldRepeatsFromStart(ch: Checks, open: bool, first: Job, later: seq<Job>)
    ensures var once := Fold(IdentityMerge(ch), Admit(open, first), later);
            Fold(IdentityMerge(ch), once, [first] + later) == once <==> SettlesAdded(first.metadata, later)
  {
    var jobs, start := [first] + later, Admit(open, first);
    var once := Fold(IdentityMerge(ch), start, later);
    FoldIsByField(ch, start, later);
    FoldIsByField(ch, once, jobs);
    CheckedOffersOfCons(ch, first, later);
    OffersOfCons(first, later);
    FillRepeatsFromStart(NoWebsite(ch), start.companyWebsite, WebsiteOffers(ch, later));
    FillRepeatsFromStart(NoSummary(ch, start.company), start.companySummary, SummaryOffers(ch, later));
    FillRepeatsFromStart(Blank, start.companyIndustry, IndustryOffers(later));
    FillRepeatsFromStart(CompensationMissing, start.compensation, CompensationOffers(later));
    FillRepeatsFromStart(Blank, start.description, DescriptionOffers(later));
    AddedMetadataRepeats(first.metadata, MetadataOffers(later));
  }
}
