/** Same-company propagation in plain terms: whose identity is trusted, which job is the source, what a gap receives. */
module IdentityLaws {
  import opened Options
  import opened Text
  import opened Jobs
  import opened IdentityPropagation

  /** Evidence of a confidence for a value: final, and for that very value, case and surrounding space aside. */
  predicate Vouches(e: Option<Evidence>, value: string, confidence: string) {
    && e.Some? && !e.value.provisional
    && EqualFold(Trim(e.value.confidence), confidence)
    && !Blank(value) && EqualFold(Trim(e.value.value), Trim(value))
  }

  /** A job that may lend a fact, with evidence of this confidence. */
  predicate Lends(env: Env, job: Job, k: Fact, confidence: string) {
    && job.companyIdentity.Some?
    && var identity := job.companyIdentity.value;
       match k
       case Website =>
         && Vouches(identity.website, job.companyWebsite, confidence)
         && env.ch.looksLikeWebsite(job.companyWebsite)
         && !env.blocked(job.companyWebsite, identity.website.value.url)
       case Summary =>
         && Vouches(identity.summary, job.companySummary, confidence)
         && env.ch.looksLikeSummary(job.companySummary, job.company)
       case Industry =>
         && Vouches(identity.industry, job.companyIndustry, confidence)
         && env.ch.looksLikeIndustry(job.companyIndustry)
  }

  /** A job that wants a fact. */
  predicate Lacks(env: Env, job: Job, k: Fact) {
    match k
    case Website => Blank(job.companyWebsite) || !env.ch.looksLikeWebsite(job.companyWebsite)
    case Summary => Blank(job.companySummary) || !env.ch.looksLikeSummary(job.companySummary, job.company)
    case Industry =>
      || Blank(job.companyIndustry)
      || (job.companyIdentity.Some? && job.companyIdentity.value.industry.Some?
          && job.companyIdentity.value.industry.value.provisional)
  }

  function TextOf(job: Job, k: Fact): string {
    match k
    case Website => job.companyWebsite
    case Summary => job.companySummary
    case Industry => job.companyIndustry
  }

  function ProofOf(job: Job, k: Fact): Option<Evidence> {
    if job.companyIdentity.None? then None
    else
      match k
      case Website => job.companyIdentity.value.website
      case Summary => job.companyIdentity.value.summary
      case Industry => job.companyIdentity.value.industry
  }

  lemma Confidences()
    ensures Lower("high") == "high" && Lower("medium") == "medium"
  {
  }

  lemma RankIs(env: Env, job: Job, k: Fact)
    ensures RankOf(env, job, k) == 2 <==> Lends(env, job, k, "high")
    ensures RankOf(env, job, k) == 1 <==> Lends(env, job, k, "medium")
    ensures RankOf(env, job, k) <= 2
  {
    Confidences();
    match k case Website => case Summary => case Industry =>
  }

  ghost predicate SomeLender(env: Env, jobs: seq<Job>, key: string, k: Fact, confidence: string) {
    exists j :: 0 <= j < |jobs| && env.companyKey(jobs[j].company) == key && Lends(env, jobs[j], k, confidence)
  }

  /** The first job of a company that may lend a fact with this confidence. */
  ghost predicate FirstLender(env: Env, jobs: seq<Job>, key: string, k: Fact, confidence: string, s: nat) {
    && s < |jobs| && env.companyKey(jobs[s].company) == key && Lends(env, jobs[s], k, confidence)
    && forall j :: 0 <= j < s && env.companyKey(jobs[j].company) == key ==> !Lends(env, jobs[j], k, confidence)
  }

  /** The source is the first job with high evidence, without one the first with medium evidence, and else none. */
  lemma {:induction false} SourceIsFirstLender(env: Env, jobs: seq<Job>, key: string, k: Fact)
    ensures var b := Best(env, jobs, key, k);
      if SomeLender(env, jobs, key, k, "high") then b.Some? && FirstLender(env, jobs, key, k, "high", b.value)
      else if SomeLender(env, jobs, key, k, "medium") then b.Some? && FirstLender(env, jobs, key, k, "medium", b.value)
      else b.None?
  {
    BestIsFirstHighest(env, jobs, key, k);
    forall j | 0 <= j < |jobs|
      ensures RankOf(env, jobs[j], k) == 2 <==> Lends(env, jobs[j], k, "high")
      ensures RankOf(env, jobs[j], k) == 1 <==> Lends(env, jobs[j], k, "medium")
      ensures RankOf(env, jobs[j], k) <= 2
    {
      RankIs(env, jobs[j], k);
    }
  }

  lemma FirstLenderIsOne(env: Env, jobs: seq<Job>, key: string, k: Fact, confidence: string, s: nat, t: nat)
    requires FirstLender(env, jobs, key, k, confidence, s) && FirstLender(env, jobs, key, k, confidence, t)
    ensures s == t
  {
  }

  const COPY_REASON := "Copied from another same-company job with trusted identity evidence"

  /** The evidence a gap receives: of the lender's confidence and URL, marked as a copy, and never provisional. */
  function CopyProof(value: string, lent: Evidence): Evidence {
    Evidence(Trim(value), "same_company_identity_copy", Trim(lent.url), Trim(lent.confidence), false,
      Trim(if Blank(lent.source) then COPY_REASON + "." else COPY_REASON + " from " + Trim(lent.source) + "."))
  }

  /** What one copy leaves. */
  lemma CopyLeaves(env: Env, job: Job, k: Fact, pick: Pick, lent: Evidence)
    requires Copies(env, job, k, pick) && !Blank(pick.value) && pick.evidence == Some(lent)
    ensures ValueOf(CopyFact(env, job, k, pick), k) == pick.value
    ensures EvidenceOf(CopyFact(env, job, k, pick), k) == Some(CopyProof(pick.value, lent))
  {
    TrimmedIsFixed("same_company_identity_copy");
    match k case Website => case Summary => case Industry =>
  }

  /**
    After a run: a job that lacked a fact its company has a source for holds the source's text, with the evidence of a
    copy; every other job holds the text and evidence it had.
  */
  lemma {:induction false} GapReceives(env: Env, jobs: seq<Job>, i: nat, k: Fact, confidence: string, s: nat)
    requires i < |jobs| && env.companyKey(jobs[i].company) != ""
    requires FirstLender(env, jobs, env.companyKey(jobs[i].company), k, confidence, s)
    requires confidence == "high" ||
             (confidence == "medium" && !SomeLender(env, jobs, env.companyKey(jobs[i].company), k, "high"))
    ensures var job, r, lender := jobs[i], Propagated(env, jobs)[i], jobs[s];
      if Lacks(env, job, k)
      then
        && TextOf(r, k) == TextOf(lender, k)
        && ProofOf(r, k) == Some(CopyProof(TextOf(lender, k), ProofOf(lender, k).value))
      else TextOf(r, k) == TextOf(job, k) && ProofOf(r, k) == ProofOf(job, k)
  {
    var key := env.companyKey(jobs[i].company);
    assert SomeLender(env, jobs, key, k, confidence);
    SourceIsFirstLender(env, jobs, key, k);
    var b := Best(env, jobs, key, k).value;
    FirstLenderIsOne(env, jobs, key, k, confidence, s, b);
    ReceivesFrom(env, jobs, i, k, b);
  }

  lemma {:induction false} ReceivesFrom(env: Env, jobs: seq<Job>, i: nat, k: Fact, b: nat)
    requires i < |jobs| && env.companyKey(jobs[i].company) != ""
    requires Best(env, jobs, env.companyKey(jobs[i].company), k) == Some(b) && b < |jobs|
    requires Lends(env, jobs[b], k, "high") || Lends(env, jobs[b], k, "medium")
    ensures var job, r, lender := jobs[i], Propagated(env, jobs)[i], jobs[b];
      if Lacks(env, job, k)
      then
        && TextOf(r, k) == TextOf(lender, k)
        && ProofOf(r, k) == Some(CopyProof(TextOf(lender, k), ProofOf(lender, k).value))
      else TextOf(r, k) == TextOf(job, k) && ProofOf(r, k) == ProofOf(job, k)
  {
    var key := env.companyKey(jobs[i].company);
    var pick := Chosen(env, jobs, key, k);
    FactAfter(env, jobs, jobs[i], k);
    LenderIsPicked(env, jobs[b], k);
    SamePlain(jobs[i], k);
    SamePlain(Propagated(env, jobs)[i], k);
    LacksIff(env, jobs[i], k);
    ChosenIsUsable(env, jobs, key, k);
    if Copies(env, jobs[i], k, pick) {
      CopyLeaves(env, jobs[i], k, pick, ProofOf(jobs[b], k).value);
    }
  }

  lemma LenderIsPicked(env: Env, lender: Job, k: Fact)
    requires Lends(env, lender, k, "high") || Lends(env, lender, k, "medium")
    ensures Offer(env, lender, k) == Pick(TextOf(lender, k), ProofOf(lender, k), RankOf(env, lender, k))
    ensures ProofOf(lender, k).Some?
  {
    RankIs(env, lender, k);
    SamePlain(lender, k);
    match k case Website => case Summary => case Industry =>
  }

  lemma SamePlain(job: Job, k: Fact)
    ensures TextOf(job, k) == ValueOf(job, k) && ProofOf(job, k) == EvidenceOf(job, k)
  {
    match k case Website => case Summary => case Industry =>
  }

  lemma LacksIff(env: Env, job: Job, k: Fact)
    ensures Lacks(env, job, k) <==> Missing(env, job, k)
  {
    match k case Website => case Summary => case Industry =>
  }

  /** A company without a source, or a job without a company key, is left as it is. */
  lemma {:induction false} NoSourceNoChange(env: Env, jobs: seq<Job>, i: nat, k: Fact)
    requires i < |jobs|
    requires var key := env.companyKey(jobs[i].company);
      key == "" || (!SomeLender(env, jobs, key, k, "high") && !SomeLender(env, jobs, key, k, "medium"))
    ensures TextOf(Propagated(env, jobs)[i], k) == TextOf(jobs[i], k)
    ensures ProofOf(Propagated(env, jobs)[i], k) == ProofOf(jobs[i], k)
  {
    FactAfter(env, jobs, jobs[i], k);
    SourceIsFirstLender(env, jobs, env.companyKey(jobs[i].company), k);
    SamePlain(jobs[i], k);
    SamePlain(Propagated(env, jobs)[i], k);
  }

  /** A job wants a fact and its company has a source for it. */
  ghost predicate Fillable(env: Env, jobs: seq<Job>, job: Job, k: Fact) {
    && Lacks(env, job, k)
    && env.companyKey(job.company) != ""
    && (SomeLender(env, jobs, env.companyKey(job.company), k, "high")
        || SomeLender(env, jobs, env.companyKey(job.company), k, "medium"))
  }

  lemma CopiesIff(env: Env, jobs: seq<Job>, job: Job, k: Fact)
    ensures Copies(env, job, k, ChosenFor(env, jobs, job, k)) <==> Fillable(env, jobs, job, k)
  {
    var key := env.companyKey(job.company);
    LacksIff(env, job, k);
    SourceIsFirstLender(env, jobs, key, k);
    if key != "" && Best(env, jobs, key, k).Some? {
      ChosenIsUsable(env, jobs, key, k);
    }
  }

  /** The number a run reports for a job is that of its gaps the company has a source for. */
  lemma {:induction false} CopiedAreGaps(env: Env, jobs: seq<Job>, job: Job)
    ensures CopiesInto(env, jobs, job) ==
      (if Fillable(env, jobs, job, Website) then 1 else 0)
      + (if Fillable(env, jobs, job, Summary) then 1 else 0)
      + (if Fillable(env, jobs, job, Industry) then 1 else 0)
  {
    CopiesIff(env, jobs, job, Website);
    CopiesIff(env, jobs, job, Summary);
    CopiesIff(env, jobs, job, Industry);
  }

  lemma CopyTouches(env: Env, job: Job, k: Fact, pick: Pick)
    ensures var r := CopyFact(env, job, k, pick);
      r == job.(companyWebsite := r.companyWebsite, companySummary := r.companySummary,
                companyIndustry := r.companyIndustry, companyIdentity := r.companyIdentity)
  {
    match k case Website => case Summary => case Industry =>
  }

  /** Propagation touches nothing but the three facts and their evidence. */
  lemma {:induction false} OnlyIdentityChanges(env: Env, jobs: seq<Job>, i: nat)
    requires i < |jobs|
    ensures var r := Propagated(env, jobs)[i];
      r == jobs[i].(companyWebsite := r.companyWebsite, companySummary := r.companySummary,
                    companyIndustry := r.companyIndustry, companyIdentity := r.companyIdentity)
  {
    var job := jobs[i];
    var one := CopyFact(env, job, Website, ChosenFor(env, jobs, job, Website));
    var two := CopyFact(env, one, Summary, ChosenFor(env, jobs, job, Summary));
    CopyTouches(env, job, Website, ChosenFor(env, jobs, job, Website));
    CopyTouches(env, one, Summary, ChosenFor(env, jobs, job, Summary));
    CopyTouches(env, two, Industry, ChosenFor(env, jobs, job, Industry));
  }
}
