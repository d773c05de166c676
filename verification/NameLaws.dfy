/** Which jobs are one job to MergeJobs and the review plan: those whose trimmed company and title agree up to case. */
module NameLaws {
  import opened Options
  import opened Text
  import opened Jobs
  import opened KeyedMerge
  import opened MergePlan

  predicate SameNames(a: Job, b: Job) {
    EqualFold(Trim(a.company), Trim(b.company)) && EqualFold(Trim(a.title), Trim(b.title))
  }

  lemma LowerJoined(a: string, b: string)
    ensures Lower(a + "|" + b) == Lower(a) + ("|" + Lower(b))
  {
  }

  lemma NoBar(company: string)
    requires '|' !in company
    ensures Without(Lower(Trim(company)), '|')
  {
    TrimIsPart(company);
    var trimmed := Trim(company);
    forall i | 0 <= i < |trimmed| ensures Lower(trimmed)[i] != '|' {
      assert trimmed[i] in company;
    }
  }

  /**
    Two jobs have one key exactly when company and title agree, space around them and case aside, whatever their URLs.
  */
  lemma {:induction false} OneKeyIff(a: Job, b: Job)
    requires '|' !in a.company && '|' !in b.company
    ensures KeyOf(BY_NAME, a) == KeyOf(BY_NAME, b) <==>
      EqualFold(Trim(a.company), Trim(b.company)) && EqualFold(Trim(a.title), Trim(b.title))
  {
    LowerJoined(Trim(a.company), Trim(a.title));
    LowerJoined(Trim(b.company), Trim(b.title));
    NoBar(a.company);
    NoBar(b.company);
    var t, u := Lower(Trim(a.title)), Lower(Trim(b.title));
    if KeyOf(BY_NAME, a) == KeyOf(BY_NAME, b) {
      CutAtStop(Lower(Trim(a.company)), "|" + t, Lower(Trim(b.company)), "|" + u, '|');
      assert ("|" + t)[1..] == t && ("|" + u)[1..] == u;
    }
  }

  predicate NoBars(jobs: seq<Job>) {
    forall i :: 0 <= i < |jobs| ==> '|' !in jobs[i].company
  }

  /** Whether some job of a list has the names of this one. */
  predicate Named(jobs: seq<Job>, job: Job) {
    exists i :: 0 <= i < |jobs| && SameNames(jobs[i], job)
  }

  lemma NamedIff(jobs: seq<Job>, job: Job)
    requires NoBars(jobs) && '|' !in job.company
    ensures IndexOf(BY_NAME, jobs, KeyOf(BY_NAME, job)).Some? <==> Named(jobs, job)
  {
    var i := IndexOf(BY_NAME, jobs, KeyOf(BY_NAME, job));
    if i.Some? {
      OneKeyIff(jobs[i.value], job);
    } else if n :| 0 <= n < |jobs| && SameNames(jobs[n], job) {
      OneKeyIff(jobs[n], job);
    }
  }

  /** The job as it is added. */
  function AsAdded(job: Job): Job {
    job.(status := if job.status in {"", "New"} then "Unopened" else job.status)
  }

  lemma MergedKnowsNames(merge: Merge, existing: seq<Job>, newJobs: seq<Job>, job: Job)
    requires NoBars(existing + newJobs) && '|' !in job.company
    ensures IndexOf(BY_NAME, MergeAll(merge, BY_NAME, true, existing, newJobs), KeyOf(BY_NAME, job)).Some?
       <==> Named(existing + newJobs, job)
  {
    var k := KeyOf(BY_NAME, job);
    NamesAreNeverEmpty();
    MergeAndPlanAgree(merge, BY_NAME, existing, newJobs);
    SameKeysSameIndex(BY_NAME, MergeAll(merge, BY_NAME, true, existing, newJobs),
      existing + PlanAdded(BY_NAME, existing, newJobs), k);
    PlanKnowsKeys(BY_NAME, existing, newJobs, k);
    NamedIff(existing + newJobs, job);
  }

  /**
    One more batch job. If no saved job and no earlier one of the batch has its company and title, both add it, opened.
    If one has, MergeJobs folds it into a job with those names and the plan files it as a duplicate.
  */
  lemma {:induction false} AddedIffNewNames(ch: Checks, existing: seq<Job>, newJobs: seq<Job>, n: nat)
    requires n < |newJobs| && NoBars(existing + newJobs)
    ensures var job, before, earlier := newJobs[n], newJobs[..n], existing + newJobs[..n];
      var merged := MergeAll(IdentityMerge(ch), BY_NAME, true, existing, before);
      var next := MergeAll(IdentityMerge(ch), BY_NAME, true, existing, newJobs[..n + 1]);
      var added, duplicates := PlanAdded(BY_NAME, existing, before), PlanDuplicates(BY_NAME, existing, before);
      if exists i :: 0 <= i < |earlier| && SameNames(earlier[i], job) then
        && (exists q :: 0 <= q < |merged| && SameNames(merged[q], job) &&
              next == merged[q := MergeIdentity(ch, merged[q], job)])
        && PlanAdded(BY_NAME, existing, newJobs[..n + 1]) == added
        && PlanDuplicates(BY_NAME, existing, newJobs[..n + 1]) == duplicates + [job]
      else
        && next == merged + [job.(status := if job.status in {"", "New"} then "Unopened" else job.status)]
        && PlanAdded(BY_NAME, existing, newJobs[..n + 1])
           == added + [job.(status := if job.status in {"", "New"} then "Unopened" else job.status)]
        && PlanDuplicates(BY_NAME, existing, newJobs[..n + 1]) == duplicates
  {
    var job, before := newJobs[n], newJobs[..n];
    assert newJobs[..n + 1][..n] == before && newJobs[..n + 1][n] == job;
    assert NoBars(existing + before) by {
      assert forall i :: 0 <= i < |existing + before| ==> (existing + before)[i] == (existing + newJobs)[i];
    }
    assert '|' !in job.company by { assert (existing + newJobs)[|existing| + n] == job; }
    NamesAreNeverEmpty();
    MergedStep(ch, existing, before, job, newJobs[..n + 1]);
    PlanStep(existing, before, job, newJobs[..n + 1]);
    assert Named(existing + before, job) <==>
        exists i :: 0 <= i < |existing + before| && SameNames((existing + before)[i], job);
  }

  lemma {:induction false} MergedStep(ch: Checks, existing: seq<Job>, before: seq<Job>, job: Job, after: seq<Job>)
    requires NoBars(existing + before) && '|' !in job.company && after == before + [job]
    ensures var merged := MergeAll(IdentityMerge(ch), BY_NAME, true, existing, before);
      var next := MergeAll(IdentityMerge(ch), BY_NAME, true, existing, after);
      if Named(existing + before, job) then
        exists q :: 0 <= q < |merged| && SameNames(merged[q], job) &&
          next == merged[q := MergeIdentity(ch, merged[q], job)]
      else next == merged + [AsAdded(job)]
  {
    var merge := IdentityMerge(ch);
    var merged := MergeAll(merge, BY_NAME, true, existing, before);
    MergedKnowsNames(merge, existing, before, job);
    NamesAreNeverEmpty();
    assert after[..|after| - 1] == before;
    var k := KeyOf(BY_NAME, job);
    assert MergeAll(merge, BY_NAME, true, existing, after) == Step(merge, BY_NAME, true, merged, job);
    var i := IndexOf(BY_NAME, merged, k);
    if i.Some? {
      MergedHasNoBars(merge, existing, before, i.value);
      OneKeyIff(merged[i.value], job);
    }
  }

  /** Merging and adding leave every company as one of the input. */
  lemma {:induction false} MergedHasNoBars(merge: Merge, existing: seq<Job>, before: seq<Job>, q: nat)
    requires NoBars(existing + before) && q < |MergeAll(merge, BY_NAME, true, existing, before)|
    ensures '|' !in MergeAll(merge, BY_NAME, true, existing, before)[q].company
    decreases |before|
  {
    if before == [] {
      assert (existing + before)[q] == existing[q];
    } else {
      var init, last := before[..|before| - 1], before[|before| - 1];
      assert NoBars(existing + init) by {
        assert forall i :: 0 <= i < |existing + init| ==> (existing + init)[i] == (existing + before)[i];
      }
      assert (existing + before)[|existing| + |before| - 1] == last;
      var merged := MergeAll(merge, BY_NAME, true, existing, init);
      if q < |merged| {
        MergedHasNoBars(merge, existing, init, q);
      }
    }
  }

  lemma {:induction false} PlanStep(existing: seq<Job>, before: seq<Job>, job: Job, after: seq<Job>)
    requires NoBars(existing + before) && '|' !in job.company && after == before + [job]
    ensures PlanAdded(BY_NAME, existing, after)
         == PlanAdded(BY_NAME, existing, before) + if Named(existing + before, job) then [] else [AsAdded(job)]
    ensures PlanDuplicates(BY_NAME, existing, after)
         == PlanDuplicates(BY_NAME, existing, before) + if Named(existing + before, job) then [job] else []
  {
    assert after[..|after| - 1] == before;
    NamedIff(existing + before, job);
    PlanKnowsKeys(BY_NAME, existing, before, KeyOf(BY_NAME, job));
  }

  /** How many batch jobs have names that no saved and no earlier batch job has. */
  function NewNames(existing: seq<Job>, newJobs: seq<Job>): nat
    decreases |newJobs|
  {
    if newJobs == [] then 0
    else
      var init, last := newJobs[..|newJobs| - 1], newJobs[|newJobs| - 1];
      NewNames(existing, init) + if Named(existing + init, last) then 0 else 1
  }

  /** Both add exactly as many jobs as the batch has new names. */
  lemma {:induction false} AddedAreNewNames(ch: Checks, existing: seq<Job>, newJobs: seq<Job>)
    requires NoBars(existing + newJobs)
    ensures |MergeAll(IdentityMerge(ch), BY_NAME, true, existing, newJobs)| == |existing| + NewNames(existing, newJobs)
    ensures |PlanAdded(BY_NAME, existing, newJobs)| == NewNames(existing, newJobs)
    decreases |newJobs|
  {
    if newJobs != [] {
      var init, last := newJobs[..|newJobs| - 1], newJobs[|newJobs| - 1];
      assert NoBars(existing + init) by {
        assert forall i :: 0 <= i < |existing + init| ==> (existing + init)[i] == (existing + newJobs)[i];
      }
      assert (existing + newJobs)[|existing| + |init|] == last;
      assert newJobs == init + [last];
      AddedAreNewNames(ch, existing, init);
      MergedStep(ch, existing, init, last, newJobs);
      PlanStep(existing, init, last, newJobs);
    }
  }
}
