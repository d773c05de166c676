/** What LLM filtering does to each job, said of the model's answers and the fields of the job that comes out. */
module LlmOutcomes {
  import opened Options
  import opened Text
  import opened Jobs
  import opened Seqs
  import opened LlmBatches
  import opened LlmFilter

  // ---- The verdicts applied to one job ----

  /** The verdicts of a log that are about one job, in order. */
  function VerdictsOn(log: seq<Entry>, index: nat): seq<Verdict> {
    if log == [] then []
    else
      var init, last := VerdictsOn(log[..|log| - 1], index), log[|log| - 1];
      if last.index == index then init + [last.verdict] else init
  }

  predicate AllAnswered(results: map<nat, Evaluation>, batch: Batch, n: nat)
    requires n <= |batch|
  {
    forall h :: 0 <= h < n ==> batch[h] in results
  }

  /**
    What the answers mean for position `j` of batch `k`: the single answer for a lone job or a failed batch, the batch's
    result when it has one for every job, and otherwise the single answer, after the batch's result if nothing before
    the job was missing.
  */
  function AnswersFor(a: Answers, k: nat, batch: Batch, j: nat): seq<Verdict>
    requires j < |batch|
  {
    if |batch| == 1 || a.batch(k).BatchFailed? then [a.single(k, j)]
    else
      var results := a.batch(k).results;
      if AllAnswered(results, batch, |batch|) then [Judged(results[batch[j]])]
      else if AllAnswered(results, batch, j + 1) then [Judged(results[batch[j]]), a.single(k, j)]
      else [a.single(k, j)]
  }

  lemma {:induction false} VerdictsOnConcat(a: seq<Entry>, b: seq<Entry>, index: nat)
    ensures VerdictsOn(a + b, index) == VerdictsOn(a, index) + VerdictsOn(b, index)
    decreases |b|
  {
    if b == [] {
      assert a + b == a;
    } else {
      VerdictsOnConcat(a, b[..|b| - 1], index);
      assert (a + b)[..|a + b| - 1] == a + b[..|b| - 1];
    }
  }

  lemma {:induction false} NotAbout(log: seq<Entry>, index: nat)
    requires forall n :: 0 <= n < |log| ==> log[n].index != index
    ensures VerdictsOn(log, index) == []
  {
    if log != [] {
      NotAbout(log[..|log| - 1], index);
    }
  }

  /** A log with one entry about a job. */
  lemma {:induction false} OneAbout(log: seq<Entry>, n: nat)
    requires n < |log| && forall m :: 0 <= m < |log| && m != n ==> log[m].index != log[n].index
    ensures VerdictsOn(log, log[n].index) == [log[n].verdict]
  {
    var index := log[n].index;
    var after := log[n + 1..];
    assert log == log[..n] + [log[n]] + after;
    VerdictsOnConcat(log[..n] + [log[n]], after, index);
    VerdictsOnConcat(log[..n], [log[n]], index);
    NotAbout(log[..n], index);
    forall m | 0 <= m < |after| ensures after[m].index != index {
      assert after[m] == log[n + 1 + m];
    }
    NotAbout(after, index);
    OneEntry(log[n]);
  }

  lemma OneEntry(e: Entry)
    ensures VerdictsOn([e], e.index) == [e.verdict]
  {
    assert [e][..0] == [];
  }

  predicate NoRepeats(batch: Batch) {
    forall i, j :: 0 <= i < j < |batch| ==> batch[i] != batch[j]
  }

  lemma SinglesOn(a: Answers, k: nat, batch: Batch, j: nat)
    requires j < |batch| && NoRepeats(batch)
    ensures VerdictsOn(Singles(a, k, batch), batch[j]) == [a.single(k, j)]
  {
    OneAbout(Singles(a, k, batch), j);
  }

  lemma ResultsOn(results: map<nat, Evaluation>, batch: Batch, n: nat, j: nat)
    requires n <= |batch| && j < |batch| && NoRepeats(batch) && AllAnswered(results, batch, n)
    ensures VerdictsOn(BatchEntries(results, batch[..n]), batch[j]) ==
      if j < n then [Judged(results[batch[j]])] else []
  {
    var entries := BatchEntries(results, batch[..n]);
    if j < n {
      OneAbout(entries, j);
    } else {
      NotAbout(entries, batch[j]);
    }
  }

  lemma CoveredIsFirstGap(results: map<nat, Evaluation>, batch: Batch, j: nat)
    requires j < |batch|
    ensures Covered(results, batch) == |batch| <==> AllAnswered(results, batch, |batch|)
    ensures j < Covered(results, batch) <==> AllAnswered(results, batch, j + 1)
  {
  }

  lemma {:induction false} BatchVerdicts(a: Answers, k: nat, batch: Batch, j: nat)
    requires j < |batch| && NoRepeats(batch)
    ensures VerdictsOn(BatchLog(a, k, batch), batch[j]) == AnswersFor(a, k, batch, j)
  {
    SinglesOn(a, k, batch, j);
    if |batch| != 1 && a.batch(k).BatchResults? {
      var results := a.batch(k).results;
      var n := Covered(results, batch);
      CoveredIsFirstGap(results, batch, j);
      ResultsOn(results, batch, n, j);
      VerdictsOnConcat(BatchEntries(results, batch[..n]), if n == |batch| then [] else Singles(a, k, batch), batch[j]);
    }
  }

  lemma BatchIsAboutItsJobs(a: Answers, k: nat, batch: Batch, index: nat)
    requires index !in batch
    ensures VerdictsOn(BatchLog(a, k, batch), index) == []
  {
    var log := BatchLog(a, k, batch);
    forall n | 0 <= n < |log| ensures log[n].index != index {
      assert log[n].index in batch;
    }
    NotAbout(log, index);
  }

  /** No index is in two places. */
  ghost predicate Apart(batches: seq<Batch>) {
    && (forall k :: 0 <= k < |batches| ==> NoRepeats(batches[k]))
    && (forall k, h, x :: 0 <= k < h < |batches| && x in batches[k] ==> x !in batches[h])
  }

  lemma HeadIsApart(head: Batch, rest: seq<Batch>, x: nat)
    requires multiset(head + Flatten(rest))[x] <= 1 && x in head
    ensures x !in Flatten(rest)
  {
  }

  lemma NoCountTwice(head: Batch, rest: Batch)
    requires forall x :: multiset(head + rest)[x] <= 1
    ensures NoRepeats(head)
  {
    forall i, j | 0 <= i < j < |head| ensures head[i] != head[j] {
      assert multiset(head + rest)[head[i]] == multiset(head)[head[i]] + multiset(rest)[head[i]];
      if head[i] == head[j] {
        CountTwice(head, i, j);
      }
    }
  }

  lemma HeadIsElsewhereNot(batches: seq<Batch>, h: nat, x: nat)
    requires batches != [] && 0 < h < |batches| && x in batches[0]
    requires multiset(batches[0] + Flatten(batches[1..]))[x] <= 1
    ensures x !in batches[h]
  {
    HeadIsApart(batches[0], batches[1..], x);
    if x in batches[h] {
      var j :| 0 <= j < |batches[h]| && batches[h][j] == x;
      InFlatten(batches[1..], h - 1, j);
    }
  }

  lemma OnceInParts(batches: seq<Batch>)
    requires batches != [] && forall x :: multiset(Flatten(batches))[x] <= 1
    ensures forall x :: multiset(batches[0] + Flatten(batches[1..]))[x] <= 1
    ensures forall x :: multiset(Flatten(batches[1..]))[x] <= 1
  {
    var head, rest := batches[0], Flatten(batches[1..]);
    assert Flatten(batches) == head + rest;
    forall x ensures multiset(rest)[x] <= 1 {
      assert multiset(head + rest)[x] == multiset(head)[x] + multiset(rest)[x];
    }
  }

  lemma {:induction false} ApartWhenOnce(batches: seq<Batch>)
    requires forall x :: multiset(Flatten(batches))[x] <= 1
    ensures Apart(batches)
  {
    if batches != [] {
      OnceInParts(batches);
      ApartWhenOnce(batches[1..]);
      NoCountTwice(batches[0], Flatten(batches[1..]));
      forall k, h, x | 0 <= k < h < |batches| && x in batches[k] ensures x !in batches[h] {
        if k == 0 {
          HeadIsElsewhereNot(batches, h, x);
        } else {
          assert x in batches[1..][k - 1] && batches[h] == batches[1..][h - 1];
        }
      }
    }
  }

  lemma {:induction false} OnceInIncreasing(indexes: Batch, x: nat)
    requires forall i, j :: 0 <= i < j < |indexes| ==> indexes[i] < indexes[j]
    ensures multiset(indexes)[x] <= 1
  {
    if indexes != [] {
      var init, last := indexes[..|indexes| - 1], indexes[|indexes| - 1];
      assert indexes == init + [last];
      OnceInIncreasing(init, x);
      assert last !in init;
    }
  }

  lemma FinalBatchesAreApart(size: PromptSize, jobs: seq<Job>, indexes: Batch)
    requires forall i, j :: 0 <= i < j < |indexes| ==> indexes[i] < indexes[j]
    ensures Apart(FinalBatches(size, jobs, indexes))
  {
    BatchesPartition(size, jobs, indexes);
    var flat := Flatten(FinalBatches(size, jobs, indexes));
    forall x ensures multiset(flat)[x] <= 1 {
      OnceInIncreasing(indexes, x);
      assert multiset(flat) == Bag(flat) == Bag(indexes) == multiset(indexes);
    }
    ApartWhenOnce(FinalBatches(size, jobs, indexes));
  }

  lemma {:induction false} NotInRun(a: Answers, batches: seq<Batch>, index: nat)
    requires forall k :: 0 <= k < |batches| ==> index !in batches[k]
    ensures VerdictsOn(RunLog(a, batches), index) == []
    decreases |batches|
  {
    if batches != [] {
      var m := |batches| - 1;
      NotInRun(a, batches[..m], index);
      BatchIsAboutItsJobs(a, m, batches[m], index);
      VerdictsOnConcat(RunLog(a, batches[..m]), BatchLog(a, m, batches[m]), index);
    }
  }

  lemma RunVerdictsNext(a: Answers, batches: seq<Batch>, index: nat)
    requires batches != []
    ensures var m := |batches| - 1;
      VerdictsOn(RunLog(a, batches), index)
        == VerdictsOn(RunLog(a, batches[..m]), index) + VerdictsOn(BatchLog(a, m, batches[m]), index)
  {
    var m := |batches| - 1;
    VerdictsOnConcat(RunLog(a, batches[..m]), BatchLog(a, m, batches[m]), index);
  }

  lemma LastBatchVerdicts(a: Answers, batches: seq<Batch>, j: nat)
    requires Apart(batches) && batches != [] && j < |batches[|batches| - 1]|
    ensures var m := |batches| - 1;
      VerdictsOn(RunLog(a, batches), batches[m][j]) == AnswersFor(a, m, batches[m], j)
  {
    var m := |batches| - 1;
    var batch, index := batches[m], batches[m][j];
    RunVerdictsNext(a, batches, index);
    forall k | 0 <= k < m ensures index !in batches[..m][k] {
      assert index in batch && batches[..m][k] == batches[k];
    }
    NotInRun(a, batches[..m], index);
    BatchVerdicts(a, m, batch, j);
  }

  lemma ApartBefore(batches: seq<Batch>)
    requires Apart(batches) && batches != []
    ensures Apart(batches[..|batches| - 1])
  {
  }

  lemma EarlierVerdicts(a: Answers, batches: seq<Batch>, index: nat)
    requires batches != [] && index !in batches[|batches| - 1]
    ensures VerdictsOn(RunLog(a, batches), index) == VerdictsOn(RunLog(a, batches[..|batches| - 1]), index)
  {
    RunVerdictsNext(a, batches, index);
    BatchIsAboutItsJobs(a, |batches| - 1, batches[|batches| - 1], index);
  }

  /** The verdicts applied to a job in a run are those its place in the batches and the answers give it. */
  lemma {:induction false} VerdictsApplied(a: Answers, batches: seq<Batch>, k: nat, j: nat)
    requires Apart(batches) && k < |batches| && j < |batches[k]|
    ensures VerdictsOn(RunLog(a, batches), batches[k][j]) == AnswersFor(a, k, batches[k], j)
    decreases |batches|
  {
    if k < |batches| - 1 {
      assert batches[k][j] in batches[k];
      EarlierVerdicts(a, batches, batches[k][j]);
      ApartBefore(batches);
      VerdictsApplied(a, batches[..|batches| - 1], k, j);
    } else {
      LastBatchVerdicts(a, batches, j);
    }
  }

  // ---- What becomes of a job ----

  /** The last keeping verdict of a list, if any. */
  predicate LastKeeping(vs: seq<Verdict>, t: int) {
    && 0 <= t < |vs| && (vs[t].NoResult? || vs[t].evaluation.matches)
    && forall s :: t < s < |vs| ==> vs[s].Judged? && !vs[s].evaluation.matches
  }

  lemma {:induction false} LastKeepInVerdicts(log: seq<Entry>, index: nat)
    ensures var vs := VerdictsOn(log, index);
      if LastKeep(log, index).Some? then exists t :: LastKeeping(vs, t) && vs[t] == LastKeep(log, index).value
      else forall s :: 0 <= s < |vs| ==> vs[s].Judged? && !vs[s].evaluation.matches
  {
    if log != [] {
      var init, last := log[..|log| - 1], log[|log| - 1];
      LastKeepInVerdicts(init, index);
      var vs, before := VerdictsOn(log, index), VerdictsOn(init, index);
      if last.index == index && Keeping(last.verdict) {
        assert LastKeeping(vs, |vs| - 1);
      } else if LastKeep(init, index).Some? {
        var t :| LastKeeping(before, t) && before[t] == LastKeep(init, index).value;
        assert LastKeeping(vs, t) && vs[t] == before[t];
      }
    }
  }

  lemma LastKeepingIsOne(vs: seq<Verdict>, t: int, s: int)
    requires LastKeeping(vs, t) && LastKeeping(vs, s)
    ensures t == s
  {
  }

  /**
    A job with a keeping verdict: the non-blank texts and the reasons of an evaluation, and nothing of a missing one.
  */
  predicate Carries(r: Job, job: Job, v: Verdict) {
    if v.NoResult? then r == job
    else
      var e := v.evaluation;
      && r.compensation == (if Blank(e.compensation) then job.compensation else Trim(e.compensation))
      && r.remote == (if Blank(e.remote) then job.remote else Trim(e.remote))
      && r.whyMatches == (if e.why == [] then job.whyMatches else e.why)
      && r == job.(compensation := r.compensation, remote := r.remote, whyMatches := r.whyMatches)
  }

  /** The order of the selected indexes, as selection gives them. */
  predicate Selection(jobs: seq<Job>, indexes: Batch) {
    && (forall i, j :: 0 <= i < j < |indexes| ==> indexes[i] < indexes[j])
    && (forall i :: i in indexes ==> i < |jobs|)
  }

  /** The input positions of the jobs that come out. */
  function OutAt(size: PromptSize, a: Answers, jobs: seq<Job>, indexes: Batch): seq<nat> {
    SurvivorsAt(Selected(indexes), RunLog(a, FinalBatches(size, jobs, indexes)), |jobs|)
  }

  lemma {:induction false} OutcomeOf(size: PromptSize, a: Answers, jobs: seq<Job>, indexes: Batch, q: nat)
    requires q < |OutAt(size, a, jobs, indexes)|
    ensures |FilterOutput(size, a, jobs, indexes)| == |OutAt(size, a, jobs, indexes)|
    ensures OutAt(size, a, jobs, indexes)[q] < |jobs|
    ensures var p, keep := OutAt(size, a, jobs, indexes)[q],
                           LastKeep(RunLog(a, FinalBatches(size, jobs, indexes)), OutAt(size, a, jobs, indexes)[q]);
      if p !in indexes then FilterOutput(size, a, jobs, indexes)[q] == jobs[p]
      else keep.Some? && Carries(FilterOutput(size, a, jobs, indexes)[q], jobs[p], keep.value)
  {
    var log := RunLog(a, FinalBatches(size, jobs, indexes));
    OrderAndContents(jobs, Selected(indexes), log, |jobs|);
    assert OutAt(size, a, jobs, indexes)[q] in OutAt(size, a, jobs, indexes);
  }

  /** A job that was not selected comes out unchanged. */
  lemma {:induction false} BypassedIsUnchanged(size: PromptSize, a: Answers, jobs: seq<Job>, indexes: Batch, p: nat)
      returns (q: nat)
    requires p < |jobs| && p !in indexes
    ensures q < |OutAt(size, a, jobs, indexes)| && OutAt(size, a, jobs, indexes)[q] == p
    ensures q < |FilterOutput(size, a, jobs, indexes)| && FilterOutput(size, a, jobs, indexes)[q] == jobs[p]
  {
    var ps := OutAt(size, a, jobs, indexes);
    assert p in ps;
    q :| 0 <= q < |ps| && ps[q] == p;
    OutcomeOf(size, a, jobs, indexes, q);
  }

  lemma LastKeepByAnswers(size: PromptSize, a: Answers, jobs: seq<Job>, indexes: Batch, k: nat, j: nat)
    requires Selection(jobs, indexes)
    requires k < |FinalBatches(size, jobs, indexes)| && j < |FinalBatches(size, jobs, indexes)[k]|
    ensures var batch := FinalBatches(size, jobs, indexes)[k];
      var keep := LastKeep(RunLog(a, FinalBatches(size, jobs, indexes)), batch[j]);
      if keep.Some?
      then exists t :: LastKeeping(AnswersFor(a, k, batch, j), t) && AnswersFor(a, k, batch, j)[t] == keep.value
      else forall s :: 0 <= s < |AnswersFor(a, k, batch, j)| ==>
        AnswersFor(a, k, batch, j)[s].Judged? && !AnswersFor(a, k, batch, j)[s].evaluation.matches
  {
    var batches := FinalBatches(size, jobs, indexes);
    FinalBatchesAreApart(size, jobs, indexes);
    VerdictsApplied(a, batches, k, j);
    LastKeepInVerdicts(RunLog(a, batches), batches[k][j]);
  }

  /**
    A selected job that comes out carries the last keeping one of the answers for its place in the batches; all other
    fields are those of the input job.
  */
  lemma {:induction false} KeptCarriesItsAnswer(size: PromptSize, a: Answers, jobs: seq<Job>, indexes: Batch, q: nat,
      k: nat, j: nat, t: nat)
    requires Selection(jobs, indexes) && q < |OutAt(size, a, jobs, indexes)|
    requires k < |FinalBatches(size, jobs, indexes)| && j < |FinalBatches(size, jobs, indexes)[k]|
    requires OutAt(size, a, jobs, indexes)[q] == FinalBatches(size, jobs, indexes)[k][j]
    requires LastKeeping(AnswersFor(a, k, FinalBatches(size, jobs, indexes)[k], j), t)
    ensures q < |FilterOutput(size, a, jobs, indexes)| && OutAt(size, a, jobs, indexes)[q] < |jobs|
    ensures Carries(FilterOutput(size, a, jobs, indexes)[q], jobs[OutAt(size, a, jobs, indexes)[q]],
                    AnswersFor(a, k, FinalBatches(size, jobs, indexes)[k], j)[t])
  {
    var batch := FinalBatches(size, jobs, indexes)[k];
    OutcomeOf(size, a, jobs, indexes, q);
    PlacedIsSelected(size, jobs, indexes, k, j);
    LastKeepByAnswers(size, a, jobs, indexes, k, j);
    var keep := LastKeep(RunLog(a, FinalBatches(size, jobs, indexes)), batch[j]);
    var s :| LastKeeping(AnswersFor(a, k, batch, j), s) && AnswersFor(a, k, batch, j)[s] == keep.value;
    LastKeepingIsOne(AnswersFor(a, k, batch, j), s, t);
  }

  lemma PlacedIsSelected(size: PromptSize, jobs: seq<Job>, indexes: Batch, k: nat, j: nat)
    requires k < |FinalBatches(size, jobs, indexes)| && j < |FinalBatches(size, jobs, indexes)[k]|
    ensures FinalBatches(size, jobs, indexes)[k][j] in indexes
  {
    InFlatten(FinalBatches(size, jobs, indexes), k, j);
    BatchedIffSelected(size, jobs, indexes, FinalBatches(size, jobs, indexes)[k][j]);
  }

  /** A selected job has a place in the batches, and comes out exactly when some answer for that place keeps it. */
  lemma {:induction false} ComesOutIff(size: PromptSize, a: Answers, jobs: seq<Job>, indexes: Batch, p: nat)
      returns (k: nat, j: nat)
    requires Selection(jobs, indexes) && p in indexes
    ensures k < |FinalBatches(size, jobs, indexes)| && j < |FinalBatches(size, jobs, indexes)[k]|
    ensures FinalBatches(size, jobs, indexes)[k][j] == p
    ensures p in OutAt(size, a, jobs, indexes) <==>
              exists t :: LastKeeping(AnswersFor(a, k, FinalBatches(size, jobs, indexes)[k], j), t)
  {
    BatchedIffSelected(size, jobs, indexes, p);
    k, j := FindInFlatten(FinalBatches(size, jobs, indexes), p);
    LastKeepByAnswers(size, a, jobs, indexes, k, j);
  }
}
