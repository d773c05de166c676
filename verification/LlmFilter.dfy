/** LLM filtering of selected jobs: verdicts from batch and single calls land in shared maps that decide the output. */
module LlmFilter {
  import opened Options
  import opened Text
  import opened Jobs
  import opened LlmBatches

  datatype Evaluation = Evaluation(matches: bool, compensation: string, remote: string, why: seq<string>)

  /** What is applied to a job: an evaluation, or nothing when a single call fails or returns no result. */
  datatype Verdict = NoResult | Judged(evaluation: Evaluation)

  datatype BatchAnswer = BatchFailed | BatchResults(results: map<nat, Evaluation>)

  /** The model's answers: to the batch call for batch k, and to the single call for position j of batch k. */
  datatype Answers = Answers(batch: nat -> BatchAnswer, single: (nat, nat) -> Verdict)

  predicate Keeping(v: Verdict) {
    v.NoResult? || v.evaluation.matches
  }

  function Applied(job: Job, v: Verdict): Job {
    if v.NoResult? then job
    else
      var e := v.evaluation;
      job.(
        compensation := if Trim(e.compensation) != "" then Trim(e.compensation) else job.compensation,
        remote := if Trim(e.remote) != "" then Trim(e.remote) else job.remote,
        whyMatches := if e.why != [] then e.why else job.whyMatches)
  }

  // ---- The verdicts of a run, in the order they are applied ----

  datatype Entry = Entry(index: nat, verdict: Verdict)

  function Singles(a: Answers, k: nat, batch: Batch): (r: seq<Entry>)
    ensures |r| == |batch|
  {
    seq(|batch|, j requires 0 <= j < |batch| => Entry(batch[j], a.single(k, j)))
  }

  /** How many leading jobs of a batch the answer covers. */
  function Covered(results: map<nat, Evaluation>, batch: Batch): (n: nat)
    ensures n <= |batch| && (forall j :: 0 <= j < n ==> batch[j] in results) && (n < |batch| ==> batch[n] !in results)
  {
    if batch == [] || batch[0] !in results then 0 else 1 + Covered(results, batch[1..])
  }

  function BatchEntries(results: map<nat, Evaluation>, batch: Batch): (r: seq<Entry>)
    requires forall j :: 0 <= j < |batch| ==> batch[j] in results
    ensures |r| == |batch|
  {
    seq(|batch|, j requires 0 <= j < |batch| => Entry(batch[j], Judged(results[batch[j]])))
  }

  /** A failed batch, or one missing a result after applying the earlier ones, falls back to single calls for all. */
  function BatchLog(a: Answers, k: nat, batch: Batch): seq<Entry> {
    if |batch| == 1 || a.batch(k).BatchFailed? then Singles(a, k, batch)
    else
      var results := a.batch(k).results;
      var n := Covered(results, batch);
      BatchEntries(results, batch[..n]) + if n == |batch| then [] else Singles(a, k, batch)
  }

  function RunLog(a: Answers, batches: seq<Batch>): seq<Entry> {
    if batches == [] then []
    else RunLog(a, batches[..|batches| - 1]) + BatchLog(a, |batches| - 1, batches[|batches| - 1])
  }

  /** The last keeping verdict applied to a job. */
  function LastKeep(log: seq<Entry>, index: nat): (v: Option<Verdict>)
    ensures v.Some? ==> Keeping(v.value)
  {
    if log == [] then None
    else
      var e := log[|log| - 1];
      if e.index == index && Keeping(e.verdict) then Some(e.verdict) else LastKeep(log[..|log| - 1], index)
  }

  function Output(jobs: seq<Job>, selected: set<nat>, log: seq<Entry>, n: nat): seq<Job>
    requires n <= |jobs|
  {
    if n == 0 then []
    else
      var init, keep := Output(jobs, selected, log, n - 1), LastKeep(log, n - 1);
      if n - 1 !in selected then init + [jobs[n - 1]]
      else if keep.Some? then init + [Applied(jobs[n - 1], keep.value)]
      else init
  }

  // ---- The code ----

  /** The maps `results` and `kept` that one filtering run shares between its calls. */
  class FilterRun {
    const jobs: seq<Job>
    var results: map<nat, Job>
    var kept: set<nat>
    ghost var log: seq<Entry>

    ghost predicate Valid()
      reads this
    {
      && (forall i :: i in kept <==> LastKeep(log, i).Some?)
      && (forall i :: i in kept ==>
          i < |jobs| && i in results && results[i] == Applied(jobs[i], LastKeep(log, i).value))
    }

    constructor (jobs: seq<Job>)
      ensures Valid() && this.jobs == jobs && log == []
    {
      this.jobs, results, kept, log := jobs, map[], {}, [];
    }

    method ApplyJobFilterResult(index: nat, verdict: Verdict)
      requires Valid() && index < |jobs|
      modifies this
      ensures Valid() && log == old(log) + [Entry(index, verdict)]
    {
      log := log + [Entry(index, verdict)];
      assert log[..|log| - 1] == old(log);
      var job := jobs[index];
      if verdict.NoResult? {
        results, kept := results[index := job], kept + {index};
        return;
      }
      var e := verdict.evaluation;
      if e.matches {
        if Trim(e.compensation) != "" {
          job := job.(compensation := Trim(e.compensation));
        }
        if Trim(e.remote) != "" {
          job := job.(remote := Trim(e.remote));
        }
        if |e.why| > 0 {
          job := job.(whyMatches := e.why);
        }
        results, kept := results[index := job], kept + {index};
      }
    }

    method EvaluateJobFilterBatch(answer: BatchAnswer, batch: Batch) returns (ok: bool)
      requires Valid() && forall j :: 0 <= j < |batch| ==> batch[j] < |jobs|
      modifies this
      ensures Valid()
      ensures answer.BatchFailed? ==> !ok && log == old(log)
      ensures answer.BatchResults? ==>
        var n := Covered(answer.results, batch);
        (ok <==> n == |batch|) && log == old(log) + BatchEntries(answer.results, batch[..n])
    {
      if answer.BatchFailed? {
        return false;
      }
      for j := 0 to |batch|
        invariant Valid() && j <= Covered(answer.results, batch)
        invariant log == old(log) + BatchEntries(answer.results, batch[..j])
      {
        if batch[j] !in answer.results {
          return false;
        }
        ApplyJobFilterResult(batch[j], Judged(answer.results[batch[j]]));
        assert batch[..j + 1] == batch[..j] + [batch[j]];
      }
      assert batch[..|batch|] == batch;
      return true;
    }

    method EvaluateSingles(a: Answers, k: nat, batch: Batch)
      requires Valid() && forall j :: 0 <= j < |batch| ==> batch[j] < |jobs|
      modifies this
      ensures Valid() && log == old(log) + Singles(a, k, batch)
    {
      for j := 0 to |batch|
        invariant Valid() && log == old(log) + Singles(a, k, batch)[..j]
      {
        ApplyJobFilterResult(batch[j], a.single(k, j));
      }
    }

    method EvaluateOneBatch(a: Answers, k: nat, batch: Batch)
      requires Valid() && forall j :: 0 <= j < |batch| ==> batch[j] < |jobs|
      modifies this
      ensures Valid() && log == old(log) + BatchLog(a, k, batch)
    {
      if |batch| == 1 {
        EvaluateSingles(a, k, batch);
        return;
      }
      var ok := EvaluateJobFilterBatch(a.batch(k), batch);
      if !ok {
        EvaluateSingles(a, k, batch);
      }
    }

    method EvaluateSelectedJobs(a: Answers, batches: seq<Batch>)
      requires Valid() && log == []
      requires forall k, j :: 0 <= k < |batches| && 0 <= j < |batches[k]| ==> batches[k][j] < |jobs|
      modifies this
      ensures Valid() && log == RunLog(a, batches)
    {
      for k := 0 to |batches|
        invariant Valid() && log == RunLog(a, batches[..k])
      {
        assert batches[..k + 1][..k] == batches[..k];
        EvaluateOneBatch(a, k, batches[k]);
      }
      assert batches[..|batches|] == batches;
    }

    method CollectJobs(selected: set<nat>) returns (filteredJobs: seq<Job>)
      requires Valid()
      ensures filteredJobs == Output(jobs, selected, log, |jobs|)
    {
      filteredJobs := [];
      for i := 0 to |jobs|
        invariant filteredJobs == Output(jobs, selected, log, i)
      {
        if i !in selected {
          filteredJobs := filteredJobs + [jobs[i]];
          continue;
        }
        if i in kept {
          filteredJobs := filteredJobs + [results[i]];
        }
      }
    }
  }

  function Selected(indexes: Batch): set<nat> {
    set i | i in indexes
  }

  /** `selectJobsForLLMFiltering`: the jobs that need an evaluation, in order. */
  method SelectJobs(shouldEvaluate: Job -> bool, jobs: seq<Job>) returns (indexes: Batch)
    ensures forall j :: 0 <= j < |indexes| ==> indexes[j] < |jobs|
    ensures forall i, j :: 0 <= i < j < |indexes| ==> indexes[i] < indexes[j]
    ensures forall i :: 0 <= i < |jobs| ==> (i in indexes <==> shouldEvaluate(jobs[i]))
  {
    indexes := [];
    for i := 0 to |jobs|
      invariant forall j :: 0 <= j < |indexes| ==> indexes[j] < i
      invariant forall h, j :: 0 <= h < j < |indexes| ==> indexes[h] < indexes[j]
      invariant forall h :: 0 <= h < i ==> (h in indexes <==> shouldEvaluate(jobs[h]))
    {
      if shouldEvaluate(jobs[i]) {
        indexes := indexes + [i];
      }
    }
  }

  /** The whole of LLM filtering once a model is available. */
  method FilterJobsWithLlm(shouldEvaluate: Job -> bool, size: PromptSize, a: Answers, jobs: seq<Job>)
    returns (out: seq<Job>, indexes: Batch)
    ensures forall i :: 0 <= i < |jobs| ==> (i in indexes <==> shouldEvaluate(jobs[i]))
    ensures forall i :: i in indexes ==> i < |jobs|
    ensures forall i, j :: 0 <= i < j < |indexes| ==> indexes[i] < indexes[j]
    ensures out == FilterOutput(size, a, jobs, indexes)
  {
    var chosen := SelectJobs(shouldEvaluate, jobs);
    indexes := chosen;
    if |chosen| == 0 {
      assert Selected(chosen) == {} && jobs[..|jobs|] == jobs;
      NothingSelected(jobs, RunLog(a, FinalBatches(size, jobs, chosen)), |jobs|);
      return jobs, chosen;
    }
    var groups := JobFilterBatchesBySource(jobs, chosen);
    groups := SplitOversizedJobFilterBatches(size, groups);
    forall k, j | 0 <= k < |groups| && 0 <= j < |groups[k]| ensures groups[k][j] < |jobs| {
      BatchedIffSelected(size, jobs, chosen, groups[k][j]);
      InFlatten(groups, k, j);
    }
    var run := new FilterRun(jobs);
    run.EvaluateSelectedJobs(a, groups);
    out := run.CollectJobs(set i | i in chosen);
  }

  function FilterOutput(size: PromptSize, a: Answers, jobs: seq<Job>, indexes: Batch): seq<Job> {
    Output(jobs, Selected(indexes), RunLog(a, FinalBatches(size, jobs, indexes)), |jobs|)
  }

  lemma {:induction false} NothingSelected(jobs: seq<Job>, log: seq<Entry>, n: nat)
    requires n <= |jobs|
    ensures Output(jobs, {}, log, n) == jobs[..n]
  {
    if n > 0 {
      NothingSelected(jobs, log, n - 1);
    }
  }

  lemma {:induction false} InFlatten(batches: seq<Batch>, k: nat, j: nat)
    requires k < |batches| && j < |batches[k]|
    ensures batches[k][j] in Flatten(batches)
  {
    if k > 0 {
      InFlatten(batches[1..], k - 1, j);
    }
  }

  lemma BatchedIffSelected(size: PromptSize, jobs: seq<Job>, indexes: Batch, index: nat)
    ensures index in Flatten(FinalBatches(size, jobs, indexes)) <==> index in indexes
  {
    BatchesPartition(size, jobs, indexes);
    assert index in Flatten(FinalBatches(size, jobs, indexes)) <==>
        index in Bag(Flatten(FinalBatches(size, jobs, indexes)));
    assert index in indexes <==> index in Bag(indexes);
  }

  // ---- What filtering guarantees ----

  /** Whether a job is in the output. */
  predicate Survives(selected: set<nat>, log: seq<Entry>, i: nat) {
    i !in selected || LastKeep(log, i).Some?
  }

  function Survivor(jobs: seq<Job>, selected: set<nat>, log: seq<Entry>, i: nat): Job
    requires i < |jobs| && Survives(selected, log, i)
  {
    if i !in selected then jobs[i] else Applied(jobs[i], LastKeep(log, i).value)
  }

  /** The positions of the output's jobs. */
  function SurvivorsAt(selected: set<nat>, log: seq<Entry>, n: nat): (ps: seq<nat>)
    ensures forall i, j :: 0 <= i < j < |ps| ==> ps[i] < ps[j]
    ensures forall i :: i in ps <==> 0 <= i < n && Survives(selected, log, i)
  {
    if n == 0 then []
    else
      var init := SurvivorsAt(selected, log, n - 1);
      assert forall i :: 0 <= i < |init| ==> init[i] in init;
      if Survives(selected, log, n - 1) then init + [n - 1] else init
  }

  /** Order is kept, bypassed jobs are unchanged, and a survivor carries its last keeping verdict. */
  lemma {:induction false} OrderAndContents(jobs: seq<Job>, selected: set<nat>, log: seq<Entry>, n: nat)
    requires n <= |jobs|
    ensures var out, ps := Output(jobs, selected, log, n), SurvivorsAt(selected, log, n);
      |out| == |ps| && forall j :: 0 <= j < |out| ==> ps[j] in ps && out[j] == Survivor(jobs, selected, log, ps[j])
  {
    if n > 0 {
      OrderAndContents(jobs, selected, log, n - 1);
    }
  }

  /** A job has a keeping verdict exactly when not every verdict applied to it was an explicit non-match. */
  lemma {:induction false} DroppedIff(log: seq<Entry>, index: nat)
    ensures LastKeep(log, index).None? <==>
      forall e :: e in log && e.index == index ==> e.verdict.Judged? && !e.verdict.evaluation.matches
  {
    if log != [] {
      DroppedIff(log[..|log| - 1], index);
      assert log == log[..|log| - 1] + [log[|log| - 1]];
    }
  }

  /** The last keeping verdict is in the log with only explicit non-matches after it for that job. */
  lemma {:induction false} LastKeepIsLast(log: seq<Entry>, index: nat) returns (n: nat)
    requires LastKeep(log, index).Some?
    ensures n < |log| && log[n] == Entry(index, LastKeep(log, index).value)
    ensures forall m :: n < m < |log| && log[m].index == index ==> !Keeping(log[m].verdict)
  {
    var e := log[|log| - 1];
    if e.index == index && Keeping(e.verdict) {
      n := |log| - 1;
    } else {
      n := LastKeepIsLast(log[..|log| - 1], index);
    }
  }

  ghost predicate Judges(log: seq<Entry>, index: nat) {
    exists n :: 0 <= n < |log| && log[n].index == index
  }

  lemma BatchJudgesItsJobs(a: Answers, k: nat, batch: Batch, j: nat)
    requires j < |batch|
    ensures Judges(BatchLog(a, k, batch), batch[j])
  {
    var log := BatchLog(a, k, batch);
    if |batch| == 1 || a.batch(k).BatchFailed? {
      assert log[j].index == batch[j];
    } else {
      var n := Covered(a.batch(k).results, batch);
      if n == |batch| {
        assert log[j] == BatchEntries(a.batch(k).results, batch[..n])[j];
      } else {
        assert log[n + j] == Singles(a, k, batch)[j];
      }
    }
  }

  lemma JudgesEarlier(a: seq<Entry>, b: seq<Entry>, index: nat)
    requires Judges(a, index)
    ensures Judges(a + b, index)
  {
    var n :| 0 <= n < |a| && a[n].index == index;
    assert (a + b)[n] == a[n];
  }

  lemma JudgesLater(a: seq<Entry>, b: seq<Entry>, index: nat)
    requires Judges(b, index)
    ensures Judges(a + b, index)
  {
    var n :| 0 <= n < |b| && b[n].index == index;
    assert (a + b)[|a| + n] == b[n];
  }

  lemma {:induction false} RunJudgesBatched(a: Answers, batches: seq<Batch>, k: nat, j: nat)
    requires k < |batches| && j < |batches[k]|
    ensures Judges(RunLog(a, batches), batches[k][j])
    decreases |batches|
  {
    var m := |batches| - 1;
    if k < m {
      RunJudgesBatched(a, batches[..m], k, j);
      JudgesEarlier(RunLog(a, batches[..m]), BatchLog(a, m, batches[m]), batches[k][j]);
    } else {
      BatchJudgesItsJobs(a, m, batches[m], j);
      JudgesLater(RunLog(a, batches[..m]), BatchLog(a, m, batches[m]), batches[k][j]);
    }
  }

  lemma {:induction false} FindInFlatten(batches: seq<Batch>, index: nat) returns (k: nat, j: nat)
    requires index in Flatten(batches)
    ensures k < |batches| && j < |batches[k]| && batches[k][j] == index
  {
    if index in batches[0] {
      j :| 0 <= j < |batches[0]| && batches[0][j] == index;
      k := 0;
    } else {
      k, j := FindInFlatten(batches[1..], index);
      k := k + 1;
    }
  }

  /**
    A selected job gets at least one verdict, and is missing from the output exactly when every verdict applied to
    it was an explicit non-match, those of a partly applied batch included.
  */
  lemma {:induction false} MissingIff(size: PromptSize, a: Answers, jobs: seq<Job>, indexes: Batch, i: nat)
    requires i in indexes && i < |jobs|
    ensures var log := RunLog(a, FinalBatches(size, jobs, indexes));
      && Judges(log, i)
      && (i !in SurvivorsAt(Selected(indexes), log, |jobs|) <==>
            forall e :: e in log && e.index == i ==> e.verdict.Judged? && !e.verdict.evaluation.matches)
  {
    var batches := FinalBatches(size, jobs, indexes);
    BatchedIffSelected(size, jobs, indexes, i);
    var k, j := FindInFlatten(batches, i);
    RunJudgesBatched(a, batches, k, j);
    DroppedIff(RunLog(a, batches), i);
  }

  ghost predicate AllCallsFail(a: Answers) {
    && (forall k :: a.batch(k).BatchFailed?)
    && (forall k, j :: a.single(k, j).NoResult?)
  }

  lemma {:induction false} FailuresKeep(a: Answers, batches: seq<Batch>, n: nat)
    requires AllCallsFail(a) && n < |RunLog(a, batches)|
    ensures RunLog(a, batches)[n].verdict.NoResult?
    decreases |batches|
  {
    var m := |batches| - 1;
    var before := RunLog(a, batches[..m]);
    if n < |before| {
      FailuresKeep(a, batches[..m], n);
    } else {
      assert RunLog(a, batches)[n] == Singles(a, m, batches[m])[n - |before|];
    }
  }

  /** If every LLM call fails, the output is the input. */
  lemma AllFailuresKeepAll(size: PromptSize, a: Answers, jobs: seq<Job>, indexes: Batch)
    requires AllCallsFail(a)
    ensures FilterOutput(size, a, jobs, indexes) == jobs
  {
    var log := RunLog(a, FinalBatches(size, jobs, indexes));
    forall i | 0 <= i < |jobs| && i in indexes ensures LastKeep(log, i) == Some(NoResult) {
      MissingIff(size, a, jobs, indexes, i);
      var n :| 0 <= n < |log| && log[n].index == i;
      FailuresKeep(a, FinalBatches(size, jobs, indexes), n);
      assert log[n] in log;
      var last := LastKeepIsLast(log, i);
      FailuresKeep(a, FinalBatches(size, jobs, indexes), last);
    }
    KeptAsIs(jobs, Selected(indexes), log, |jobs|);
  }

  lemma {:induction false} KeptAsIs(jobs: seq<Job>, selected: set<nat>, log: seq<Entry>, n: nat)
    requires n <= |jobs|
    requires forall i :: 0 <= i < n && i in selected ==> LastKeep(log, i) == Some(NoResult)
    ensures Output(jobs, selected, log, n) == jobs[..n]
  {
    if n > 0 {
      KeptAsIs(jobs, selected, log, n - 1);
    }
  }

  /** A verdict touches only compensation, remote and the reasons, so job keys and evidence are kept. */
  lemma VerdictTouchesThreeFields(job: Job, v: Verdict)
    ensures var r := Applied(job, v);
      && r == job.(compensation := r.compensation, remote := r.remote, whyMatches := r.whyMatches)
      && (Trim(job.compensation) != "" ==> Trim(r.compensation) != "")
      && (Trim(job.remote) != "" ==> Trim(r.remote) != "")
      && (job.whyMatches != [] ==> r.whyMatches != [])
  {
    if v.Judged? {
      TrimIdempotent(v.evaluation.compensation);
      TrimIdempotent(v.evaluation.remote);
    }
  }
}
