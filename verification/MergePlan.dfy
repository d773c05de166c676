/** MergeJobs and the review plan: two ways of adding a fetched batch to the saved jobs. */
module MergePlan {
  import opened Options
  import opened Text
  import opened Jobs
  import opened MetadataLaws
  import opened KeyedMerge

  function JobMergeKey(company: string, title: string, applyURL: string): string {
    Lower(Trim(company) + "|" + Trim(title))
  }

  const BY_NAME: Key := JobMergeKey

  /** The lemmas below hold of any key function that is never empty, as JobMergeKey is. */
  ghost predicate NeverEmpty(key: Key) {
    forall company, title, applyURL :: key(company, title, applyURL) != ""
  }

  lemma NamesAreNeverEmpty()
    ensures NeverEmpty(BY_NAME)
  {
    forall company, title, applyURL ensures BY_NAME(company, title, applyURL) != "" {
      assert |JobMergeKey(company, title, applyURL)| == |Trim(company) + "|" + Trim(title)|;
    }
  }

  method IndexJobs(key: Key, jobs: seq<Job>) returns (index: map<string, nat>)
    ensures Indexes(key, index, jobs)
  {
    index := map[];
    for idx := 0 to |jobs|
      invariant Indexes(key, index, jobs[..idx])
    {
      IndexesAfterAppend(key, index, jobs[..idx], jobs[idx]);
      assert jobs[..idx + 1] == jobs[..idx] + [jobs[idx]];
      index := index[KeyOf(key, jobs[idx]) := idx];
    }
    assert jobs[..|jobs|] == jobs;
  }

  /** The loop of MergeJobs after `n` jobs. */
  ghost predicate Merging(
    merge: Merge, key: Key, existing: seq<Job>, newJobs: seq<Job>, n: nat, acc: seq<Job>, index: map<string, nat>)
  {
    n <= |newJobs| && acc == MergeAll(merge, key, true, existing, newJobs[..n]) && Indexes(key, index, acc)
  }

  lemma MergingStep(merge: Merge, key: Key, existing: seq<Job>, newJobs: seq<Job>, n: nat, acc: seq<Job>,
      index: map<string, nat>)
    requires NeverEmpty(key) && n < |newJobs| && Merging(merge, key, existing, newJobs, n, acc, index)
    ensures var job := newJobs[n];
            var k := KeyOf(key, job);
            if k in index then
              && index[k] < |acc|
              && Merging(merge, key, existing, newJobs, n + 1, acc[index[k] := merge(acc[index[k]], job)], index)
            else
              Merging(merge, key, existing, newJobs, n + 1, acc + [Opened(job)], index[k := |acc|])
  {
    var job := newJobs[n];
    var k := KeyOf(key, job);
    assert newJobs[..n + 1][..n] == newJobs[..n];
    assert IndexOf(key, acc, k) == if k in index then Some(index[k]) else None;
    if k in index {
      IndexesAfterMerge(merge, key, index, acc, job);
    } else {
      IndexesAfterAppend(key, index, acc, Opened(job));
    }
  }

  method MergeByKey(merge: Merge, key: Key, existing: seq<Job>, newJobs: seq<Job>) returns (added: nat,
      finalJobs: seq<Job>)
    requires NeverEmpty(key)
    ensures finalJobs == MergeAll(merge, key, true, existing, newJobs)
    ensures added == |finalJobs| - |existing|
  {
    var existingMap: map<string, nat> := IndexJobs(key, existing);
    added, finalJobs := 0, existing;
    for n := 0 to |newJobs|
      invariant Merging(merge, key, existing, newJobs, n, finalJobs, existingMap)
      invariant added == |finalJobs| - |existing|
    {
      MergingStep(merge, key, existing, newJobs, n, finalJobs, existingMap);
      var job := newJobs[n];
      var k := KeyOf(key, job);
      if k in existingMap {
        var existingIdx := existingMap[k];
        finalJobs := finalJobs[existingIdx := merge(finalJobs[existingIdx], job)];
        continue;
      }
      if job.status == "" || job.status == "New" {
        job := job.(status := "Unopened");
      }
      finalJobs := finalJobs + [job];
      existingMap := existingMap[k := |finalJobs| - 1];
      added := added + 1;
    }
    assert newJobs[..|newJobs|] == newJobs;
  }

  method MergeJobs(ch: Checks, existing: seq<Job>, newJobs: seq<Job>) returns (added: nat, finalJobs: seq<Job>)
    ensures finalJobs == MergeAll(IdentityMerge(ch), BY_NAME, true, existing, newJobs)
    ensures added == |finalJobs| - |existing|
  {
    NamesAreNeverEmpty();
    added, finalJobs := MergeByKey(IdentityMerge(ch), BY_NAME, existing, newJobs);
  }

  /** The jobs a plan adds: the first of each key that is not saved yet, opened. */
  function PlanAdded(key: Key, existing: seq<Job>, newJobs: seq<Job>): seq<Job>
    decreases |newJobs|
  {
    if newJobs == [] then []
    else
      var added, job := PlanAdded(key, existing, newJobs[..|newJobs| - 1]), newJobs[|newJobs| - 1];
      if IndexOf(key, existing + added, KeyOf(key, job)).Some? then added else added + [Opened(job)]
  }

  /** The batch jobs whose key is saved or was had by an earlier job of the batch, in order. */
  function PlanDuplicates(key: Key, existing: seq<Job>, newJobs: seq<Job>): seq<Job>
    decreases |newJobs|
  {
    if newJobs == [] then []
    else
      var init, job := newJobs[..|newJobs| - 1], newJobs[|newJobs| - 1];
      PlanDuplicates(key, existing, init)
        + if IndexOf(key, existing + init, KeyOf(key, job)).Some? then [job] else []
  }

  /** Saved and planned jobs have the keys of the saved jobs and the batch. */
  lemma {:induction false} PlanKnowsKeys(key: Key, existing: seq<Job>, newJobs: seq<Job>, k: string)
    ensures IndexOf(key, existing + PlanAdded(key, existing, newJobs), k).Some? <==>
          IndexOf(key, existing + newJobs, k).Some?
    decreases |newJobs|
  {
    if newJobs != [] {
      var init, job := newJobs[..|newJobs| - 1], newJobs[|newJobs| - 1];
      var added := PlanAdded(key, existing, init);
      PlanKnowsKeys(key, existing, init, k);
      assert existing + newJobs == (existing + init) + [job];
      IndexAfterAppend(key, existing + init, job, k);
      ConcatLater(existing, added, Opened(job));
      IndexAfterAppend(key, existing + added, Opened(job), k);
    }
  }

  lemma ConcatLater(a: seq<Job>, b: seq<Job>, job: Job)
    ensures a + (b + [job]) == a + b + [job]
  {
  }

  /** What the loop of planJobMerge has planned to add after `n` jobs. */
  ghost predicate Adding(key: Key, existing: seq<Job>, newJobs: seq<Job>, n: nat, merged: seq<Job>, added: seq<Job>,
      known: map<string, nat>)
  {
    && n <= |newJobs| && added == PlanAdded(key, existing, newJobs[..n]) && merged == existing + added
    && Indexes(key, known, merged)
  }

  lemma AddingStep(key: Key, existing: seq<Job>, newJobs: seq<Job>, n: nat, merged: seq<Job>, added: seq<Job>,
      known: map<string, nat>)
    requires NeverEmpty(key) && n < |newJobs| && Adding(key, existing, newJobs, n, merged, added, known)
    ensures var job, k := newJobs[n], KeyOf(key, newJobs[n]);
      if k in known then Adding(key, existing, newJobs, n + 1, merged, added, known)
      else Adding(key, existing, newJobs, n + 1, merged + [Opened(job)], added + [Opened(job)], known[k := |merged|])
  {
    var job := newJobs[n];
    assert newJobs[..n + 1][..n] == newJobs[..n];
    IndexesAfterAppend(key, known, merged, Opened(job));
    ConcatLater(existing, added, Opened(job));
  }

  /** What it has left out. */
  ghost predicate LeavingOut(key: Key, existing: seq<Job>, newJobs: seq<Job>, n: nat, duplicates: seq<Job>,
      added: nat) {
    n <= |newJobs| && duplicates == PlanDuplicates(key, existing, newJobs[..n]) && added + |duplicates| == n
  }

  /** The index knows a key exactly when a saved job or an earlier batch job has it. */
  lemma KnownIff(key: Key, existing: seq<Job>, newJobs: seq<Job>, n: nat, merged: seq<Job>, added: seq<Job>,
      known: map<string, nat>)
    requires NeverEmpty(key) && n < |newJobs| && Adding(key, existing, newJobs, n, merged, added, known)
    ensures KeyOf(key, newJobs[n]) in known <==> IndexOf(key, existing + newJobs[..n], KeyOf(key, newJobs[n])).Some?
  {
    var k := KeyOf(key, newJobs[n]);
    PlanKnowsKeys(key, existing, newJobs[..n], k);
    assert IndexOf(key, merged, k) == if k in known then Some(known[k]) else None;
  }

  lemma LeavingOutStep(key: Key, existing: seq<Job>, newJobs: seq<Job>, n: nat, duplicates: seq<Job>, added: nat)
    requires n < |newJobs| && LeavingOut(key, existing, newJobs, n, duplicates, added)
    ensures
      if IndexOf(key, existing + newJobs[..n], KeyOf(key, newJobs[n])).Some?
      then LeavingOut(key, existing, newJobs, n + 1, duplicates + [newJobs[n]], added)
      else LeavingOut(key, existing, newJobs, n + 1, duplicates, added + 1)
  {
    assert newJobs[..n + 1][..n] == newJobs[..n];
  }

  method PlanByKey(key: Key, existing: seq<Job>, newJobs: seq<Job>)
    returns (merged: seq<Job>, addedJobs: seq<Job>, duplicateJobs: seq<Job>)
    requires NeverEmpty(key)
    ensures addedJobs == PlanAdded(key, existing, newJobs)
    ensures merged == existing + addedJobs
    ensures duplicateJobs == PlanDuplicates(key, existing, newJobs)
    ensures |addedJobs| + |duplicateJobs| == |newJobs|
  {
    var known: map<string, nat> := IndexJobs(key, existing);
    merged, addedJobs, duplicateJobs := existing, [], [];
    assert existing + [] == existing;
    for n := 0 to |newJobs|
      invariant Adding(key, existing, newJobs, n, merged, addedJobs, known)
      invariant LeavingOut(key, existing, newJobs, n, duplicateJobs, |addedJobs|)
    {
      AddingStep(key, existing, newJobs, n, merged, addedJobs, known);
      KnownIff(key, existing, newJobs, n, merged, addedJobs, known);
      LeavingOutStep(key, existing, newJobs, n, duplicateJobs, |addedJobs|);
      var job := newJobs[n];
      var k := KeyOf(key, job);
      if k in known {
        duplicateJobs := duplicateJobs + [job];
        continue;
      }
      job := Opened(job);
      known := known[k := |merged|];
      merged := merged + [job];
      addedJobs := addedJobs + [job];
    }
    assert newJobs[..|newJobs|] == newJobs;
  }

  method PlanJobMerge(existing: seq<Job>, newJobs: seq<Job>)
    returns (merged: seq<Job>, addedJobs: seq<Job>, duplicateJobs: seq<Job>)
    ensures addedJobs == PlanAdded(BY_NAME, existing, newJobs)
    ensures merged == existing + addedJobs
    ensures duplicateJobs == PlanDuplicates(BY_NAME, existing, newJobs)
    ensures |addedJobs| + |duplicateJobs| == |newJobs|
  {
    NamesAreNeverEmpty();
    merged, addedJobs, duplicateJobs := PlanByKey(BY_NAME, existing, newJobs);
  }

  // ---- MergeJobs and the plan agree ----

  lemma StepAgrees(merge: Merge, key: Key, a: seq<Job>, b: seq<Job>, job: Job)
    requires SameKeys(key, a, b) && KeyOf(key, job) != ""
    ensures var planned := if IndexOf(key, b, KeyOf(key, job)).Some? then b else b + [Opened(job)];
      SameKeys(key, Step(merge, key, true, a, job), planned)
  {
    SameKeysSameIndex(key, a, b, KeyOf(key, job));
  }

  /** They add equally many jobs and end with the same keys in the same places. */
  lemma {:induction false} MergeAndPlanAgree(merge: Merge, key: Key, existing: seq<Job>, newJobs: seq<Job>)
    requires NeverEmpty(key)
    ensures SameKeys(key, MergeAll(merge, key, true, existing, newJobs), existing + PlanAdded(key, existing, newJobs))
    decreases |newJobs|
  {
    if newJobs != [] {
      var init, job := newJobs[..|newJobs| - 1], newJobs[|newJobs| - 1];
      var before, planned := MergeAll(merge, key, true, existing, init), PlanAdded(key, existing, init);
      MergeAndPlanAgree(merge, key, existing, init);
      StepAgrees(merge, key, before, existing + planned, job);
      ConcatLater(existing, planned, Opened(job));
    } else {
      assert existing + [] == existing;
    }
  }

  /** Per key, the plan adds the first batch job of a key that is not saved yet. */
  lemma {:induction false} PlanAddsFirst(key: Key, existing: seq<Job>, newJobs: seq<Job>, k: string)
    requires IndexOf(key, existing, k).None?
    ensures var planned, sel := existing + PlanAdded(key, existing, newJobs), WithKey(key, newJobs, k);
            var i := IndexOf(key, planned, k);
            if sel == [] then i.None? else i.Some? && planned[i.value] == Opened(sel[0])
    decreases |newJobs|
  {
    if newJobs != [] {
      var init, job := newJobs[..|newJobs| - 1], newJobs[|newJobs| - 1];
      PlanAddsFirst(key, existing, init, k);
      var before, planned := PlanAdded(key, existing, init), PlanAdded(key, existing, newJobs);
      if |planned| > |before| {
        assert existing + planned == (existing + before) + [Opened(job)];
        IndexAfterAppend(key, existing + before, Opened(job), k);
      }
    } else {
      assert existing + [] == existing;
    }
  }

  /** A planned job is the first of its key, opened, and the merged one is that with the rest of the key folded in. */
  ghost predicate FirstAndFold(merge: Merge, key: Key, newJobs: seq<Job>, k: string, planned: Job, merged: Job) {
    var sel := WithKey(key, newJobs, k);
    sel != [] && planned == Opened(sel[0]) && merged == Fold(merge, planned, sel[1..])
  }

  /**
    The added jobs are exactly the tail: from the end of the saved jobs on, MergeJobs holds at every position the
    plan's added job with the rest of its key folded in.
  */
  lemma TailIsPlanWithDuplicatesFolded(merge: Merge, key: Key, existing: seq<Job>, newJobs: seq<Job>, q: nat)
    requires NeverEmpty(key) && |existing| <= q < |existing + PlanAdded(key, existing, newJobs)|
    ensures var r, all := MergeAll(merge, key, true, existing, newJobs), existing + PlanAdded(key, existing, newJobs);
      |r| == |all| && FirstAndFold(merge, key, newJobs, KeyOf(key, all[q]), all[q], r[q])
  {
    TailAt(merge, key, existing, newJobs, MergeAll(merge, key, true, existing, newJobs),
        existing + PlanAdded(key, existing, newJobs), q);
  }

  lemma {:induction false} TailAt(merge: Merge, key: Key, existing: seq<Job>, newJobs: seq<Job>, r: seq<Job>,
      all: seq<Job>, q: nat)
    requires NeverEmpty(key) && |existing| <= q < |all|
    requires r == MergeAll(merge, key, true, existing, newJobs) && all == existing + PlanAdded(key, existing, newJobs)
    ensures |r| == |all| && FirstAndFold(merge, key, newJobs, KeyOf(key, all[q]), all[q], r[q])
  {
    PositionsAgree(merge, key, existing, newJobs, r, all, q);
    KeyIsNotEmpty(key, all[q]);
    AddedByFirst(merge, key, existing, newJobs, r, all, KeyOf(key, all[q]), q);
  }

  lemma SameKeyThere(key: Key, a: seq<Job>, b: seq<Job>, q: nat)
    requires SameKeys(key, a, b) && q < |a|
    ensures KeyOf(key, a[q]) == KeyOf(key, b[q])
  {
  }

  lemma KeyIsNotEmpty(key: Key, job: Job)
    requires NeverEmpty(key)
    ensures KeyOf(key, job) != ""
  {
  }

  /** An added job stands at the same place in both results, as the last of its key. */
  lemma {:induction false} PositionsAgree(merge: Merge, key: Key, existing: seq<Job>, newJobs: seq<Job>, r: seq<Job>,
      all: seq<Job>, q: nat)
    requires NeverEmpty(key) && |existing| <= q < |all|
    requires r == MergeAll(merge, key, true, existing, newJobs) && all == existing + PlanAdded(key, existing, newJobs)
    ensures |r| == |all| && IndexOf(key, r, KeyOf(key, all[q])) == Some(q)
    ensures IndexOf(key, all, KeyOf(key, all[q])) == Some(q)
  {
    MergeAndPlanAgree(merge, key, existing, newJobs);
    SameKeyThere(key, r, all, q);
    KeyIsNotEmpty(key, r[q]);
    AppendedIsLast(merge, key, true, existing, newJobs, q);
    SameKeysSameIndex(key, r, all, KeyOf(key, all[q]));
  }

  lemma {:induction false} AddedByFirst(merge: Merge, key: Key, existing: seq<Job>, newJobs: seq<Job>, r: seq<Job>,
      all: seq<Job>, k: string, q: nat)
    requires k != "" && q >= |existing|
    requires r == MergeAll(merge, key, true, existing, newJobs) && all == existing + PlanAdded(key, existing, newJobs)
    requires IndexOf(key, r, k) == Some(q) && IndexOf(key, all, k) == Some(q)
    ensures FirstAndFold(merge, key, newJobs, k, all[q], r[q])
  {
    Survivor(merge, key, true, existing, newJobs, k);
    PlanAddsFirst(key, existing, newJobs, k);
  }

  /** A saved job changes only by taking in the batch jobs of its own key, and only the last of its key does. */
  lemma SavedJobsOnlyTakeIn(merge: Merge, key: Key, existing: seq<Job>, newJobs: seq<Job>, p: nat)
    requires NeverEmpty(key) && p < |existing|
    ensures var r, k := MergeAll(merge, key, true, existing, newJobs), KeyOf(key, existing[p]);
      && p < |r|
      && r[p] ==
         if IndexOf(key, existing, k) == Some(p) then Fold(merge, existing[p], WithKey(key, newJobs, k))
             else existing[p]
  {
    var k := KeyOf(key, existing[p]);
    if IndexOf(key, existing, k) == Some(p) {
      Survivor(merge, key, true, existing, newJobs, k);
    } else {
      Untouched(merge, key, true, existing, newJobs, p);
    }
  }

  lemma {:induction false} WithKeyFinds(key: Key, jobs: seq<Job>, p: nat)
    requires p < |jobs|
    ensures WithKey(key, jobs, KeyOf(key, jobs[p])) != []
    decreases |jobs|
  {
    if p < |jobs| - 1 {
      WithKeyFinds(key, jobs[..|jobs| - 1], p);
    }
  }

  // ---- Merging the same batch again ----

  /** Whether the jobs of one key in the batch leave their job in a state a second merge does not change. */
  ghost predicate KeySettles(key: Key, existing: seq<Job>, newJobs: seq<Job>, k: string) {
    var sel, i := WithKey(key, newJobs, k), IndexOf(key, existing, k);
    if sel == [] then true
    else if i.Some? then SettlesStored(existing[i.value].metadata, sel)
    else SettlesAdded(sel[0].metadata, sel[1..])
  }

  /** A condition on the inputs alone; see SettlesStored and SettlesAdded. */
  ghost predicate BatchSettles(key: Key, existing: seq<Job>, newJobs: seq<Job>) {
    forall p :: 0 <= p < |newJobs| ==> KeySettles(key, existing, newJobs, KeyOf(key, newJobs[p]))
  }

  lemma {:induction false} NothingAppended(merge: Merge, key: Key, acc: seq<Job>, jobs: seq<Job>)
    requires NeverEmpty(key)
    requires forall p :: 0 <= p < |jobs| ==> IndexOf(key, acc, KeyOf(key, jobs[p])).Some?
    ensures SameKeys(key, acc, MergeAll(merge, key, true, acc, jobs))
    decreases |jobs|
  {
    if jobs != [] {
      var init, job := jobs[..|jobs| - 1], jobs[|jobs| - 1];
      NothingAppended(merge, key, acc, init);
      SameKeysSameIndex(key, acc, MergeAll(merge, key, true, acc, init), KeyOf(key, job));
    }
  }

  /** What the second merge does to the one job of a key. */
  lemma {:induction false} KeyAfterSecondMerge(ch: Checks, key: Key, existing: seq<Job>, newJobs: seq<Job>, k: string)
    requires k != "" && WithKey(key, newJobs, k) != []
    ensures var once := MergeAll(IdentityMerge(ch), key, true, existing, newJobs);
            var twice := MergeAll(IdentityMerge(ch), key, true, once, newJobs);
            var i := IndexOf(key, once, k);
      && i.Some? && |once| <= |twice|
      && (twice[i.value] == once[i.value] <==> KeySettles(key, existing, newJobs, k))
  {
    var once := MergeAll(IdentityMerge(ch), key, true, existing, newJobs);
    var sel, i0 := WithKey(key, newJobs, k), IndexOf(key, existing, k);
    Survivor(IdentityMerge(ch), key, true, existing, newJobs, k);
    Survivor(IdentityMerge(ch), key, true, once, newJobs, k);
    if i0.Some? {
      FoldRepeats(ch, existing[i0.value], sel);
    } else {
      FoldRepeatsFromStart(ch, true, sel[0], sel[1..]);
      assert [sel[0]] + sel[1..] == sel;
    }
  }

  lemma AllKeysKnown(merge: Merge, key: Key, existing: seq<Job>, newJobs: seq<Job>, p: nat)
    requires NeverEmpty(key)
    requires p < |newJobs|
    ensures IndexOf(key, MergeAll(merge, key, true, existing, newJobs), KeyOf(key, newJobs[p])).Some?
  {
    WithKeyFinds(key, newJobs, p);
    Survivor(merge, key, true, existing, newJobs, KeyOf(key, newJobs[p]));
  }

  /**
    Merging the same batch again never adds a job, and it changes nothing at all exactly when the batch
    settles: no added job keeps unnormalized metadata, and no implausible count hides the only plausible one.
  */
  lemma {:induction false} MergingAgainChangesNothingIff(ch: Checks, key: Key, existing: seq<Job>, newJobs: seq<Job>)
    requires NeverEmpty(key)
    ensures var once := MergeAll(IdentityMerge(ch), key, true, existing, newJobs);
            var twice := MergeAll(IdentityMerge(ch), key, true, once, newJobs);
            |twice| == |once| && (twice == once <==> BatchSettles(key, existing, newJobs))
  {
    var once := MergeAll(IdentityMerge(ch), key, true, existing, newJobs);
    var twice := MergeAll(IdentityMerge(ch), key, true, once, newJobs);
    forall p | 0 <= p < |newJobs| ensures IndexOf(key, once, KeyOf(key, newJobs[p])).Some? {
      AllKeysKnown(IdentityMerge(ch), key, existing, newJobs, p);
    }
    NothingAppended(IdentityMerge(ch), key, once, newJobs);
    if twice == once {
      forall p | 0 <= p < |newJobs| ensures KeySettles(key, existing, newJobs, KeyOf(key, newJobs[p])) {
        WithKeyFinds(key, newJobs, p);
        KeyAfterSecondMerge(ch, key, existing, newJobs, KeyOf(key, newJobs[p]));
      }
    }
    if BatchSettles(key, existing, newJobs) {
      forall q | 0 <= q < |once| ensures twice[q] == once[q] {
        PositionSettles(ch, key, existing, newJobs, q);
      }
    }
  }

  lemma {:induction false} WithKeyWitness(key: Key, jobs: seq<Job>, k: string) returns (p: nat)
    requires WithKey(key, jobs, k) != []
    ensures p < |jobs| && KeyOf(key, jobs[p]) == k
    decreases |jobs|
  {
    if KeyOf(key, jobs[|jobs| - 1]) == k {
      p := |jobs| - 1;
    } else {
      p := WithKeyWitness(key, jobs[..|jobs| - 1], k);
    }
  }

  lemma {:induction false} PositionSettles(ch: Checks, key: Key, existing: seq<Job>, newJobs: seq<Job>, q: nat)
    requires NeverEmpty(key)
    requires BatchSettles(key, existing, newJobs) && q < |MergeAll(IdentityMerge(ch), key, true, existing, newJobs)|
    ensures var once := MergeAll(IdentityMerge(ch), key, true, existing, newJobs);
            var twice := MergeAll(IdentityMerge(ch), key, true, once, newJobs);
            q < |twice| && twice[q] == once[q]
  {
    var once := MergeAll(IdentityMerge(ch), key, true, existing, newJobs);
    var k := KeyOf(key, once[q]);
    if IndexOf(key, once, k) != Some(q) {
      Untouched(IdentityMerge(ch), key, true, once, newJobs, q);
    } else if WithKey(key, newJobs, k) == [] {
      Survivor(IdentityMerge(ch), key, true, once, newJobs, k);
    } else {
      var p := WithKeyWitness(key, newJobs, k);
      KeyAfterSecondMerge(ch, key, existing, newJobs, k);
    }
  }

  /** In particular it changes nothing when all metadata involved is in normal form. */
  lemma NormalizedBatchSettles(key: Key, existing: seq<Job>, newJobs: seq<Job>)
    requires forall i :: 0 <= i < |existing| ==> Normal(existing[i].metadata)
    requires forall i :: 0 <= i < |newJobs| ==> Normal(newJobs[i].metadata)
    ensures BatchSettles(key, existing, newJobs)
  {
    forall p | 0 <= p < |newJobs| ensures KeySettles(key, existing, newJobs, KeyOf(key, newJobs[p])) {
      var sel := WithKey(key, newJobs, KeyOf(key, newJobs[p]));
      if sel != [] {
        var q := FirstOfKey(key, newJobs, KeyOf(key, newJobs[p]));
        NormalIsPlausible(newJobs[q].metadata, MetadataOffers(sel[1..]));
        var i := IndexOf(key, existing, KeyOf(key, newJobs[p]));
        if i.Some? {
          NormalIsPlausible(existing[i.value].metadata, MetadataOffers(sel));
        }
      }
    }
  }

  lemma {:induction false} FirstOfKey(key: Key, jobs: seq<Job>, k: string) returns (q: nat)
    requires WithKey(key, jobs, k) != []
    ensures q < |jobs| && WithKey(key, jobs, k)[0] == jobs[q]
    decreases |jobs|
  {
    if WithKey(key, jobs[..|jobs| - 1], k) == [] {
      q := |jobs| - 1;
    } else {
      q := FirstOfKey(key, jobs[..|jobs| - 1], k);
    }
  }

  lemma NormalIsPlausible(m: Option<Metadata>, batch: seq<Option<Metadata>>)
    requires Normal(m)
    ensures !CountArrivesLate(CountOf(m), batch)
  {
    if CompanyOf(m).Some? {
      assert CompanyOf(m) == NormalizeCompany(CompanyOf(m));
    }
  }
}
