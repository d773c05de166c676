/** Removing duplicates from one fetch: the first job of a key survives and takes in the later ones. */
module Dedupe {
  import opened Options
  import opened Jobs
  import opened KeyedMerge

  /** The source's merge is `IdentityMerge` of its validity checks; what follows holds of any merge that keeps keys. */
  function Deduped(merge: Merge, key: Key, jobs: seq<Job>): seq<Job> {
    MergeAll(merge, key, false, [], jobs)
  }

  predicate IsRepeat(key: Key, before: seq<Job>, job: Job) {
    KeyOf(key, job) != "" && IndexOf(key, before, KeyOf(key, job)).Some?
  }

  /** The jobs whose key came before, in order. */
  function Duplicates(key: Key, jobs: seq<Job>): seq<Job> {
    if jobs == [] then []
    else
      var init, job := Duplicates(key, jobs[..|jobs| - 1]), jobs[|jobs| - 1];
      if IsRepeat(key, jobs[..|jobs| - 1], job) then init + [job] else init
  }

  /** The positions that survive. */
  function KeptPositions(key: Key, jobs: seq<Job>): (ps: seq<nat>)
    ensures forall i :: 0 <= i < |ps| ==> ps[i] < |jobs|
    ensures forall i, j :: 0 <= i < j < |ps| ==> ps[i] < ps[j]
  {
    if jobs == [] then []
    else
      var init := KeptPositions(key, jobs[..|jobs| - 1]);
      if IsRepeat(key, jobs[..|jobs| - 1], jobs[|jobs| - 1]) then init else init + [|jobs| - 1]
  }

  /** A key is in the output exactly when it is in the input. */
  lemma SameKeySet(merge: Merge, key: Key, jobs: seq<Job>, k: string)
    requires k != ""
    ensures IndexOf(key, Deduped(merge, key, jobs), k).Some? <==> IndexOf(key, jobs, k).Some?
  {
    Survivor(merge, key, false, [], jobs, k);
    WithKeyEmptyIff(key, jobs, k);
  }

  lemma {:induction false} WithKeyEmptyIff(key: Key, jobs: seq<Job>, k: string)
    ensures WithKey(key, jobs, k) == [] <==> IndexOf(key, jobs, k).None?
    decreases |jobs|
  {
    if jobs != [] {
      WithKeyEmptyIff(key, jobs[..|jobs| - 1], k);
    }
  }

  ghost predicate Deduping(
    merge: Merge, key: Key, jobs: seq<Job>, n: nat, deduped: seq<Job>, duplicates: seq<Job>, seen: map<string, nat>)
  {
    && n <= |jobs|
    && deduped == Deduped(merge, key, jobs[..n])
    && duplicates == Duplicates(key, jobs[..n])
    && Indexes(key, seen, deduped)
    && "" !in seen
  }

  lemma DedupingStep(
    merge: Merge, key: Key, jobs: seq<Job>, n: nat, deduped: seq<Job>, duplicates: seq<Job>, seen: map<string, nat>)
    requires n < |jobs| && Deduping(merge, key, jobs, n, deduped, duplicates, seen)
    ensures var job := jobs[n];
            var k := KeyOf(key, job);
            if k == "" then
              Deduping(merge, key, jobs, n + 1, deduped + [job], duplicates, seen)
            else if k in seen then
              && seen[k] < |deduped|
              && Deduping(merge, key, jobs, n + 1, deduped[seen[k] := merge(deduped[seen[k]], job)], duplicates + [job],
                  seen)
            else
              Deduping(merge, key, jobs, n + 1, deduped + [job], duplicates, seen[k := |deduped|])
  {
    var job := jobs[n];
    var k := KeyOf(key, job);
    assert jobs[..n + 1][..n] == jobs[..n];
    if k == "" {
      forall k' | k' != "" ensures IndexOf(key, deduped + [job], k') == IndexOf(key, deduped, k') {
        IndexAfterAppend(key, deduped, job, k');
      }
    } else {
      SameKeySet(merge, key, jobs[..n], k);
      assert IndexOf(key, deduped, k) == if k in seen then Some(seen[k]) else None;
      if k in seen {
        IndexesAfterMerge(merge, key, seen, deduped, job);
      } else {
        IndexesAfterAppend(key, seen, deduped, job);
      }
    }
  }

  method DedupeFetchedJobs(merge: Merge, key: Key, jobs: seq<Job>) returns (deduped: seq<Job>, duplicates: seq<Job>)
    ensures deduped == Deduped(merge, key, jobs)
    ensures duplicates == Duplicates(key, jobs)
  {
    if |jobs| < 2 {
      OneJobIsNoDuplicate(merge, key, jobs);
      return jobs, [];
    }
    var seen: map<string, nat> := map[];
    deduped, duplicates := [], [];
    for n := 0 to |jobs|
      invariant Deduping(merge, key, jobs, n, deduped, duplicates, seen)
    {
      DedupingStep(merge, key, jobs, n, deduped, duplicates, seen);
      var job := jobs[n];
      var k := KeyOf(key, job);
      if k == "" {
        deduped := deduped + [job];
      } else if k in seen {
        var existingIdx := seen[k];
        deduped := deduped[existingIdx := merge(deduped[existingIdx], job)];
        duplicates := duplicates + [job];
      } else {
        seen := seen[k := |deduped|];
        deduped := deduped + [job];
      }
    }
    assert jobs[..|jobs|] == jobs;
  }

  lemma OneJobIsNoDuplicate(merge: Merge, key: Key, jobs: seq<Job>)
    requires |jobs| < 2
    ensures Deduped(merge, key, jobs) == jobs && Duplicates(key, jobs) == []
  {
    if |jobs| == 1 {
      assert jobs[..0] == [];
      assert [] + [jobs[0]] == jobs;
    }
  }

  // ---- What deduplication guarantees ----

  /** Kept plus duplicates is everything. */
  lemma {:induction false} NothingIsLost(merge: Merge, key: Key, jobs: seq<Job>)
    ensures |Deduped(merge, key, jobs)| + |Duplicates(key, jobs)| == |jobs|
    ensures |Deduped(merge, key, jobs)| == |KeptPositions(key, jobs)|
    decreases |jobs|
  {
    if jobs != [] {
      var init, job := jobs[..|jobs| - 1], jobs[|jobs| - 1];
      NothingIsLost(merge, key, init);
      if KeyOf(key, job) != "" {
        SameKeySet(merge, key, init, KeyOf(key, job));
      }
    }
  }

  /** The output follows the fetch order: its keys are those of the kept positions, first occurrences only. */
  lemma {:induction false} KeptInFetchOrder(merge: Merge, key: Key, jobs: seq<Job>, q: nat)
    requires q < |KeptPositions(key, jobs)|
    ensures var r, p := Deduped(merge, key, jobs), KeptPositions(key, jobs)[q];
      q < |r| && KeyOf(key, r[q]) == KeyOf(key, jobs[p]) && !IsRepeat(key, jobs[..p], jobs[p])
    decreases |jobs|
  {
    var init, job := jobs[..|jobs| - 1], jobs[|jobs| - 1];
    NothingIsLost(merge, key, init);
    NothingIsLost(merge, key, jobs);
    var before, ps := Deduped(merge, key, init), KeptPositions(key, init);
    StepKeepsKeys(merge, key, false, before, job);
    if KeyOf(key, job) != "" {
      SameKeySet(merge, key, init, KeyOf(key, job));
    }
    if q < |ps| {
      KeptInFetchOrder(merge, key, init, q);
      var p := ps[q];
      assert init[p] == jobs[p] && init[..p] == jobs[..p];
    }
  }

  /**
    The survivor of a key is the first-to-last fold of MergeJobIdentityFields over all input jobs with it,
    and it is alone in the output.
  */
  lemma SurvivorIsFold(merge: Merge, key: Key, jobs: seq<Job>, q: nat)
    requires q < |Deduped(merge, key, jobs)| && KeyOf(key, Deduped(merge, key, jobs)[q]) != ""
    ensures var r, k := Deduped(merge, key, jobs), KeyOf(key, Deduped(merge, key, jobs)[q]);
            var sel := WithKey(key, jobs, k);
      && sel != []
      && r[q] == Fold(merge, sel[0], sel[1..])
      && (forall j :: 0 <= j < |r| && KeyOf(key, r[j]) == k ==> j == q)
  {
    var r := Deduped(merge, key, jobs);
    var k := KeyOf(key, r[q]);
    AppendedIsLast(merge, key, false, [], jobs, q);
    Survivor(merge, key, false, [], jobs, k);
    forall j | 0 <= j < |r| && KeyOf(key, r[j]) == k ensures j == q {
      AppendedIsLast(merge, key, false, [], jobs, j);
    }
  }

  /** Jobs with the empty key are all kept, unmerged and in order. */
  lemma {:induction false} EmptyKeysAllKept(merge: Merge, key: Key, jobs: seq<Job>)
    ensures WithKey(key, Deduped(merge, key, jobs), "") == WithKey(key, jobs, "")
    decreases |jobs|
  {
    if jobs != [] {
      var init, job := jobs[..|jobs| - 1], jobs[|jobs| - 1];
      EmptyKeysAllKept(merge, key, init);
      var before := Deduped(merge, key, init);
      var i := IndexOf(key, before, KeyOf(key, job));
      if KeyOf(key, job) != "" && i.Some? {
        UpdateKeepsEmptyKeys(key, before, i.value, merge(before[i.value], job));
      } else {
        assert (before + [job])[..|before|] == before;
      }
    }
  }

  lemma {:induction false} UpdateKeepsEmptyKeys(key: Key, jobs: seq<Job>, i: nat, job: Job)
    requires i < |jobs| && KeyOf(key, job) == KeyOf(key, jobs[i]) != ""
    ensures WithKey(key, jobs[i := job], "") == WithKey(key, jobs, "")
    decreases |jobs|
  {
    if i < |jobs| - 1 {
      UpdateKeepsEmptyKeys(key, jobs[..|jobs| - 1], i, job);
      assert jobs[i := job][..|jobs| - 1] == jobs[..|jobs| - 1][i := job];
    } else {
      assert jobs[i := job][..|jobs| - 1] == jobs[..|jobs| - 1];
    }
  }

  ghost predicate DistinctKeys(key: Key, jobs: seq<Job>) {
    forall i, j :: 0 <= i < j < |jobs| && KeyOf(key, jobs[i]) != "" ==> KeyOf(key, jobs[i]) != KeyOf(key, jobs[j])
  }

  lemma {:induction false} DistinctIsFixed(merge: Merge, key: Key, jobs: seq<Job>)
    requires DistinctKeys(key, jobs)
    ensures Deduped(merge, key, jobs) == jobs && Duplicates(key, jobs) == []
    decreases |jobs|
  {
    if jobs != [] {
      var init, job := jobs[..|jobs| - 1], jobs[|jobs| - 1];
      DistinctIsFixed(merge, key, init);
      forall p | 0 <= p < |init| && KeyOf(key, job) != "" ensures KeyOf(key, init[p]) != KeyOf(key, job) {
        assert init[p] == jobs[p];
      }
      assert init + [job] == jobs;
    }
  }

  lemma OutputIsDistinct(merge: Merge, key: Key, jobs: seq<Job>)
    ensures DistinctKeys(key, Deduped(merge, key, jobs))
  {
    var r := Deduped(merge, key, jobs);
    forall i, j | 0 <= i < j < |r| && KeyOf(key, r[i]) != "" ensures KeyOf(key, r[i]) != KeyOf(key, r[j]) {
      SurvivorIsFold(merge, key, jobs, i);
    }
  }

  /** A second dedupe changes nothing and finds no duplicate: merging never alters a key. */
  lemma DedupeIsIdempotent(merge: Merge, key: Key, jobs: seq<Job>)
    ensures Deduped(merge, key, Deduped(merge, key, jobs)) == Deduped(merge, key, jobs)
    ensures Duplicates(key, Deduped(merge, key, jobs)) == []
  {
    OutputIsDistinct(merge, key, jobs);
    DistinctIsFixed(merge, key, Deduped(merge, key, jobs));
  }
}
