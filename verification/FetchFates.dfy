/**
  Where the tail of a fetch sends each job and what it carries there, said of the fetched job and the lookups about
  it.
*/
module FetchFates {
  import opened Options
  import opened Text
  import opened Seqs
  import opened Jobs
  import opened KeyedMerge
  import opened Dedupe
  import opened Finalize
  import opened MergeLaws

  // ---- Hydration ----

  /** Hydration fills a job's gaps from the candidate its own lookup gives, and leaves every other job as it is. */
  lemma {:induction false} HydrationFills(f: Fetch, ch: Checks, jobs: seq<Job>, p: nat)
    requires f.merge == IdentityMerge(ch) && p < |jobs|
    ensures var job, r := jobs[p], Hydrated(f, jobs)[p];
      var k := Trim(f.key(job.company, job.title, job.applyURL));
      if f.cache.None? || k == "" || f.cache.value.candidate(p, k).None? then r == job
      else Fills(ch, r, job, f.cache.value.candidate(p, k).value)
  {
    var job := jobs[p];
    var k := Trim(f.key(job.company, job.title, job.applyURL));
    if f.cache.Some? && k != "" && f.cache.value.candidate(p, k).Some? {
      MergeFills(ch, job, f.cache.value.candidate(p, k).value);
    }
  }

  // ---- Each job's fate ----

  lemma {:induction false} SelectedIff(xs: seq<nat>, flags: seq<bool>, want: bool, n: nat)
    requires |xs| == |flags| && n < |xs| && Increasing(xs, if xs == [] then 0 else xs[|xs| - 1] + 1)
    ensures xs[n] in Select(xs, flags, want) <==> flags[n] == want
  {
    var m := |xs| - 1;
    var init := Select(xs[..m], flags[..m], want);
    if n < m {
      SelectedIff(xs[..m], flags[..m], want, n);
    } else {
      forall i | 0 <= i < |init| ensures init[i] != xs[m] {
        var h := SelectedFrom(xs[..m], xs[..m], flags[..m], want, i);
      }
    }
  }

  lemma {:induction false} SelectedAreSome<T>(xs: seq<T>, flags: seq<bool>, want: bool, x: T)
    requires |xs| == |flags| && x in Select(xs, flags, want)
    ensures x in xs
  {
    var i :| 0 <= i < |Select(xs, flags, want)| && Select(xs, flags, want)[i] == x;
    var n := SelectedFrom(xs, xs, flags, want, i);
  }

  lemma TightBound(ps: seq<nat>, bound: nat)
    requires Increasing(ps, bound)
    ensures Increasing(ps, if ps == [] then 0 else ps[|ps| - 1] + 1)
  {
  }

  /** A filter sends each position one way or the other. */
  lemma PassSplits(xs: seq<nat>, flags: seq<bool>, bound: nat, n: nat)
    requires |xs| == |flags| && n < |xs| && Increasing(xs, bound)
    ensures xs[n] in Select(xs, flags, true) <==> flags[n]
    ensures xs[n] in Select(xs, flags, false) <==> !flags[n]
  {
    TightBound(xs, bound);
    SelectedIff(xs, flags, true, n);
    SelectedIff(xs, flags, false, n);
  }

  /** A job is filed under company target exactly when there is a target and the hydrated job misses it. */
  lemma {:induction false} OffTargetIff(f: Fetch, jobs: seq<Job>, p: nat)
    ensures p in FatesOf(f, jobs).offTarget <==>
      p < |jobs| && f.target.Some? && !f.target.value(Hydrated(f, jobs)[p])
    ensures p in OnTargetAt(f, jobs) <==> p < |jobs| && p !in FatesOf(f, jobs).offTarget
  {
    var all, flags := Range(|jobs|), OffTarget(f, Hydrated(f, jobs));
    if p < |jobs| {
      PassSplits(all, flags, |jobs|, p);
    } else {
      assert p !in all;
      if p in Select(all, flags, true) {
        SelectedAreSome(all, flags, true, p);
      }
      if p in Select(all, flags, false) {
        SelectedAreSome(all, flags, false, p);
      }
    }
  }

  /** What the lookup of the `turn`-th job on target returns. */
  ghost predicate LookupRejects(f: Fetch, turn: nat, job: Job) {
    var k := Trim(f.key(job.company, job.title, job.applyURL));
    f.cache.Some? && k != "" && f.cache.value.decision(turn, k).Some? && f.cache.value.decision(turn, k).value.Rejected?
  }

  lemma CachedFlag(f: Fetch, onTarget: seq<Job>, turn: nat)
    requires turn < |onTarget|
    ensures CachedOut(f, onTarget)[turn] <==> LookupRejects(f, turn, onTarget[turn])
  {
  }

  lemma OnTargetInOrder(f: Fetch, jobs: seq<Job>)
    ensures Increasing(OnTargetAt(f, jobs), |jobs|)
  {
    OnTargetPlaces(f, jobs);
  }

  /**
    The jobs on target are looked up in fetch order; a job is a cached rejection exactly when its own lookup says so.
  */
  lemma {:induction false} CachedIff(f: Fetch, jobs: seq<Job>, turn: nat)
    requires turn < |OnTargetAt(f, jobs)|
    ensures Increasing(OnTargetAt(f, jobs), |jobs|)
    ensures OnTargetAt(f, jobs)[turn] in FatesOf(f, jobs).cached <==>
      LookupRejects(f, turn, Hydrated(f, jobs)[OnTargetAt(f, jobs)[turn]])
    ensures OnTargetAt(f, jobs)[turn] in UncachedAt(f, jobs) <==>
      OnTargetAt(f, jobs)[turn] !in FatesOf(f, jobs).cached
  {
    OnTargetInOrder(f, jobs);
    OnTargetAtPlace(f, jobs, turn);
    CachedFlag(f, OnTarget(f, jobs), turn);
    PassSplits(OnTargetAt(f, jobs), CachedOut(f, OnTarget(f, jobs)), |jobs|, turn);
  }

  /** Of the rest, a job is filed as already saved exactly when its non-empty key is in the index of saved jobs. */
  lemma {:induction false} SavedIff(f: Fetch, jobs: seq<Job>, n: nat)
    requires n < |UncachedAt(f, jobs)|
    ensures UncachedAt(f, jobs)[n] < |jobs|
    ensures var p := UncachedAt(f, jobs)[n];
      var k := f.key(jobs[p].company, jobs[p].title, jobs[p].applyURL);
      && (p in FatesOf(f, jobs).saved <==> k != "" && f.existing.Some? && k in f.existing.value)
      && (p in UnsavedAt(f, jobs) <==> p !in FatesOf(f, jobs).saved)
  {
    UncachedPlaces(f, jobs);
    HydrationKeepsKey(f, jobs, UncachedAt(f, jobs)[n]);
    PassSplits(UncachedAt(f, jobs), Saved(f, Uncached(f, jobs)), |jobs|, n);
  }

  /** Of the rest, a job is a duplicate exactly when an earlier one of them has its non-empty key. */
  lemma {:induction false} DuplicateIff(f: Fetch, jobs: seq<Job>, n: nat)
    requires n < |UnsavedAt(f, jobs)|
    ensures forall m :: 0 <= m < |UnsavedAt(f, jobs)| ==> UnsavedAt(f, jobs)[m] < |jobs|
    ensures var ps := UnsavedAt(f, jobs);
      && (ps[n] in FatesOf(f, jobs).duplicates <==>
            KeyOf(f.key, jobs[ps[n]]) != "" &&
            exists m :: 0 <= m < n && KeyOf(f.key, jobs[ps[m]]) == KeyOf(f.key, jobs[ps[n]]))
      && (ps[n] in FirstsAt(f, jobs) <==> ps[n] !in FatesOf(f, jobs).duplicates)
  {
    var ps, unsaved := UnsavedAt(f, jobs), Unsaved(f, jobs);
    UnsavedPlaces(f, jobs);
    PassSplits(ps, Repeats(f.key, unsaved), |jobs|, n);
    forall m | 0 <= m < |ps| ensures KeyOf(f.key, unsaved[m]) == KeyOf(f.key, jobs[ps[m]]) {
      HydrationKeepsKey(f, jobs, ps[m]);
    }
    RepeatIff(f.key, unsaved, n);
  }

  lemma RepeatIff(key: Key, jobs: seq<Job>, n: nat)
    requires n < |jobs|
    ensures Repeats(key, jobs)[n] <==>
      KeyOf(key, jobs[n]) != "" && exists m :: 0 <= m < n && KeyOf(key, jobs[m]) == KeyOf(key, jobs[n])
  {
    var before, k := jobs[..n], KeyOf(key, jobs[n]);
    var i := IndexOf(key, before, k);
    if i.Some? {
      assert jobs[i.value] == before[i.value];
    } else {
      forall m | 0 <= m < n ensures KeyOf(key, jobs[m]) != k {
        assert before[m] == jobs[m];
      }
    }
  }

  /** What is left is returned, in fetch order, up to a positive limit; the jobs beyond it are omitted. */
  lemma {:induction false} ReturnedIff(f: Fetch, jobs: seq<Job>, p: nat)
    ensures var firsts, o := FirstsAt(f, jobs), FatesOf(f, jobs);
      && o.returned + o.omitted == firsts
      && |o.returned| == (if 0 < f.limit < |firsts| then f.limit else |firsts|)
      && (p in o.returned || p in o.omitted <==> p in firsts)
  {
    CutApart(FirstsAt(f, jobs), CapAt(f.limit, |FirstsAt(f, jobs)|), p);
  }

  lemma CutApart(ps: seq<nat>, n: nat, p: nat)
    requires n <= |ps|
    ensures ps[..n] + ps[n..] == ps && (p in ps[..n] || p in ps[n..] <==> p in ps)
  {
    assert ps == ps[..n] + ps[n..];
  }

  // ---- What a returned job carries ----

  lemma {:induction false} DedupedFromFirst(merge: Merge, key: Key, jobs: seq<Job>, q: nat) returns (later: seq<Job>)
    requires q < |Deduped(merge, key, jobs)|
    ensures q < |Select(jobs, Repeats(key, jobs), false)|
    ensures Deduped(merge, key, jobs)[q] == Fold(merge, Select(jobs, Repeats(key, jobs), false)[q], later)
    decreases |jobs|
  {
    var m := |jobs| - 1;
    var init, job := jobs[..m], jobs[m];
    var before, firsts := Deduped(merge, key, init), Select(init, Repeats(key, init), false);
    RepeatsOfPrefix(key, jobs, m);
    SurvivorsAreFirsts(merge, key, init);
    SurvivorsAreFirsts(merge, key, jobs);
    LastStep(merge, key, jobs);
    if q < |before| {
      later := DedupedFromFirst(merge, key, init, q);
      if Deduped(merge, key, jobs)[q] != before[q] {
        later := later + [job];
        assert later[..|later| - 1] == later[..|later| - 1];
      }
    } else {
      later := [];
    }
  }

  /** The last job is merged into one place or appended. */
  lemma LastStep(merge: Merge, key: Key, jobs: seq<Job>)
    requires jobs != []
    ensures var m := |jobs| - 1;
      var before, after := Deduped(merge, key, jobs[..m]), Deduped(merge, key, jobs);
      if Repeats(key, jobs)[m] then
        && |after| == |before|
        && forall q :: 0 <= q < |before| ==> after[q] == before[q] || after[q] == merge(before[q], jobs[m])
      else after == before + [jobs[m]]
  {
    var m := |jobs| - 1;
    if KeyOf(key, jobs[m]) != "" {
      SameKeySet(merge, key, jobs[..m], KeyOf(key, jobs[m]));
    }
  }

  lemma {:induction false} FoldKeeps(ch: Checks, start: Job, later: seq<Job>)
    ensures var r := Fold(IdentityMerge(ch), start, later);
      && (!Blank(start.companyWebsite) && ch.looksLikeWebsite(start.companyWebsite) ==>
            r.companyWebsite == start.companyWebsite)
      && (!Blank(start.companySummary) && ch.looksLikeSummary(start.companySummary, start.company) ==>
            r.companySummary == start.companySummary)
      && (!Blank(start.companyIndustry) ==> r.companyIndustry == start.companyIndustry)
      && (!NoPay(start.compensation) ==> r.compensation == start.compensation)
      && (!Blank(start.description) ==> r.description == start.description)
      && r.company == start.company && r.title == start.title && r.applyURL == start.applyURL
    decreases |later|
  {
    if later != [] {
      var init, last := later[..|later| - 1], later[|later| - 1];
      FoldKeeps(ch, start, init);
      MergeFills(ch, Fold(IdentityMerge(ch), start, init), last);
    }
  }

  /**
    A returned job starts from the hydrated job of its position: what that has of website, summary, industry, pay and
    description it still has, whatever duplicates were folded into it.
  */
  lemma {:induction false} ReturnedCarries(f: Fetch, ch: Checks, jobs: seq<Job>, i: nat)
    requires f.merge == IdentityMerge(ch) && i < |Finalized(f, jobs).returned|
    ensures i < |FatesOf(f, jobs).returned| && FatesOf(f, jobs).returned[i] < |jobs|
    ensures var h, r := Hydrated(f, jobs)[FatesOf(f, jobs).returned[i]], Finalized(f, jobs).returned[i];
      && (!Blank(h.companyWebsite) && ch.looksLikeWebsite(h.companyWebsite) ==> r.companyWebsite == h.companyWebsite)
      && (!Blank(h.companySummary) && ch.looksLikeSummary(h.companySummary, h.company) ==>
            r.companySummary == h.companySummary)
      && (!Blank(h.companyIndustry) ==> r.companyIndustry == h.companyIndustry)
      && (!NoPay(h.compensation) ==> r.compensation == h.compensation)
      && (!Blank(h.description) ==> r.description == h.description)
      && r.company == h.company && r.title == h.title && r.applyURL == h.applyURL
  {
    var unsaved := Unsaved(f, jobs);
    var flags := Repeats(f.key, unsaved);
    UnsavedPlaces(f, jobs);
    PlacesSelected(f, jobs, UnsavedAt(f, jobs), unsaved, flags, false);
    var later := DedupedFromFirst(f.merge, f.key, unsaved, i);
    SelectSameLength(UnsavedAt(f, jobs), unsaved, flags, false);
    SurvivorsAreFirsts(f.merge, f.key, unsaved);
    FoldKeeps(ch, Select(unsaved, flags, false)[i], later);
  }
}
