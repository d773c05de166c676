/** Batching of selected jobs for LLM filtering: by source, in fours, then greedily by prompt size. */
module LlmBatches {
  import opened Jobs
  import opened Seqs
  import opened Text

  const MAX_BATCH_SIZE := 4
  const MAX_PROMPT_CHARS := 18000

  type Batch = seq<nat>

  /** The length of the prompt for a batch; the prompt text itself is not modelled. */
  type PromptSize = Batch -> int

  function SourceLabel(source: string): string {
    if Trim(source) == "" then "unknown" else Trim(source)
  }

  function LabelOf(jobs: seq<Job>, index: nat): string {
    if index < |jobs| then SourceLabel(jobs[index].source) else ""
  }

  /** The indexes with one source, in order. */
  function OfSource(jobs: seq<Job>, indexes: Batch, source: string): Batch {
    if indexes == [] then []
    else
      var init, last := OfSource(jobs, indexes[..|indexes| - 1], source), indexes[|indexes| - 1];
      if LabelOf(jobs, last) == source then init + [last] else init
  }

  /** The sources by first appearance. */
  function Sources(jobs: seq<Job>, indexes: Batch): (r: seq<string>)
    ensures forall i, j :: 0 <= i < j < |r| ==> r[i] != r[j]
  {
    if indexes == [] then []
    else
      var init, s := Sources(jobs, indexes[..|indexes| - 1]), LabelOf(jobs, indexes[|indexes| - 1]);
      if s in init then init else init + [s]
  }

  function Chunks(group: Batch): seq<Batch> {
    if group == [] then []
    else if |group| <= MAX_BATCH_SIZE then [group]
    else [group[..MAX_BATCH_SIZE]] + Chunks(group[MAX_BATCH_SIZE..])
  }

  function SourceBatches(jobs: seq<Job>, indexes: Batch, sources: seq<string>): seq<Batch> {
    if sources == [] then []
    else
      SourceBatches(jobs, indexes, sources[..|sources| - 1])
      + Chunks(OfSource(jobs, indexes, sources[|sources| - 1]))
  }

  /** The greedy split: `current` is the open batch, `rest` still to be placed. */
  function Greedy(size: PromptSize, current: Batch, rest: Batch): seq<Batch>
    decreases |rest|
  {
    if rest == [] then (if current == [] then [] else [current])
    else if current != [] && size(current + [rest[0]]) > MAX_PROMPT_CHARS
        then [current] + Greedy(size, [rest[0]], rest[1..])
    else Greedy(size, current + [rest[0]], rest[1..])
  }

  function Split(size: PromptSize, group: Batch): seq<Batch> {
    if |group| <= 1 || size(group) <= MAX_PROMPT_CHARS then [group] else Greedy(size, [], group)
  }

  function SplitAll(size: PromptSize, groups: seq<Batch>): seq<Batch> {
    if groups == [] then [] else SplitAll(size, groups[..|groups| - 1]) + Split(size, groups[|groups| - 1])
  }

  function FinalBatches(size: PromptSize, jobs: seq<Job>, indexes: Batch): seq<Batch> {
    SplitAll(size, SourceBatches(jobs, indexes, Sources(jobs, indexes)))
  }

  function Flatten(batches: seq<Batch>): Batch {
    if batches == [] then [] else batches[0] + Flatten(batches[1..])
  }

  // ---- The code ----

  ghost predicate Grouping(jobs: seq<Job>, indexes: Batch, orderedSources: seq<string>, bySource: map<string, Batch>) {
    && orderedSources == Sources(jobs, indexes)
    && (forall s :: s in bySource <==> s in orderedSources)
    && (forall s :: s in bySource ==> bySource[s] == OfSource(jobs, indexes, s))
  }

  lemma OfSourceNext(jobs: seq<Job>, indexes: Batch, n: nat, s: string)
    requires n < |indexes|
    ensures OfSource(jobs, indexes[..n + 1], s)
         == OfSource(jobs, indexes[..n], s) + if LabelOf(jobs, indexes[n]) == s then [indexes[n]] else []
  {
    assert indexes[..n + 1][..n] == indexes[..n];
  }

  lemma SourcesNext(jobs: seq<Job>, indexes: Batch, n: nat)
    requires n < |indexes|
    ensures var r, s := Sources(jobs, indexes[..n]), LabelOf(jobs, indexes[n]);
      Sources(jobs, indexes[..n + 1]) == if s in r then r else r + [s]
  {
    assert indexes[..n + 1][..n] == indexes[..n];
  }

  lemma GroupingStep(jobs: seq<Job>, indexes: Batch, n: nat, orderedSources: seq<string>, bySource: map<string, Batch>)
    requires n < |indexes| && Grouping(jobs, indexes[..n], orderedSources, bySource)
    ensures var s := LabelOf(jobs, indexes[n]);
      var grown := bySource[s := (if s in bySource then bySource[s] else []) + [indexes[n]]];
      Grouping(jobs, indexes[..n + 1], if s in bySource then orderedSources else orderedSources + [s], grown)
  {
    var s := LabelOf(jobs, indexes[n]);
    var grown := bySource[s := (if s in bySource then bySource[s] else []) + [indexes[n]]];
    SourcesNext(jobs, indexes, n);
    if s !in bySource {
      SourcesAre(jobs, indexes[..n], s);
    }
    forall t | t in grown ensures grown[t] == OfSource(jobs, indexes[..n + 1], t) {
      OfSourceNext(jobs, indexes, n, t);
    }
  }

  lemma {:induction false} SourcesAre(jobs: seq<Job>, indexes: Batch, s: string)
    ensures s in Sources(jobs, indexes) <==> OfSource(jobs, indexes, s) != []
    decreases |indexes|
  {
    if indexes != [] {
      SourcesAre(jobs, indexes[..|indexes| - 1], s);
    }
  }

  lemma {:induction false} OfSourceIsPart(jobs: seq<Job>, indexes: Batch, s: string, index: nat)
    ensures index in OfSource(jobs, indexes, s) <==> index in indexes && LabelOf(jobs, index) == s
    decreases |indexes|
  {
    if indexes != [] {
      OfSourceIsPart(jobs, indexes[..|indexes| - 1], s, index);
      assert indexes == indexes[..|indexes| - 1] + [indexes[|indexes| - 1]];
    }
  }

  method JobFilterBatchesBySource(jobs: seq<Job>, indexes: Batch) returns (batches: seq<Batch>)
    requires forall i :: 0 <= i < |indexes| ==> indexes[i] < |jobs|
    ensures batches == SourceBatches(jobs, indexes, Sources(jobs, indexes))
  {
    var orderedSources, bySource := GroupBySource(jobs, indexes);
    batches := CutAllGroups(orderedSources, bySource, jobs, indexes);
  }

  lemma SourceBatchesNext(jobs: seq<Job>, indexes: Batch, sources: seq<string>, k: nat)
    requires k < |sources|
    ensures SourceBatches(jobs, indexes, sources[..k + 1])
         == SourceBatches(jobs, indexes, sources[..k]) + Chunks(OfSource(jobs, indexes, sources[k]))
  {
    assert sources[..k + 1][..k] == sources[..k];
  }

  method CutAllGroups(sources: seq<string>, bySource: map<string, Batch>, ghost jobs: seq<Job>,
      ghost indexes: Batch) returns (batches: seq<Batch>)
    requires forall k :: 0 <= k < |sources| ==>
          sources[k] in bySource && bySource[sources[k]] == OfSource(jobs, indexes, sources[k])
    ensures batches == SourceBatches(jobs, indexes, sources)
  {
    batches := [];
    for k := 0 to |sources|
      invariant batches == SourceBatches(jobs, indexes, sources[..k])
    {
      SourceBatchesNext(jobs, indexes, sources, k);
      var chunks := CutInChunks(bySource[sources[k]]);
      batches := batches + chunks;
    }
    assert sources[..|sources|] == sources;
  }

  method GroupBySource(jobs: seq<Job>, indexes: Batch) returns (orderedSources: seq<string>,
      bySource: map<string, Batch>)
    requires forall i :: 0 <= i < |indexes| ==> indexes[i] < |jobs|
    ensures Grouping(jobs, indexes, orderedSources, bySource)
  {
    orderedSources, bySource := [], map[];
    for n := 0 to |indexes|
      invariant Grouping(jobs, indexes[..n], orderedSources, bySource)
    {
      GroupingStep(jobs, indexes, n, orderedSources, bySource);
      var source := SourceLabel(jobs[indexes[n]].source);
      var group := [];
      if source in bySource {
        group := bySource[source];
      } else {
        orderedSources := orderedSources + [source];
      }
      bySource := bySource[source := group + [indexes[n]]];
    }
    assert indexes[..|indexes|] == indexes;
  }

  method CutInChunks(group: Batch) returns (chunks: seq<Batch>)
    ensures chunks == Chunks(group)
  {
    chunks := [];
    var start := 0;
    while start < |group|
      invariant 0 <= start
      invariant Chunks(group) == chunks + if start <= |group| then Chunks(group[start..]) else []
    {
      ghost var left := group[start..];
      var end := start + MAX_BATCH_SIZE;
      if end > |group| {
        end := |group|;
      }
      assert group[start..end] == if |left| <= MAX_BATCH_SIZE then left else left[..MAX_BATCH_SIZE];
      assert |left| > MAX_BATCH_SIZE ==> left[MAX_BATCH_SIZE..] == group[end..];
      chunks := chunks + [group[start..end]];
      start := start + MAX_BATCH_SIZE;
    }
  }

  method SplitJobFilterBatchByPromptSize(size: PromptSize, indexes: Batch) returns (split: seq<Batch>)
    ensures split == Split(size, indexes)
  {
    if |indexes| <= 1 || size(indexes) <= MAX_PROMPT_CHARS {
      return [indexes];
    }
    split := [];
    var current: Batch := [];
    for n := 0 to |indexes|
      invariant split + Greedy(size, current, indexes[n..]) == Greedy(size, [], indexes)
    {
      var candidate := current + [indexes[n]];
      assert indexes[n..][1..] == indexes[n + 1..];
      if |current| > 0 && size(candidate) > MAX_PROMPT_CHARS {
        split := split + [current];
        current := [indexes[n]];
        continue;
      }
      current := candidate;
    }
    if |current| > 0 {
      split := split + [current];
    }
  }

  method SplitOversizedJobFilterBatches(size: PromptSize, groups: seq<Batch>) returns (splitGroups: seq<Batch>)
    ensures splitGroups == SplitAll(size, groups)
  {
    splitGroups := [];
    for n := 0 to |groups|
      invariant splitGroups == SplitAll(size, groups[..n])
    {
      assert groups[..n + 1][..n] == groups[..n];
      var split := SplitJobFilterBatchByPromptSize(size, groups[n]);
      splitGroups := splitGroups + split;
    }
    assert groups[..|groups|] == groups;
  }

  // ---- What the batches are, for any size function ----

  lemma {:induction false} FlattenConcat(a: seq<Batch>, b: seq<Batch>)
    ensures Flatten(a + b) == Flatten(a) + Flatten(b)
  {
    if a == [] {
      assert a + b == b;
    } else {
      FlattenConcat(a[1..], b);
      assert (a + b)[1..] == a[1..] + b && (a + b)[0] == a[0];
      Associative(a[0], Flatten(a[1..]), Flatten(b));
    }
  }

  lemma {:induction false} ChunksFlatten(group: Batch)
    ensures Flatten(Chunks(group)) == group
  {
    if |group| > MAX_BATCH_SIZE {
      ChunksFlatten(group[MAX_BATCH_SIZE..]);
      var head, tail := group[..MAX_BATCH_SIZE], Chunks(group[MAX_BATCH_SIZE..]);
      assert ([head] + tail)[1..] == tail;
    } else if group != [] {
      assert Flatten([group]) == group + Flatten([group][1..]);
    }
  }

  /** No chunk but the last has room: a group takes as few chunks as its size allows. */
  lemma {:induction false} ChunksAreFull(group: Batch)
    ensures |Chunks(group)| == (|group| + MAX_BATCH_SIZE - 1) / MAX_BATCH_SIZE
  {
    if |group| > MAX_BATCH_SIZE {
      ChunksAreFull(group[MAX_BATCH_SIZE..]);
    }
  }

  lemma {:induction false} GreedyFlatten(size: PromptSize, current: Batch, rest: Batch)
    ensures Flatten(Greedy(size, current, rest)) == current + rest
    decreases |rest|
  {
    if rest == [] {
      if current != [] {
        assert Flatten([current]) == current + Flatten([current][1..]);
      }
    } else if current != [] && size(current + [rest[0]]) > MAX_PROMPT_CHARS {
      GreedyFlatten(size, [rest[0]], rest[1..]);
      var tail := Greedy(size, [rest[0]], rest[1..]);
      assert ([current] + tail)[1..] == tail;
      assert rest == [rest[0]] + rest[1..];
    } else {
      GreedyFlatten(size, current + [rest[0]], rest[1..]);
      assert current + rest == (current + [rest[0]]) + rest[1..];
    }
  }

  lemma SplitFlatten(size: PromptSize, group: Batch)
    ensures Flatten(Split(size, group)) == group
  {
    if |group| <= 1 || size(group) <= MAX_PROMPT_CHARS {
      assert Flatten([group]) == group + Flatten([group][1..]);
    } else {
      GreedyFlatten(size, [], group);
    }
  }

  lemma {:induction false} SplitAllFlatten(size: PromptSize, groups: seq<Batch>)
    ensures Flatten(SplitAll(size, groups)) == Flatten(groups)
    decreases |groups|
  {
    if groups != [] {
      var init, last := groups[..|groups| - 1], groups[|groups| - 1];
      SplitAllFlatten(size, init);
      SplitFlatten(size, last);
      FlattenConcat(SplitAll(size, init), Split(size, last));
      FlattenConcat(init, [last]);
      assert groups == init + [last] && Flatten([last]) == last + Flatten([last][1..]);
    }
  }

  lemma OfSourceSnoc(jobs: seq<Job>, a: Batch, x: nat, s: string)
    ensures OfSource(jobs, a + [x], s) == OfSource(jobs, a, s) + if LabelOf(jobs, x) == s then [x] else []
  {
    assert (a + [x])[..|a|] == a;
  }

  lemma {:induction false} OfSourceConcat(jobs: seq<Job>, a: Batch, b: Batch, s: string)
    ensures OfSource(jobs, a + b, s) == OfSource(jobs, a, s) + OfSource(jobs, b, s)
    decreases |b|
  {
    if b == [] {
      assert a + b == a;
    } else {
      var init, last := b[..|b| - 1], b[|b| - 1];
      OfSourceConcat(jobs, a, init, s);
      OfSourceSnoc(jobs, a + init, last, s);
      OfSourceSnoc(jobs, init, last, s);
      assert b == init + [last];
      Associative(a, init, [last]);
      if LabelOf(jobs, last) == s {
        Associative(OfSource(jobs, a, s), OfSource(jobs, init, s), [last]);
      }
    }
  }

  lemma {:induction false} OfSourceTwice(jobs: seq<Job>, indexes: Batch, t: string, s: string)
    ensures OfSource(jobs, OfSource(jobs, indexes, t), s) == if s == t then OfSource(jobs, indexes, t) else []
    decreases |indexes|
  {
    if indexes != [] {
      var init, last := indexes[..|indexes| - 1], indexes[|indexes| - 1];
      OfSourceTwice(jobs, init, t, s);
      OfSourceSnoc(jobs, OfSource(jobs, init, t), last, s);
    }
  }

  lemma FlattenNextSource(jobs: seq<Job>, indexes: Batch, sources: seq<string>)
    requires sources != []
    ensures Flatten(SourceBatches(jobs, indexes, sources))
         == Flatten(SourceBatches(jobs, indexes, sources[..|sources| - 1]))
             + OfSource(jobs, indexes, sources[|sources| - 1])
  {
    var group := OfSource(jobs, indexes, sources[|sources| - 1]);
    FlattenConcat(SourceBatches(jobs, indexes, sources[..|sources| - 1]), Chunks(group));
    ChunksFlatten(group);
  }

  lemma {:induction false} SourceBatchesKeepOrder(jobs: seq<Job>, indexes: Batch, sources: seq<string>, s: string)
    requires forall i, j :: 0 <= i < j < |sources| ==> sources[i] != sources[j]
    ensures OfSource(jobs, Flatten(SourceBatches(jobs, indexes, sources)), s)
         == if s in sources then OfSource(jobs, indexes, s) else []
    decreases |sources|
  {
    if sources != [] {
      var init, t := sources[..|sources| - 1], sources[|sources| - 1];
      SourceBatchesKeepOrder(jobs, indexes, init, s);
      FlattenNextSource(jobs, indexes, sources);
      OfSourceConcat(jobs, Flatten(SourceBatches(jobs, indexes, init)), OfSource(jobs, indexes, t), s);
      OfSourceTwice(jobs, indexes, t, s);
      InitLast(sources);
    }
  }

  /** Within every source the batches, read in order, list exactly the selected indexes in their order. */
  lemma {:induction false} OrderKeptWithinSource(size: PromptSize, jobs: seq<Job>, indexes: Batch, s: string)
    ensures OfSource(jobs, Flatten(FinalBatches(size, jobs, indexes)), s) == OfSource(jobs, indexes, s)
  {
    var sources := Sources(jobs, indexes);
    SplitAllFlatten(size, SourceBatches(jobs, indexes, sources));
    SourceBatchesKeepOrder(jobs, indexes, sources, s);
    if s !in sources {
      SourcesAre(jobs, indexes, s);
    }
  }

  ghost function Bag(batch: Batch): multiset<nat> {
    multiset(batch)
  }

  lemma {:induction false} CountBySource(jobs: seq<Job>, indexes: Batch, index: nat)
    ensures Bag(indexes)[index] == Bag(OfSource(jobs, indexes, LabelOf(jobs, index)))[index]
    decreases |indexes|
  {
    if indexes != [] {
      CountBySource(jobs, indexes[..|indexes| - 1], index);
      assert indexes == indexes[..|indexes| - 1] + [indexes[|indexes| - 1]];
    }
  }

  /** The final batches partition the selected indexes. */
  lemma BatchesPartition(size: PromptSize, jobs: seq<Job>, indexes: Batch)
    ensures Bag(Flatten(FinalBatches(size, jobs, indexes))) == Bag(indexes)
  {
    var flat := Flatten(FinalBatches(size, jobs, indexes));
    forall index: nat ensures Bag(flat)[index] == Bag(indexes)[index] {
      CountBySource(jobs, flat, index);
      CountBySource(jobs, indexes, index);
      OrderKeptWithinSource(size, jobs, indexes, LabelOf(jobs, index));
    }
  }

  /** One trimmed source and one to four jobs. */
  ghost predicate SmallAndUniform(jobs: seq<Job>, batch: Batch) {
    && 1 <= |batch| <= MAX_BATCH_SIZE
    && (forall i, j :: 0 <= i < |batch| && 0 <= j < |batch| ==> LabelOf(jobs, batch[i]) == LabelOf(jobs, batch[j]))
  }

  ghost predicate Fits(size: PromptSize, batch: Batch) {
    |batch| <= 1 || size(batch) <= MAX_PROMPT_CHARS
  }

  lemma {:induction false} ChunksAreSmall(jobs: seq<Job>, group: Batch, s: string)
    requires forall i :: 0 <= i < |group| ==> LabelOf(jobs, group[i]) == s
    ensures forall c :: c in Chunks(group) ==> SmallAndUniform(jobs, c)
  {
    if |group| > MAX_BATCH_SIZE {
      ChunksAreSmall(jobs, group[MAX_BATCH_SIZE..], s);
    }
  }

  lemma {:induction false} SourceBatchesAreSmall(jobs: seq<Job>, indexes: Batch, sources: seq<string>)
    ensures forall c :: c in SourceBatches(jobs, indexes, sources) ==> SmallAndUniform(jobs, c)
    decreases |sources|
  {
    if sources != [] {
      var t := sources[|sources| - 1];
      SourceBatchesAreSmall(jobs, indexes, sources[..|sources| - 1]);
      var group := OfSource(jobs, indexes, t);
      forall i | 0 <= i < |group| ensures LabelOf(jobs, group[i]) == t {
        OfSourceIsPart(jobs, indexes, t, group[i]);
      }
      ChunksAreSmall(jobs, group, t);
    }
  }

  lemma {:induction false} GreedyBatchesFit(size: PromptSize, current: Batch, rest: Batch)
    requires Fits(size, current)
    ensures forall b :: b in Greedy(size, current, rest) ==> Fits(size, b)
    decreases |rest|
  {
    if rest != [] {
      if current != [] && size(current + [rest[0]]) > MAX_PROMPT_CHARS {
        GreedyBatchesFit(size, [rest[0]], rest[1..]);
      } else {
        GreedyBatchesFit(size, current + [rest[0]], rest[1..]);
      }
    }
  }

  /** A part of a split is a non-empty block of what was split. */
  ghost predicate IsBlock(part: Batch, whole: Batch) {
    1 <= |part| <= |whole| && forall i :: 0 <= i < |part| ==> part[i] in whole
  }

  lemma {:induction false} GreedyBatchesAreBlocks(size: PromptSize, current: Batch, rest: Batch, whole: Batch)
    requires whole == current + rest
    ensures forall b :: b in Greedy(size, current, rest) ==> IsBlock(b, whole)
    decreases |rest|
  {
    if rest != [] {
      assert rest == [rest[0]] + rest[1..];
      if current != [] && size(current + [rest[0]]) > MAX_PROMPT_CHARS {
        GreedyBatchesAreBlocks(size, [rest[0]], rest[1..], rest);
        forall b | b in Greedy(size, [rest[0]], rest[1..]) ensures IsBlock(b, whole) {
          assert IsBlock(b, rest);
        }
        assert IsBlock(current, whole);
      } else {
        GreedyBatchesAreBlocks(size, current + [rest[0]], rest[1..], whole);
      }
    }
  }

  lemma SplitIsGood(size: PromptSize, jobs: seq<Job>, group: Batch, b: Batch)
    requires SmallAndUniform(jobs, group) && b in Split(size, group)
    ensures SmallAndUniform(jobs, b) && Fits(size, b)
  {
    if !(|group| <= 1 || size(group) <= MAX_PROMPT_CHARS) {
      GreedyBatchesFit(size, [], group);
      GreedyBatchesAreBlocks(size, [], group, group);
      assert IsBlock(b, group);
    }
  }

  lemma {:induction false} SplitAllIsGood(size: PromptSize, jobs: seq<Job>, groups: seq<Batch>, b: Batch)
    requires forall g :: g in groups ==> SmallAndUniform(jobs, g)
    requires b in SplitAll(size, groups)
    ensures SmallAndUniform(jobs, b) && Fits(size, b)
    decreases |groups|
  {
    if b in Split(size, groups[|groups| - 1]) {
      SplitIsGood(size, jobs, groups[|groups| - 1], b);
    } else {
      SplitAllIsGood(size, jobs, groups[..|groups| - 1], b);
    }
  }

  /** The sources stand in the order in which their first jobs were selected. */
  lemma {:induction false} SourcesByFirstJob(jobs: seq<Job>, indexes: Batch, i: nat, j: nat) returns (p: nat)
    requires i < j < |Sources(jobs, indexes)|
    ensures p < |indexes| && LabelOf(jobs, indexes[p]) == Sources(jobs, indexes)[i]
    ensures forall h :: 0 <= h <= p ==> LabelOf(jobs, indexes[h]) != Sources(jobs, indexes)[j]
    decreases |indexes|
  {
    var m := |indexes| - 1;
    var init := Sources(jobs, indexes[..m]);
    if j < |init| {
      p := SourcesByFirstJob(jobs, indexes[..m], i, j);
      forall h | 0 <= h <= p ensures LabelOf(jobs, indexes[h]) != Sources(jobs, indexes)[j] {
        assert indexes[..m][h] == indexes[h];
      }
    } else {
      p := FirstOfSource(jobs, indexes[..m], init[i]);
      forall h | 0 <= h <= p ensures LabelOf(jobs, indexes[h]) != Sources(jobs, indexes)[j] {
        assert indexes[..m][h] == indexes[h];
        LabelIsListed(jobs, indexes[..m], h);
      }
    }
  }

  lemma {:induction false} FirstOfSource(jobs: seq<Job>, indexes: Batch, s: string) returns (p: nat)
    requires s in Sources(jobs, indexes)
    ensures p < |indexes| && LabelOf(jobs, indexes[p]) == s
    decreases |indexes|
  {
    var m := |indexes| - 1;
    if s in Sources(jobs, indexes[..m]) {
      p := FirstOfSource(jobs, indexes[..m], s);
    } else {
      p := m;
    }
  }

  lemma {:induction false} LabelIsListed(jobs: seq<Job>, indexes: Batch, h: nat)
    requires h < |indexes|
    ensures LabelOf(jobs, indexes[h]) in Sources(jobs, indexes)
    decreases |indexes|
  {
    if h < |indexes| - 1 {
      LabelIsListed(jobs, indexes[..|indexes| - 1], h);
    }
  }

  /** The selected indexes with these sources, source by source. */
  function BySource(jobs: seq<Job>, indexes: Batch, sources: seq<string>): Batch {
    if sources == [] then []
    else BySource(jobs, indexes, sources[..|sources| - 1]) + OfSource(jobs, indexes, sources[|sources| - 1])
  }

  lemma {:induction false} SourceBatchesBySource(jobs: seq<Job>, indexes: Batch, sources: seq<string>)
    ensures Flatten(SourceBatches(jobs, indexes, sources)) == BySource(jobs, indexes, sources)
    decreases |sources|
  {
    if sources != [] {
      var init, last := sources[..|sources| - 1], OfSource(jobs, indexes, sources[|sources| - 1]);
      SourceBatchesBySource(jobs, indexes, init);
      FlattenConcat(SourceBatches(jobs, indexes, init), Chunks(last));
      ChunksFlatten(last);
    }
  }

  /**
    Read one after the other, the final batches are the selected jobs source by source, in the order of the sources.
  */
  lemma {:induction false} BatchesGoBySource(size: PromptSize, jobs: seq<Job>, indexes: Batch)
    ensures Flatten(FinalBatches(size, jobs, indexes)) == BySource(jobs, indexes, Sources(jobs, indexes))
  {
    SplitAllFlatten(size, SourceBatches(jobs, indexes, Sources(jobs, indexes)));
    SourceBatchesBySource(jobs, indexes, Sources(jobs, indexes));
  }

  /** Two jobs are of one source when their trimmed sources are equal, a blank one standing for `unknown`. */
  lemma {:induction false} SameLabelIff(a: string, b: string)
    ensures SourceLabel(a) == SourceLabel(b) <==>
      Trim(a) == Trim(b) || (Trim(a) in {"", "unknown"} && Trim(b) in {"", "unknown"})
  {
  }

  /**
    Every final batch has one to four jobs, all of one trimmed source (a blank one is `unknown`), and with two or more a
    prompt of at most 18000 characters.
  */
  lemma {:induction false} BatchesAreGood(size: PromptSize, jobs: seq<Job>, indexes: Batch, b: Batch)
    requires b in FinalBatches(size, jobs, indexes)
    ensures SmallAndUniform(jobs, b) && Fits(size, b)
    ensures 1 <= |b| <= 4 && (|b| >= 2 ==> size(b) <= 18000)
    ensures forall i, j :: 0 <= i < |b| && 0 <= j < |b| && b[i] < |jobs| && b[j] < |jobs| ==>
              var s, t := Trim(jobs[b[i]].source), Trim(jobs[b[j]].source);
              s == t || (s in {"", "unknown"} && t in {"", "unknown"})
  {
    SourceBatchesAreSmall(jobs, indexes, Sources(jobs, indexes));
    SplitAllIsGood(size, jobs, SourceBatches(jobs, indexes, Sources(jobs, indexes)), b);
    forall i, j | 0 <= i < |b| && 0 <= j < |b| && b[i] < |jobs| && b[j] < |jobs|
      ensures var s, t := Trim(jobs[b[i]].source), Trim(jobs[b[j]].source);
        s == t || (s in {"", "unknown"} && t in {"", "unknown"})
    {
      assert LabelOf(jobs, b[i]) == LabelOf(jobs, b[j]);
      SameLabelIff(jobs[b[i]].source, jobs[b[j]].source);
    }
  }

  // ---- The greedy split is the shortest ----

  /** The prompt never grows on passing to a contiguous sub-block. */
  ghost predicate Monotone(size: PromptSize) {
    forall batch: Batch, i, j :: 0 <= i <= j <= |batch| ==> size(batch[i..j]) <= size(batch)
  }

  /** A contiguous split of `group` whose parts of two or more all fit. */
  ghost predicate FittingSplit(size: PromptSize, parts: seq<Batch>, group: Batch) {
    && Flatten(parts) == group
    && (forall i :: 0 <= i < |parts| ==> parts[i] != [] && Fits(size, parts[i]))
  }

  /** Starting from a shorter open batch saves at most one batch and costs none. */
  lemma {:induction false} ShorterStart(size: PromptSize, long: Batch, k: nat, rest: Batch)
    requires Monotone(size) && k < |long|
    ensures |Greedy(size, long[k..], rest)| <= |Greedy(size, long, rest)| <= 1 + |Greedy(size, long[k..], rest)|
    decreases |rest|
  {
    if rest != [] {
      var short, next := long[k..], [rest[0]];
      var longer := long + next;
      assert short + next == longer[k..|longer|] == longer[k..];
      assert next == longer[|long|..] && next == (short + next)[|short|..];
      if size(longer) <= MAX_PROMPT_CHARS {
        ShorterStart(size, longer, k, rest[1..]);
      } else if size(short + next) <= MAX_PROMPT_CHARS {
        ShorterStart(size, short + next, |short|, rest[1..]);
      }
    }
  }

  /** A block that fits stays open: the greedy split swallows it whole. */
  lemma {:induction false} SwallowsBlock(size: PromptSize, block: Batch, n: nat, rest: Batch)
    requires Monotone(size) && Fits(size, block) && n <= |block|
    ensures Greedy(size, block[..n], block[n..] + rest) == Greedy(size, block, rest)
    decreases |block| - n
  {
    if n == |block| {
      assert block[..n] == block && block[n..] + rest == rest;
    } else {
      var left := block[n..] + rest;
      assert left[0] == block[n] && left[1..] == block[n + 1..] + rest;
      assert block[..n] + [block[n]] == block[..n + 1] == block[0..n + 1];
      SwallowsBlock(size, block, n + 1, rest);
    }
  }

  /** A fitting block followed by the rest costs at most one batch more than the rest. */
  lemma BlockCostsOne(size: PromptSize, block: Batch, rest: Batch)
    requires Monotone(size) && Fits(size, block) && block != []
    ensures |Greedy(size, [], block + rest)| <= 1 + |Greedy(size, [], rest)|
  {
    SwallowsBlock(size, block, 0, rest);
    assert block[..0] == [] && block[0..] == block;
    if rest != [] {
      var longer := block + [rest[0]];
      ShorterStart(size, longer, |block|, rest[1..]);
      assert longer[|block|..] == [rest[0]] == [] + [rest[0]];
    }
  }

  lemma {:induction false} GreedyIsShortest(size: PromptSize, parts: seq<Batch>, group: Batch)
    requires Monotone(size) && FittingSplit(size, parts, group)
    ensures |Greedy(size, [], group)| <= |parts|
    decreases |parts|
  {
    if parts != [] {
      var rest := Flatten(parts[1..]);
      GreedyIsShortest(size, parts[1..], rest);
      BlockCostsOne(size, parts[0], rest);
    }
  }

  /** With a monotone prompt size, no contiguous split that fits has fewer batches. */
  lemma SplitIsShortest(size: PromptSize, parts: seq<Batch>, group: Batch)
    requires Monotone(size) && group != [] && FittingSplit(size, parts, group)
    ensures FittingSplit(size, Split(size, group), group)
    ensures |Split(size, group)| <= |parts|
  {
    GreedyIsShortest(size, parts, group);
    SplitFlatten(size, group);
    GreedyBatchesFit(size, [], group);
    GreedyBatchesAreBlocks(size, [], group, group);
    forall i | 0 <= i < |Split(size, group)| ensures Split(size, group)[i] != [] && Fits(size, Split(size, group)[i]) {
      if !(|group| <= 1 || size(group) <= MAX_PROMPT_CHARS) {
        assert IsBlock(Greedy(size, [], group)[i], group);
      }
    }
  }
}
