/**
  The algebra of the metadata merge. Every field but one obeys three laws: merging a value again changes
  nothing, merging what the target started from changes nothing, and what is absorbed once stays absorbed.
  The employee count does not: an implausible count blocks the incoming one and is then dropped, so the
  same merge made again brings the incoming count in.
*/
module MetadataLaws {
  import opened Options
  import opened Text
  import opened Jobs

  // ---- Lists ----

  predicate IsCompact(values: seq<string>) {
    && (forall i :: 0 <= i < |values| ==> values[i] != "" && Trimmed(values[i]))
    && (forall i, j :: 0 <= i < j < |values| ==> Lower(values[i]) != Lower(values[j]))
  }

  /** Every non-blank value of `more` is already in `values`, up to case and outer space. */
  ghost predicate Covers(values: seq<string>, more: seq<string>) {
    forall i :: 0 <= i < |more| && Trim(more[i]) != "" ==> HasFolded(values, Trim(more[i]))
  }

  lemma {:induction false} CompactIsCompact(values: seq<string>)
    ensures IsCompact(Compact(values)) && Covers(Compact(values), values)
  {
    if values != [] {
      var init, last := values[..|values| - 1], values[|values| - 1];
      CompactIsCompact(init);
      TrimIsTrimmed(last);
      forall i | 0 <= i < |values| && Trim(values[i]) != "" ensures HasFolded(Compact(values), Trim(values[i])) {
        AppendFolded(Compact(init), Trim(last), Trim(values[i]));
        if i < |values| - 1 {
          assert values[i] == init[i];
        }
      }
    }
  }

  lemma {:induction false} CompactFixed(values: seq<string>)
    requires IsCompact(values)
    ensures Compact(values) == values
  {
    if values != [] {
      var init, last := values[..|values| - 1], values[|values| - 1];
      CompactFixed(init);
      TrimmedIsFixed(last);
      assert values == init + [last];
    }
  }

  /** Appending only makes a compact list longer at its end. */
  lemma {:induction false} CompactGrows(values: seq<string>, more: seq<string>)
    ensures Compact(values) <= Compact(values + more)
    ensures Covers(Compact(values), more) ==> Compact(values + more) == Compact(values)
    decreases |more|
  {
    if more == [] {
      assert values + more == values;
    } else {
      var init, last := more[..|more| - 1], more[|more| - 1];
      CompactGrows(values, init);
      assert (values + more)[..|values + more| - 1] == values + init;
      if Covers(Compact(values), more) {
        assert Covers(Compact(values), init);
        assert last == more[|more| - 1];
      }
    }
  }

  lemma {:induction false} CoversLonger(shorter: seq<string>, longer: seq<string>, more: seq<string>)
    requires shorter <= longer && Covers(shorter, more)
    ensures Covers(longer, more)
  {
    forall i | 0 <= i < |more| && Trim(more[i]) != "" ensures HasFolded(longer, Trim(more[i])) {
      var k :| 0 <= k < |shorter| && Lower(shorter[k]) == Lower(Trim(more[i]));
      assert longer[k] == shorter[k];
    }
  }

  function MergeList(t: seq<string>, a: seq<string>): seq<string> {
    Compact(Compact(t + a))
  }

  lemma {:induction false} ListLaws(t: seq<string>, a: seq<string>, b: seq<string>)
    ensures var m := MergeList(t, a); MergeList(m, a) == m && MergeList(m, t) == m
    ensures MergeList(t, a) == t ==> var m := MergeList(t, b); MergeList(m, a) == m
  {
    ListAbsorbs(t, a, a);
    ListAbsorbs(t, a, t);
    if MergeList(t, a) == t {
      MergeListCovers(t, a);
      MergeListCovers(t, b);
      CompactIsCompact(Compact(t + a));
      CompactFixed(t);
      CompactIsCompact(t + b);
      CompactFixed(Compact(t + b));
      CompactGrows(t, b);
      CoversLonger(t, MergeList(t, b), a);
      MergeCovered(MergeList(t, b), a);
    }
  }

  lemma {:induction false} MergeListCovers(t: seq<string>, a: seq<string>)
    ensures IsCompact(MergeList(t, a)) && Covers(MergeList(t, a), a) && Covers(MergeList(t, a), t)
  {
    CompactIsCompact(t + a);
    CompactFixed(Compact(t + a));
    var m := MergeList(t, a);
    forall i | 0 <= i < |a| && Trim(a[i]) != "" ensures HasFolded(m, Trim(a[i])) {
      assert (t + a)[|t| + i] == a[i];
    }
    forall i | 0 <= i < |t| && Trim(t[i]) != "" ensures HasFolded(m, Trim(t[i])) {
      assert (t + a)[i] == t[i];
    }
  }

  lemma {:induction false} MergeCovered(m: seq<string>, a: seq<string>)
    requires IsCompact(m) && Covers(m, a)
    ensures MergeList(m, a) == m
  {
    CompactFixed(m);
    CompactGrows(m, a);
  }

  lemma {:induction false} ListAbsorbs(t: seq<string>, a: seq<string>, x: seq<string>)
    requires x == a || x == t
    ensures MergeList(MergeList(t, a), x) == MergeList(t, a)
  {
    MergeListCovers(t, a);
    MergeCovered(MergeList(t, a), x);
  }

  // ---- Strings ----

  /**
    A merged string field is stable: under the same value, under one it already held out against, and under its
    own past.
  */
  lemma {:induction false} StringLaws(t: string, a: string, b: string)
    ensures var m := Trim(FillString(t, a)); Trim(FillString(m, a)) == m && Trim(FillString(m, t)) == m
    ensures Trim(FillString(t, a)) == t ==> var m := Trim(FillString(t, b)); Trim(FillString(m, a)) == m
  {
    TrimIdempotent(t);
    TrimIdempotent(a);
    TrimIdempotent(b);
  }

  lemma {:induction false} CodeLaws(t: string, a: string, b: string)
    ensures var m := Upper(Trim(FillString(t, a)));
      Upper(Trim(FillString(m, a))) == m && Upper(Trim(FillString(m, t))) == m
    ensures var m := Upper(Trim(FillString(t, b)));
      Upper(Trim(FillString(t, a))) == t ==> Upper(Trim(FillString(m, a))) == m
  {
    CodeFixed(t);
    CodeFixed(a);
    CodeFixed(b);
    TrimIdempotent(t);
    TrimIdempotent(a);
    TrimIdempotent(b);
  }

  lemma {:induction false} CodeFixed(s: string)
    ensures Upper(Trim(Upper(Trim(s)))) == Upper(Trim(s)) && Trim(Upper(Trim(s))) == Upper(Trim(s))
  {
    TrimIsTrimmed(s);
    UpperKeepsTrimmed(Trim(s));
    TrimmedIsFixed(Upper(Trim(s)));
    UpperIdempotent(Trim(s));
  }

  // ---- Records: everything but the employee count, and the count ----

  /** The metadata without its count; an absent record reads as a blank one. */
  datatype Rest = Rest(source: SourceMetadata, company: CompanyMetadata)

  function RestOf(m: Option<Metadata>): Rest {
    Rest(if SourceOf(m).Some? then SourceOf(m).value else BlankSource,
         if CompanyOf(m).Some? then CompanyOf(m).value.(estimatedEmployees := None) else BlankCompany)
  }

  function CountOf(m: Option<Metadata>): Option<int> {
    if CompanyOf(m).Some? then CompanyOf(m).value.estimatedEmployees else None
  }

  function JoinSource(t: SourceMetadata, a: SourceMetadata): SourceMetadata {
    SourceMetadata(
      Trim(FillString(t.postingURL, a.postingURL)),
      Trim(FillString(t.externalApplyURL, a.externalApplyURL)),
      Trim(FillString(t.companyProfileURL, a.companyProfileURL)),
      Trim(FillString(t.postedLabel, a.postedLabel)),
      Trim(FillString(t.datePosted, a.datePosted)),
      Trim(FillString(t.validThrough, a.validThrough)),
      MergeList(t.employmentTypes, a.employmentTypes),
      MergeList(t.locations, a.locations),
      MergeList(t.industries, a.industries),
      MergeList(t.skills, a.skills))
  }

  function JoinCompany(t: CompanyMetadata, a: CompanyMetadata): CompanyMetadata {
    CompanyMetadata(
      MergeList(t.industries, a.industries),
      Trim(FillString(t.employeeRange, a.employeeRange)),
      None,
      FillOption(t.foundedYear, a.foundedYear),
      Trim(FillString(t.headquarters, a.headquarters)),
      Trim(FillString(t.revenue, a.revenue)),
      Upper(Trim(FillString(t.ticker, a.ticker))),
      Upper(Trim(FillString(t.exchange, a.exchange))),
      FillOption(t.isPublic, a.isPublic))
  }

  function JoinRest(t: Rest, a: Rest): Rest {
    Rest(JoinSource(t.source, a.source), JoinCompany(t.company, a.company))
  }

  function JoinCount(t: Option<int>, a: Option<int>): Option<int> {
    Plausible(FillOption(t, a))
  }

  lemma {:induction false} SourceLaws(t: SourceMetadata, a: SourceMetadata, b: SourceMetadata)
    ensures var m := JoinSource(t, a); JoinSource(m, a) == m && JoinSource(m, t) == m
    ensures JoinSource(t, a) == t ==> var m := JoinSource(t, b); JoinSource(m, a) == m
  {
    StringLaws(t.postingURL, a.postingURL, b.postingURL);
    StringLaws(t.externalApplyURL, a.externalApplyURL, b.externalApplyURL);
    StringLaws(t.companyProfileURL, a.companyProfileURL, b.companyProfileURL);
    StringLaws(t.postedLabel, a.postedLabel, b.postedLabel);
    StringLaws(t.datePosted, a.datePosted, b.datePosted);
    StringLaws(t.validThrough, a.validThrough, b.validThrough);
    ListLaws(t.employmentTypes, a.employmentTypes, b.employmentTypes);
    ListLaws(t.locations, a.locations, b.locations);
    ListLaws(t.industries, a.industries, b.industries);
    ListLaws(t.skills, a.skills, b.skills);
  }

  lemma {:induction false} CompanyLaws(t: CompanyMetadata, a: CompanyMetadata, b: CompanyMetadata)
    ensures var m := JoinCompany(t, a); JoinCompany(m, a) == m && JoinCompany(m, t) == m
    ensures JoinCompany(t, a) == t ==> var m := JoinCompany(t, b); JoinCompany(m, a) == m
  {
    ListLaws(t.industries, a.industries, b.industries);
    StringLaws(t.employeeRange, a.employeeRange, b.employeeRange);
    StringLaws(t.headquarters, a.headquarters, b.headquarters);
    StringLaws(t.revenue, a.revenue, b.revenue);
    CodeLaws(t.ticker, a.ticker, b.ticker);
    CodeLaws(t.exchange, a.exchange, b.exchange);
  }

  lemma {:induction false} RestLaws(t: Rest, a: Rest, b: Rest)
    ensures var m := JoinRest(t, a); JoinRest(m, a) == m && JoinRest(m, t) == m
    ensures JoinRest(t, a) == t ==> var m := JoinRest(t, b); JoinRest(m, a) == m
  {
    SourceLaws(t.source, a.source, b.source);
    CompanyLaws(t.company, a.company, b.company);
  }

  /** A merge result never stores a blank record, so its parts determine it. */
  predicate Proper(m: Option<Metadata>) {
    && SourceOf(m) != Some(BlankSource)
    && CompanyOf(m) != Some(BlankCompany)
    && (m.Some? ==> m.value.source.Some? || m.value.company.Some?)
  }

  lemma {:induction false} PartsDetermine(m: Option<Metadata>, n: Option<Metadata>)
    requires Proper(m) && Proper(n) && RestOf(m) == RestOf(n) && CountOf(m) == CountOf(n)
    ensures m == n
  {
    if CompanyOf(m).Some? {
      CountPutBack(CompanyOf(m).value);
    }
    if CompanyOf(n).Some? {
      CountPutBack(CompanyOf(n).value);
    }
  }

  lemma {:induction false} CountPutBack(c: CompanyMetadata)
    ensures c == c.(estimatedEmployees := None).(estimatedEmployees := c.estimatedEmployees)
  {
  }

  lemma {:induction false} MergeListEmpty(t: seq<string>)
    ensures MergeList(t, []) == Compact(t)
  {
    assert t + [] == t;
    CompactIsCompact(t);
    CompactFixed(Compact(t));
  }

  lemma {:induction false} SourceSplits(t: Option<SourceMetadata>, a: Option<SourceMetadata>)
    ensures var n, j := NormalizeSource(FillSource(t, a)), JoinSource(OrBlankSource(t), OrBlankSource(a));
            n == if j == BlankSource then None else Some(j)
  {
    if a.None? {
      var s := OrBlankSource(t);
      MergeListEmpty(s.employmentTypes);
      MergeListEmpty(s.locations);
      MergeListEmpty(s.industries);
      MergeListEmpty(s.skills);
    }
  }

  function OrBlankSource(m: Option<SourceMetadata>): SourceMetadata {
    if m.Some? then m.value else BlankSource
  }

  function OrBlankCompany(m: Option<CompanyMetadata>): CompanyMetadata {
    if m.Some? then m.value else BlankCompany
  }

  function Uncounted(m: Option<CompanyMetadata>): CompanyMetadata {
    OrBlankCompany(m).(estimatedEmployees := None)
  }

  lemma {:induction false} CompanySplits(t: Option<CompanyMetadata>, a: Option<CompanyMetadata>)
    ensures var n := NormalizeCompany(FillCompany(t, a));
      && n != Some(BlankCompany)
      && Uncounted(n) == JoinCompany(Uncounted(t), Uncounted(a))
      && OrBlankCompany(n).estimatedEmployees
         == JoinCount(OrBlankCompany(t).estimatedEmployees, OrBlankCompany(a).estimatedEmployees)
  {
    if a.None? {
      MergeListEmpty(OrBlankCompany(t).industries);
    }
  }

  /** A merge with metadata acts on the two parts separately. */
  lemma {:induction false} MergeSplits(e: Option<Metadata>, a: Option<Metadata>)
    requires a.Some?
    ensures Proper(MergeMetadata(e, a))
    ensures RestOf(MergeMetadata(e, a)) == JoinRest(RestOf(e), RestOf(a))
    ensures CountOf(MergeMetadata(e, a)) == JoinCount(CountOf(e), CountOf(a))
  {
    SourceSplits(SourceOf(e), a.value.source);
    CompanySplits(CompanyOf(e), a.value.company);
    MergeHalves(e, a.value);
    assert Uncounted(CompanyOf(MergeMetadata(e, a))) == RestOf(MergeMetadata(e, a)).company;
    assert Uncounted(CompanyOf(e)) == RestOf(e).company && Uncounted(CompanyOf(a)) == RestOf(a).company;
  }

  lemma {:induction false} MergeHalves(e: Option<Metadata>, a: Metadata)
    ensures SourceOf(MergeMetadata(e, Some(a))) == NormalizeSource(FillSource(SourceOf(e), a.source))
    ensures CompanyOf(MergeMetadata(e, Some(a))) == NormalizeCompany(FillCompany(CompanyOf(e), a.company))
    ensures var m := MergeMetadata(e, Some(a)); m.Some? ==> m.value.source.Some? || m.value.company.Some?
  {
  }

  lemma {:induction false} MergeListSelf(t: seq<string>)
    ensures MergeList(t, t) == Compact(t)
  {
    CompactIsCompact(t);
    CompactGrows(t, t);
    CompactFixed(Compact(t));
  }

  lemma {:induction false} SelfSource(m: Option<SourceMetadata>)
    ensures NormalizeSource(FillSource(m, m)) == NormalizeSource(m)
  {
    if m.Some? {
      MergeListSelf(m.value.employmentTypes);
      MergeListSelf(m.value.locations);
      MergeListSelf(m.value.industries);
      MergeListSelf(m.value.skills);
      SourceSplits(m, m);
    }
  }

  lemma {:induction false} SelfCompany(m: Option<CompanyMetadata>)
    ensures NormalizeCompany(FillCompany(m, m)) == NormalizeCompany(m)
  {
    if m.Some? {
      MergeListSelf(m.value.industries);
    }
  }

  /** Merging metadata into itself is normalizing it. */
  lemma {:induction false} SelfMergeNormalizes(m: Option<Metadata>)
    ensures MergeMetadata(m, m) == NormalizeMetadata(m)
  {
    if m.Some? {
      SelfSource(m.value.source);
      SelfCompany(m.value.company);
    }
  }

  // ---- Folding a batch into one job's metadata ----

  function FoldMetadata(start: Option<Metadata>, batch: seq<Option<Metadata>>): Option<Metadata>
    decreases |batch|
  {
    if batch == [] then start else FoldMetadata(MergeMetadata(start, batch[0]), batch[1..])
  }

  function FoldRest(start: Rest, batch: seq<Option<Metadata>>): Rest
    decreases |batch|
  {
    if batch == [] then start
    else FoldRest(if batch[0].Some? then JoinRest(start, RestOf(batch[0])) else start, batch[1..])
  }

  function FoldCount(start: Option<int>, batch: seq<Option<Metadata>>): Option<int>
    decreases |batch|
  {
    if batch == [] then start
    else FoldCount(if batch[0].Some? then JoinCount(start, CountOf(batch[0])) else start, batch[1..])
  }

  lemma {:induction false} FoldSplits(start: Option<Metadata>, batch: seq<Option<Metadata>>)
    ensures RestOf(FoldMetadata(start, batch)) == FoldRest(RestOf(start), batch)
    ensures CountOf(FoldMetadata(start, batch)) == FoldCount(CountOf(start), batch)
    ensures Proper(start) || (exists i :: 0 <= i < |batch| && batch[i].Some?) ==> Proper(FoldMetadata(start, batch))
    decreases |batch|
  {
    if batch != [] {
      if batch[0].Some? {
        MergeSplits(start, batch[0]);
      }
      FoldSplits(MergeMetadata(start, batch[0]), batch[1..]);
      forall i | 0 <= i < |batch| && batch[i].Some? && batch[0].None?
        ensures exists j :: 0 <= j < |batch[1..]| && batch[1..][j].Some?
      {
        assert batch[1..][i - 1].Some?;
      }
    }
  }

  /** What is absorbed stays absorbed over a fold. */
  lemma {:induction false} FoldStaysAbsorbing(r: Rest, a: Rest, batch: seq<Option<Metadata>>)
    requires JoinRest(r, a) == r
    ensures JoinRest(FoldRest(r, batch), a) == FoldRest(r, batch)
    decreases |batch|
  {
    if batch != [] {
      if batch[0].Some? {
        RestLaws(r, a, RestOf(batch[0]));
        FoldStaysAbsorbing(JoinRest(r, RestOf(batch[0])), a, batch[1..]);
      } else {
        FoldStaysAbsorbing(r, a, batch[1..]);
      }
    }
  }

  lemma {:induction false} FoldAbsorbsBatch(r: Rest, batch: seq<Option<Metadata>>, i: nat)
    requires i < |batch| && batch[i].Some?
    ensures JoinRest(FoldRest(r, batch), RestOf(batch[i])) == FoldRest(r, batch)
    decreases |batch|
  {
    var next := if batch[0].Some? then JoinRest(r, RestOf(batch[0])) else r;
    if i == 0 {
      RestLaws(r, RestOf(batch[0]), RestOf(batch[0]));
      FoldStaysAbsorbing(next, RestOf(batch[0]), batch[1..]);
    } else {
      FoldAbsorbsBatch(next, batch[1..], i - 1);
      assert batch[1..][i - 1] == batch[i];
    }
  }

  /** What the fold started from is absorbed too, once anything was merged. */
  lemma {:induction false} FoldAbsorbsStart(r: Rest, batch: seq<Option<Metadata>>)
    requires exists i :: 0 <= i < |batch| && batch[i].Some?
    ensures JoinRest(FoldRest(r, batch), r) == FoldRest(r, batch)
    decreases |batch|
  {
    if batch[0].Some? {
      RestLaws(r, RestOf(batch[0]), RestOf(batch[0]));
      FoldStaysAbsorbing(JoinRest(r, RestOf(batch[0])), r, batch[1..]);
    } else {
      var i :| 0 <= i < |batch| && batch[i].Some?;
      assert batch[1..][i - 1].Some?;
      FoldAbsorbsStart(r, batch[1..]);
    }
  }

  lemma {:induction false} AbsorbedFoldIsIdentity(r: Rest, batch: seq<Option<Metadata>>)
    requires forall i :: 0 <= i < |batch| && batch[i].Some? ==> JoinRest(r, RestOf(batch[i])) == r
    ensures FoldRest(r, batch) == r
    decreases |batch|
  {
    if batch != [] {
      assert batch[0].Some? ==> JoinRest(r, RestOf(batch[0])) == r;
      forall i | 0 <= i < |batch[1..]| && batch[1..][i].Some? ensures JoinRest(r, RestOf(batch[1..][i])) == r {
        assert batch[1..][i] == batch[i + 1];
      }
      AbsorbedFoldIsIdentity(r, batch[1..]);
    }
  }

  lemma {:induction false} RestRepeats(r: Rest, batch: seq<Option<Metadata>>)
    ensures FoldRest(FoldRest(r, batch), batch) == FoldRest(r, batch)
  {
    forall i | 0 <= i < |batch| && batch[i].Some?
      ensures JoinRest(FoldRest(r, batch), RestOf(batch[i])) == FoldRest(r, batch)
    {
      FoldAbsorbsBatch(r, batch, i);
    }
    AbsorbedFoldIsIdentity(FoldRest(r, batch), batch);
  }

  // ---- The employee count ----

  predicate Implausible(count: Option<int>) {
    count.Some? && count.value < 2
  }

  predicate OffersCount(m: Option<Metadata>) {
    m.Some? && Plausible(CountOf(m)).Some?
  }

  /**
    The one way a repeated merge still changes something: the job starts with a count under 2, the first
    metadata merged into it offers a plausible count, and no later one does.
  */
  predicate CountArrivesLate(start: Option<int>, batch: seq<Option<Metadata>>)
    decreases |batch|
  {
    && Implausible(start)
    && batch != []
    && (if batch[0].None? then CountArrivesLate(start, batch[1..])
        else OffersCount(batch[0]) && forall i :: 1 <= i < |batch| ==> !OffersCount(batch[i]))
  }

  lemma {:induction false} PlausibleCountStays(x: Option<int>, batch: seq<Option<Metadata>>)
    requires x.Some? && x.value >= 2
    ensures FoldCount(x, batch) == x
    decreases |batch|
  {
    if batch != [] {
      PlausibleCountStays(x, batch[1..]);
    }
  }

  lemma {:induction false} FirstOfferWins(batch: seq<Option<Metadata>>)
    ensures FoldCount(None, batch).None? <==> forall i :: 0 <= i < |batch| ==> !OffersCount(batch[i])
    ensures FoldCount(None, batch).Some? ==> FoldCount(None, batch).value >= 2
    decreases |batch|
  {
    if batch != [] {
      var x: Option<int> := if batch[0].Some? then JoinCount(None, CountOf(batch[0])) else None;
      if x.Some? {
        assert OffersCount(batch[0]);
        PlausibleCountStays(x, batch[1..]);
      } else {
        FirstOfferWins(batch[1..]);
        forall i | 0 <= i < |batch| ensures OffersCount(batch[i]) <==> i > 0 && OffersCount(batch[1..][i - 1]) {
        }
        forall i | 0 <= i < |batch[1..]| ensures batch[1..][i] == batch[i + 1] {
        }
      }
    }
  }

  lemma {:induction false} CountRepeats(x: Option<int>, batch: seq<Option<Metadata>>)
    requires exists i :: 0 <= i < |batch| && batch[i].Some?
    ensures FoldCount(FoldCount(x, batch), batch) == FoldCount(x, batch) <==> !CountArrivesLate(x, batch)
    decreases |batch|
  {
    FirstOfferWins(batch);
    if x.Some? && x.value >= 2 {
      PlausibleCountStays(x, batch);
    } else if x.None? {
      if FoldCount(None, batch).Some? {
        PlausibleCountStays(FoldCount(None, batch), batch);
      }
    } else if batch[0].None? {
      var i :| 0 <= i < |batch| && batch[i].Some?;
      assert batch[1..][i - 1].Some?;
      CountRepeats(x, batch[1..]);
    } else {
      FirstOfferWins(batch[1..]);
      forall i | 0 <= i < |batch[1..]| ensures batch[1..][i] == batch[i + 1] {
      }
      var y := FoldCount(x, batch);
      assert y == FoldCount(None, batch[1..]);
      if y.Some? {
        PlausibleCountStays(y, batch);
      }
    }
  }

  predicate AnyMetadata(batch: seq<Option<Metadata>>) {
    exists i :: 0 <= i < |batch| && batch[i].Some?
  }

  lemma {:induction false} NoMetadataNoChange(m: Option<Metadata>, batch: seq<Option<Metadata>>)
    requires !AnyMetadata(batch)
    ensures FoldMetadata(m, batch) == m
    decreases |batch|
  {
    if batch != [] {
      assert batch[0].None?;
      assert forall i :: 0 <= i < |batch[1..]| ==> batch[1..][i] == batch[i + 1];
      NoMetadataNoChange(m, batch[1..]);
    }
  }

  /** Folding the same batch into the result changes nothing, except exactly when a count arrives late. */
  lemma {:induction false} MetadataRepeats(m: Option<Metadata>, batch: seq<Option<Metadata>>)
    ensures FoldMetadata(FoldMetadata(m, batch), batch) == FoldMetadata(m, batch) <==>
            !(AnyMetadata(batch) && CountArrivesLate(CountOf(m), batch))
  {
    if AnyMetadata(batch) {
      var once := FoldMetadata(m, batch);
      var twice := FoldMetadata(once, batch);
      FoldSplits(m, batch);
      FoldSplits(once, batch);
      RestRepeats(RestOf(m), batch);
      CountRepeats(CountOf(m), batch);
      if CountOf(twice) == CountOf(once) {
        PartsDetermine(twice, once);
      }
    } else {
      NoMetadataNoChange(m, batch);
    }
  }

  /** The same when the batch comes again together with the metadata the job was first added with. */
  lemma {:induction false} AddedMetadataRepeats(m: Option<Metadata>, batch: seq<Option<Metadata>>)
    ensures FoldMetadata(FoldMetadata(m, batch), [m] + batch) == FoldMetadata(m, batch) <==>
            if AnyMetadata(batch) then !CountArrivesLate(CountOf(m), batch) else Normal(m)
  {
    var once := FoldMetadata(m, batch);
    assert ([m] + batch)[1..] == batch;
    var mid := MergeMetadata(once, m);
    if AnyMetadata(batch) {
      FoldSplits(m, batch);
      FoldAbsorbsStart(RestOf(m), batch);
      FirstOfferWins(batch);
      if m.Some? {
        MergeSplits(once, m);
      }
      CountRepeats(CountOf(m), batch);
      StartCountIsSpent(CountOf(m), batch);
      PartsDetermine(mid, once);
      MetadataRepeats(m, batch);
    } else {
      NoMetadataNoChange(m, batch);
      NoMetadataNoChange(mid, batch);
      SelfMergeNormalizes(m);
    }
  }

  lemma {:induction false} StartCountIsSpent(x: Option<int>, batch: seq<Option<Metadata>>)
    requires AnyMetadata(batch)
    ensures JoinCount(FoldCount(x, batch), x) == FoldCount(x, batch)
    decreases |batch|
  {
    if x.Some? && x.value >= 2 {
      PlausibleCountStays(x, batch);
    } else if x.None? {
      FirstOfferWins(batch);
    } else if batch[0].None? {
      var i :| 0 <= i < |batch| && batch[i].Some?;
      assert batch[1..][i - 1].Some?;
      StartCountIsSpent(x, batch[1..]);
    } else {
      FirstOfferWins(batch[1..]);
    }
  }

  /** A single merge made twice, with the input on which the second one still changes the count. */
  lemma {:induction false} LateCountExample()
    ensures var company := BlankCompany.(estimatedEmployees := Some(1), headquarters := "Oslo");
            var stored := Some(Metadata(None, Some(company)));
            var fetched := Some(Metadata(None, Some(BlankCompany.(estimatedEmployees := Some(250)))));
            && CountOf(MergeMetadata(stored, fetched)) == None
            && CountOf(MergeMetadata(MergeMetadata(stored, fetched), fetched)) == Some(250)
  {
    var stored := Some(Metadata(None, Some(BlankCompany.(estimatedEmployees := Some(1), headquarters := "Oslo"))));
    var fetched := Some(Metadata(None, Some(BlankCompany.(estimatedEmployees := Some(250)))));
    MergeSplits(stored, fetched);
    MergeSplits(MergeMetadata(stored, fetched), fetched);
  }
}
