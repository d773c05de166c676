/** Jobs, their source and company metadata, and the "fill only what is missing" merge. */
module Jobs {
  import opened Options
  import opened Text

  datatype Evidence = Evidence(value: string, source: string, url: string, confidence: string, provisional: bool,
      reason: string)

  datatype Identity = Identity(website: Option<Evidence>, summary: Option<Evidence>, industry: Option<Evidence>)

  datatype SourceMetadata = SourceMetadata(
    postingURL: string,
    externalApplyURL: string,
    companyProfileURL: string,
    postedLabel: string,
    datePosted: string,
    validThrough: string,
    employmentTypes: seq<string>,
    locations: seq<string>,
    industries: seq<string>,
    skills: seq<string>)

  datatype CompanyMetadata = CompanyMetadata(
    industries: seq<string>,
    employeeRange: string,
    estimatedEmployees: Option<int>,
    foundedYear: Option<int>,
    headquarters: string,
    revenue: string,
    ticker: string,
    exchange: string,
    isPublic: Option<bool>)

  datatype Metadata = Metadata(source: Option<SourceMetadata>, company: Option<CompanyMetadata>)

  datatype Job = Job(
    company: string,
    companyWebsite: string,
    companySummary: string,
    companyIndustry: string,
    companyIdentity: Option<Identity>,
    metadata: Option<Metadata>,
    title: string,
    remote: string,
    compensation: string,
    source: string,
    applyURL: string,
    whyMatches: seq<string>,
    status: string,
    dateAdded: int,
    dateDiscovered: string,
    description: string)

  /** The source's heuristic validity tables; a summary is judged against a company name. */
  datatype Checks = Checks(
    looksLikeWebsite: string -> bool,
    looksLikeSummary: (string, string) -> bool,
    looksLikeIndustry: string -> bool)

  predicate WebsiteMissing(ch: Checks, website: string) {
    Blank(website) || !ch.looksLikeWebsite(website)
  }

  predicate SummaryMissing(ch: Checks, summary: string, company: string) {
    Blank(summary) || !ch.looksLikeSummary(summary, company)
  }

  predicate CompensationMissing(compensation: string) {
    Lower(Trim(compensation)) in {"", "not listed", "n/a", "na"}
  }

  // ---- Unique, trimmed lists ----

  predicate HasFolded(values: seq<string>, value: string) {
    exists i :: 0 <= i < |values| && Lower(values[i]) == Lower(value)
  }

  /** `compactUniqueStrings`: trimmed, blanks dropped, the first of each case-folded value kept. */
  function Compact(values: seq<string>): seq<string> {
    if values == [] then []
    else
      var done, value := Compact(values[..|values| - 1]), Trim(values[|values| - 1]);
      if value == "" || HasFolded(done, value) then done else done + [value]
  }

  /** `appendUniqueNonEmptyStrings`. */
  method AppendUniqueNonEmptyStrings(values: seq<string>, more: seq<string>) returns (out: seq<string>)
    ensures out == Compact(values + more)
  {
    var all := values + more;
    var seen: set<string> := {};
    out := [];
    for n := 0 to |all|
      invariant out == Compact(all[..n])
      invariant forall v: string :: Lower(v) in seen <==> HasFolded(out, v)
      invariant forall k :: k in seen ==> Lower(k) == k
    {
      assert all[..n + 1][..n] == all[..n];
      var value := Trim(all[n]);
      if value == "" || Lower(value) in seen {
        continue;
      }
      ghost var before := out;
      out := out + [value];
      seen := seen + {Lower(value)};
      LowerIdempotent(value);
      forall v: string ensures Lower(v) in seen <==> HasFolded(out, v) {
        AppendFolded(before, value, v);
      }
    }
    assert all[..|all|] == all;
  }

  lemma AppendFolded(values: seq<string>, value: string, v: string)
    ensures HasFolded(values + [value], v) <==> HasFolded(values, v) || Lower(value) == Lower(v)
  {
    var longer := values + [value];
    if HasFolded(values, v) {
      var i :| 0 <= i < |values| && Lower(values[i]) == Lower(v);
      assert longer[i] == values[i];
    }
    if Lower(value) == Lower(v) {
      assert longer[|values|] == value;
    }
  }

  // ---- Single fields ----

  function FillString(target: string, value: string): string {
    if !Blank(target) then target else Trim(value)
  }

  function FillOption<T>(target: Option<T>, value: Option<T>): Option<T> {
    if target.Some? then target else value
  }

  function Plausible(count: Option<int>): Option<int> {
    if count.Some? && count.value < 2 then None else count
  }

  // ---- Records ----

  const BlankSource := SourceMetadata("", "", "", "", "", "", [], [], [], [])
  const BlankCompany := CompanyMetadata([], "", None, None, "", "", "", "", None)

  function NormalizeSource(m: Option<SourceMetadata>): Option<SourceMetadata> {
    if m.None? then None
    else
      var n := SourceMetadata(
        Trim(m.value.postingURL), Trim(m.value.externalApplyURL), Trim(m.value.companyProfileURL),
        Trim(m.value.postedLabel), Trim(m.value.datePosted), Trim(m.value.validThrough),
        Compact(m.value.employmentTypes), Compact(m.value.locations), Compact(m.value.industries),
        Compact(m.value.skills));
      if n == BlankSource then None else Some(n)
  }

  function NormalizeCompany(m: Option<CompanyMetadata>): Option<CompanyMetadata> {
    if m.None? then None
    else
      var n := CompanyMetadata(
        Compact(m.value.industries), Trim(m.value.employeeRange), Plausible(m.value.estimatedEmployees),
        m.value.foundedYear,
        Trim(m.value.headquarters), Trim(m.value.revenue), Upper(Trim(m.value.ticker)), Upper(Trim(m.value.exchange)),
        m.value.isPublic);
      if n == BlankCompany then None else Some(n)
  }

  function NormalizeMetadata(m: Option<Metadata>): Option<Metadata> {
    if m.None? then None
    else
      var source, company := NormalizeSource(m.value.source), NormalizeCompany(m.value.company);
      if source.None? && company.None? then None else Some(Metadata(source, company))
  }

  function SourceOf(m: Option<Metadata>): Option<SourceMetadata> {
    if m.Some? then m.value.source else None
  }

  function CompanyOf(m: Option<Metadata>): Option<CompanyMetadata> {
    if m.Some? then m.value.company else None
  }

  /** The source half of `MergeJobMetadataFields`, before normalization. */
  function FillSource(target: Option<SourceMetadata>, incoming: Option<SourceMetadata>): Option<SourceMetadata> {
    if incoming.None? then target
    else
      var t, a := if target.Some? then target.value else BlankSource, incoming.value;
      Some(SourceMetadata(
        FillString(t.postingURL, a.postingURL),
        FillString(t.externalApplyURL, a.externalApplyURL),
        FillString(t.companyProfileURL, a.companyProfileURL),
        FillString(t.postedLabel, a.postedLabel),
        FillString(t.datePosted, a.datePosted),
        FillString(t.validThrough, a.validThrough),
        Compact(t.employmentTypes + a.employmentTypes),
        Compact(t.locations + a.locations),
        Compact(t.industries + a.industries),
        Compact(t.skills + a.skills)))
  }

  function FillCompany(target: Option<CompanyMetadata>, incoming: Option<CompanyMetadata>): Option<CompanyMetadata> {
    if incoming.None? then target
    else
      var t, a := if target.Some? then target.value else BlankCompany, incoming.value;
      Some(CompanyMetadata(
        Compact(t.industries + a.industries),
        FillString(t.employeeRange, a.employeeRange),
        FillOption(t.estimatedEmployees, a.estimatedEmployees),
        FillOption(t.foundedYear, a.foundedYear),
        FillString(t.headquarters, a.headquarters),
        FillString(t.revenue, a.revenue),
        FillString(t.ticker, a.ticker),
        FillString(t.exchange, a.exchange),
        FillOption(t.isPublic, a.isPublic)))
  }

  /** `MergeJobMetadataFields`: nothing at all without incoming metadata, else fill and normalize. */
  function MergeMetadata(existing: Option<Metadata>, incoming: Option<Metadata>): Option<Metadata> {
    if incoming.None? then existing
    else
      NormalizeMetadata(Some(Metadata(
        FillSource(SourceOf(existing), incoming.value.source),
        FillCompany(CompanyOf(existing), incoming.value.company))))
  }

  predicate Normal(m: Option<Metadata>) {
    NormalizeMetadata(m) == m
  }

  // ---- The identity merge ----

  /** `MergeJobIdentityFields`. */
  function MergeIdentity(ch: Checks, existing: Job, incoming: Job): Job {
    existing.(
      companyWebsite :=
        if WebsiteMissing(ch, existing.companyWebsite) && !WebsiteMissing(ch, incoming.companyWebsite)
        then incoming.companyWebsite else existing.companyWebsite,
      companySummary :=
        if SummaryMissing(ch, existing.companySummary, existing.company) &&
            !SummaryMissing(ch, incoming.companySummary, incoming.company)
        then incoming.companySummary else existing.companySummary,
      companyIndustry :=
        if Blank(existing.companyIndustry) && !Blank(incoming.companyIndustry)
        then incoming.companyIndustry else existing.companyIndustry,
      compensation :=
        if CompensationMissing(existing.compensation) && !CompensationMissing(incoming.compensation)
        then incoming.compensation else existing.compensation,
      description :=
        if Blank(existing.description) && !Blank(incoming.description)
        then incoming.description else existing.description,
      metadata := MergeMetadata(existing.metadata, incoming.metadata))
  }
}
