/** What the identity merge does to each field of a job, said of the fields alone. */
module MergeLaws {
  import opened Options
  import opened Text
  import opened Jobs
  import opened MetadataLaws
  import KeyedMerge

  /** No pay is stated: nothing, or one of three ways to say so. */
  predicate NoPay(text: string) {
    Blank(text) || EqualFold(Trim(text), "not listed") || EqualFold(Trim(text), "n/a") || EqualFold(Trim(text), "na")
  }

  /** `r` is `job` with its gaps among five texts filled from `from`, and `from`'s metadata taken in. */
  ghost predicate Fills(ch: Checks, r: Job, job: Job, from: Job) {
    && r.companyWebsite ==
       (if (Blank(job.companyWebsite) || !ch.looksLikeWebsite(job.companyWebsite))
          && !Blank(from.companyWebsite) && ch.looksLikeWebsite(from.companyWebsite)
        then from.companyWebsite else job.companyWebsite)
    && r.companySummary ==
       (if (Blank(job.companySummary) || !ch.looksLikeSummary(job.companySummary, job.company))
          && !Blank(from.companySummary) && ch.looksLikeSummary(from.companySummary, from.company)
        then from.companySummary else job.companySummary)
    && r.companyIndustry ==
       (if Blank(job.companyIndustry) && !Blank(from.companyIndustry)
        then from.companyIndustry else job.companyIndustry)
    && r.compensation ==
       (if NoPay(job.compensation) && !NoPay(from.compensation) then from.compensation else job.compensation)
    && r.description ==
       (if Blank(job.description) && !Blank(from.description) then from.description else job.description)
    && r.metadata == MergeMetadata(job.metadata, from.metadata)
    && r == job.(companyWebsite := r.companyWebsite, companySummary := r.companySummary,
                 companyIndustry := r.companyIndustry, compensation := r.compensation, description := r.description,
                 metadata := r.metadata)
  }

  lemma WordsForNoPay()
    ensures Lower("not listed") == "not listed" && Lower("n/a") == "n/a" && Lower("na") == "na"
  {
  }

  /** The identity merge fills gaps and nothing else. */
  lemma {:induction false} MergeFills(ch: Checks, job: Job, from: Job)
    ensures Fills(ch, MergeIdentity(ch, job, from), job, from)
  {
    WordsForNoPay();
    forall s: string ensures CompensationMissing(s) <==> NoPay(s) {
      assert Lower(Trim(s)) == "" <==> Trim(s) == "" by { assert |Lower(Trim(s))| == |Trim(s)|; }
    }
  }

  // ---- Metadata, field by field ----

  datatype SourceField = PostingURL | ExternalApplyURL | CompanyProfileURL | PostedLabel | DatePosted | ValidThrough

  datatype SourceList = EmploymentTypes | Locations | SourceIndustries | Skills

  datatype CompanyField = EmployeeRange | Headquarters | Revenue | Ticker | Exchange

  function SourceOrBlank(m: Option<SourceMetadata>): SourceMetadata {
    if m.Some? then m.value else BlankSource
  }

  function CompanyOrBlank(m: Option<CompanyMetadata>): CompanyMetadata {
    if m.Some? then m.value else BlankCompany
  }

  function SourceText(s: SourceMetadata, f: SourceField): string {
    match f
    case PostingURL => s.postingURL
    case ExternalApplyURL => s.externalApplyURL
    case CompanyProfileURL => s.companyProfileURL
    case PostedLabel => s.postedLabel
    case DatePosted => s.datePosted
    case ValidThrough => s.validThrough
  }

  function SourceItems(s: SourceMetadata, f: SourceList): seq<string> {
    match f
    case EmploymentTypes => s.employmentTypes
    case Locations => s.locations
    case SourceIndustries => s.industries
    case Skills => s.skills
  }

  function CompanyText(c: CompanyMetadata, f: CompanyField): string {
    match f
    case EmployeeRange => c.employeeRange
    case Headquarters => c.headquarters
    case Revenue => c.revenue
    case Ticker => c.ticker
    case Exchange => c.exchange
  }

  /** The two halves of metadata, blank where they are absent. */
  function SourceHalf(m: Option<Metadata>): SourceMetadata {
    SourceOrBlank(SourceOf(m))
  }

  function CompanyHalf(m: Option<Metadata>): CompanyMetadata {
    CompanyOrBlank(CompanyOf(m))
  }

  lemma MergedHalves(stored: Option<Metadata>, incoming: Option<Metadata>)
    requires incoming.Some?
    ensures SourceHalf(MergeMetadata(stored, incoming))
         == SourceOrBlank(NormalizeSource(FillSource(SourceOf(stored), SourceOf(incoming))))
    ensures CompanyHalf(MergeMetadata(stored, incoming))
         == CompanyOrBlank(NormalizeCompany(FillCompany(CompanyOf(stored), CompanyOf(incoming))))
  {
  }

  lemma NormalSourceText(s: Option<SourceMetadata>, f: SourceField)
    ensures SourceText(SourceOrBlank(NormalizeSource(s)), f) == Trim(SourceText(SourceOrBlank(s), f))
  {
  }

  lemma FilledSourceText(s: Option<SourceMetadata>, a: Option<SourceMetadata>, f: SourceField)
    ensures var x, y := SourceText(SourceOrBlank(s), f), SourceText(SourceOrBlank(a), f);
      Trim(SourceText(SourceOrBlank(FillSource(s, a)), f)) == Trim(if Blank(x) then y else x)
  {
    TrimIdempotent(SourceText(SourceOrBlank(a), f));
  }

  /** A source text of merged metadata is the stored one, or where that is blank the incoming one, trimmed. */
  lemma {:induction false} MergedSourceText(stored: Option<Metadata>, incoming: Option<Metadata>, f: SourceField)
    requires incoming.Some?
    ensures var x, y := SourceText(SourceHalf(stored), f), SourceText(SourceHalf(incoming), f);
      SourceText(SourceHalf(MergeMetadata(stored, incoming)), f) == Trim(if Blank(x) then y else x)
  {
    MergedHalves(stored, incoming);
    NormalSourceText(FillSource(SourceOf(stored), SourceOf(incoming)), f);
    FilledSourceText(SourceOf(stored), SourceOf(incoming), f);
  }

  function Written(f: CompanyField, text: string): string {
    if f.Ticker? || f.Exchange? then Upper(Trim(text)) else Trim(text)
  }

  lemma NormalCompanyText(c: Option<CompanyMetadata>, f: CompanyField)
    ensures CompanyText(CompanyOrBlank(NormalizeCompany(c)), f) == Written(f, CompanyText(CompanyOrBlank(c), f))
  {
  }

  lemma FilledCompanyText(c: Option<CompanyMetadata>, a: Option<CompanyMetadata>, f: CompanyField)
    ensures var x, y := CompanyText(CompanyOrBlank(c), f), CompanyText(CompanyOrBlank(a), f);
      Trim(CompanyText(CompanyOrBlank(FillCompany(c, a)), f)) == Trim(if Blank(x) then y else x)
  {
    TrimIdempotent(CompanyText(CompanyOrBlank(a), f));
  }

  /** A company text likewise; ticker and exchange are written in upper case. */
  lemma {:induction false} MergedCompanyText(stored: Option<Metadata>, incoming: Option<Metadata>, f: CompanyField)
    requires incoming.Some?
    ensures var x, y := CompanyText(CompanyHalf(stored), f), CompanyText(CompanyHalf(incoming), f);
      var given := Trim(if Blank(x) then y else x);
      CompanyText(CompanyHalf(MergeMetadata(stored, incoming)), f)
        == if f.Ticker? || f.Exchange? then Upper(given) else given
  {
    MergedHalves(stored, incoming);
    NormalCompanyText(FillCompany(CompanyOf(stored), CompanyOf(incoming)), f);
    FilledCompanyText(CompanyOf(stored), CompanyOf(incoming), f);
  }

  lemma NormalItems(s: Option<SourceMetadata>, c: Option<CompanyMetadata>, f: SourceList)
    ensures SourceItems(SourceOrBlank(NormalizeSource(s)), f) == Compact(SourceItems(SourceOrBlank(s), f))
    ensures CompanyOrBlank(NormalizeCompany(c)).industries == Compact(CompanyOrBlank(c).industries)
  {
  }

  lemma CompactTwice(x: seq<string>, y: seq<string>)
    ensures Compact(Compact(x + y)) == Compact(x + y) && Compact(x + []) == Compact(x)
  {
    CompactIsCompact(x + y);
    CompactFixed(Compact(x + y));
    assert x + [] == x;
  }

  /** A list of merged metadata is the stored one followed by the incoming one, compacted. */
  lemma {:induction false} MergedLists(stored: Option<Metadata>, incoming: Option<Metadata>, f: SourceList)
    requires incoming.Some?
    ensures SourceItems(SourceHalf(MergeMetadata(stored, incoming)), f)
         == Compact(SourceItems(SourceHalf(stored), f) + SourceItems(SourceHalf(incoming), f))
    ensures CompanyHalf(MergeMetadata(stored, incoming)).industries
         == Compact(CompanyHalf(stored).industries + CompanyHalf(incoming).industries)
  {
    MergedHalves(stored, incoming);
    var company := FillCompany(CompanyOf(stored), CompanyOf(incoming));
    NormalItems(FillSource(SourceOf(stored), SourceOf(incoming)), company, f);
    CompactTwice(SourceItems(SourceHalf(stored), f), SourceItems(SourceHalf(incoming), f));
    CompactTwice(CompanyHalf(stored).industries, CompanyHalf(incoming).industries);
  }

  /** The first of two given numbers or flags stays; a merged employee count under 2 is dropped. */
  lemma {:induction false} MergedNumbers(stored: Option<Metadata>, incoming: Option<Metadata>)
    requires incoming.Some?
    ensures var e, a, r := CompanyHalf(stored), CompanyHalf(incoming), CompanyHalf(MergeMetadata(stored, incoming));
      && r.foundedYear == (if e.foundedYear.Some? then e.foundedYear else a.foundedYear)
      && r.isPublic == (if e.isPublic.Some? then e.isPublic else a.isPublic)
      && var count := if e.estimatedEmployees.Some? then e.estimatedEmployees else a.estimatedEmployees;
         r.estimatedEmployees == if count.Some? && count.value < 2 then None else count
  {
  }

  /** Without incoming metadata nothing changes at all. */
  lemma MergedNothing(stored: Option<Metadata>)
    ensures MergeMetadata(stored, None) == stored
  {
  }
}
