/**
  Company Health evidence: candidates for the founded year and the employee count, accepted, rejected or in
  conflict.
*/
module FieldEvidence {
  import opened Options

  datatype Kind = FoundedYear | EmployeeCount

  datatype Status = Gap | Estimated | Confirmed | Conflict

  datatype Candidate = Candidate(value: int, source: string, url: string, confidence: string, reason: string)

  datatype Evidence = Evidence(candidate: Candidate, accepted: bool)

  datatype Note =
    | Reason(text: string)
    | Conflicting(source: string, candidate: int, current: int)
    | AcceptedHigher
    | NoEvidence

  /** A value the assessment holds, with the source's field assessment. */
  datatype Field = Field(
    value: Option<int>,
    status: Status,
    confidence: string,
    source: string,
    url: string,
    notes: seq<Note>,
    evidence: seq<Evidence>)

  const UNOBSERVED := Field(None, Gap, "", "", "", [], [])

  function Rank(confidence: string): (r: nat)
    ensures r <= 3
  {
    match confidence
    case "high" => 3
    case "medium" => 2
    case "low" => 1
    case _ => 0
  }

  function StatusFor(confidence: string): Status {
    if Rank(confidence) >= Rank("high") then Confirmed else Estimated
  }

  predicate Plausible(kind: Kind, value: int) {
    kind.EmployeeCount? ==> value >= 2
  }

  /** One and a half times a count, truncated toward zero. */
  function HalfAsMuchAgain(low: int): int {
    if low >= 0 then low * 3 / 2 else -(-low * 3 / 2)
  }

  predicate Conflicts(kind: Kind, current: int, candidate: int) {
    match kind
    case FoundedYear => current - candidate > 2 || candidate - current > 2
    case EmployeeCount =>
      var high := if current > candidate then current else candidate;
      var low := if current < candidate then current else candidate;
      if high == 0 || low == 0 then high != low
      else high >= HalfAsMuchAgain(low) && high - low >= 200
  }

  // ---- One observation, as its outcome ----

  predicate InConflict(kind: Kind, f: Field, c: Candidate) {
    Plausible(kind, c.value) && f.value.Some? && Conflicts(kind, f.value.value, c.value)
  }

  predicate Accepts(kind: Kind, f: Field, c: Candidate) {
    && Plausible(kind, c.value)
    && (f.value.None? ||
        (Rank(c.confidence) > Rank(f.confidence) && (InConflict(kind, f, c) ==> Rank(c.confidence) >= Rank("medium"))))
  }

  function NewNotes(kind: Kind, f: Field, c: Candidate): seq<Note> {
    if !Plausible(kind, c.value) then []
    else if f.value.None? then (if c.reason == "" then [] else [Reason(c.reason)])
    else if InConflict(kind, f, c) then
      [Conflicting(c.source, c.value, f.value.value)] + if Accepts(kind, f, c) then [AcceptedHigher] else []
    else []
  }

  const IMPLAUSIBLE := "ignored implausibly low employee-count estimate"

  /** A candidate as its evidence entry keeps it: an implausible one is logged with a reason of its own. */
  function Logged(kind: Kind, c: Candidate): Candidate {
    if Plausible(kind, c.value) then c else c.(reason := IMPLAUSIBLE)
  }

  function Observed(kind: Kind, f: Field, c: Candidate): Field {
    var entry := Evidence(Logged(kind, c), Accepts(kind, f, c));
    var logged := f.(notes := f.notes + NewNotes(kind, f, c), evidence := f.evidence + [entry]);
    if Accepts(kind, f, c) then
      logged.(value := Some(c.value), status := StatusFor(c.confidence), confidence := c.confidence, source := c.source,
          url := c.url)
    else if InConflict(kind, f, c) then logged.(status := Conflict)
    else logged
  }

  function Finalized(f: Field): Field {
    if f.value.None? && !f.status.Conflict?
    then f.(status := Gap, notes := if f.notes == [] then [NoEvidence] else f.notes)
    else f
  }

  // ---- The code ----

  /** The result record: its two observed fields and their assessments. */
  class CompanyHealth {
    var founded: Field
    var employees: Field

    constructor ()
      ensures founded == UNOBSERVED && employees == UNOBSERVED
    {
      founded, employees := UNOBSERVED, UNOBSERVED;
    }

    static function SetAccepted(f: Field, c: Candidate): Field {
      f.(value := Some(c.value), status := StatusFor(c.confidence), confidence := c.confidence, source := c.source,
          url := c.url)
    }

    method ObserveFoundedYear(c: Candidate) returns (accepted: bool)
      modifies this`founded
      ensures founded == Observed(FoundedYear, old(founded), c)
      ensures accepted == Accepts(FoundedYear, old(founded), c)
    {
      accepted := false;
      if founded.value.None? {
        accepted := true;
        founded := SetAccepted(founded, c);
        if c.reason != "" {
          founded := founded.(notes := founded.notes + [Reason(c.reason)]);
        }
      } else if Conflicts(FoundedYear, founded.value.value, c.value) {
        var current := founded.value.value;
        founded := founded.(status := Conflict, notes := founded.notes + [Conflicting(c.source, c.value, current)]);
        if Rank(c.confidence) > Rank(founded.confidence) && Rank(c.confidence) >= Rank("medium") {
          accepted := true;
          founded := SetAccepted(founded, c);
          founded := founded.(notes := founded.notes + [AcceptedHigher]);
          assert old(founded).notes + [Conflicting(c.source, c.value, current)] + [AcceptedHigher]
              == old(founded).notes + [Conflicting(c.source, c.value, current), AcceptedHigher];
        }
      } else if Rank(c.confidence) > Rank(founded.confidence) {
        founded := SetAccepted(founded, c);
        accepted := true;
      }
      founded := founded.(evidence := founded.evidence + [Evidence(c, accepted)]);
    }

    method ObserveEmployeeCount(c: Candidate) returns (accepted: bool)
      modifies this`employees
      ensures employees == Observed(EmployeeCount, old(employees), c)
      ensures accepted == Accepts(EmployeeCount, old(employees), c)
    {
      if !Plausible(EmployeeCount, c.value) {
        employees := employees.(evidence := employees.evidence + [Evidence(c.(reason := IMPLAUSIBLE), false)]);
        return false;
      }
      accepted := false;
      if employees.value.None? {
        accepted := true;
        employees := SetAccepted(employees, c);
        if c.reason != "" {
          employees := employees.(notes := employees.notes + [Reason(c.reason)]);
        }
      } else if Conflicts(EmployeeCount, employees.value.value, c.value) {
        var current := employees.value.value;
        employees :=
            employees.(status := Conflict, notes := employees.notes + [Conflicting(c.source, c.value, current)]);
        if Rank(c.confidence) > Rank(employees.confidence) && Rank(c.confidence) >= Rank("medium") {
          accepted := true;
          employees := SetAccepted(employees, c);
          employees := employees.(notes := employees.notes + [AcceptedHigher]);
          assert old(employees).notes + [Conflicting(c.source, c.value, current)] + [AcceptedHigher]
              == old(employees).notes + [Conflicting(c.source, c.value, current), AcceptedHigher];
        }
      } else if Rank(c.confidence) > Rank(employees.confidence) {
        employees := SetAccepted(employees, c);
        accepted := true;
      }
      employees := employees.(evidence := employees.evidence + [Evidence(c, accepted)]);
    }

    method FinalizeCompanyHealthAssessments()
      modifies this
      ensures founded == Finalized(old(founded)) && employees == Finalized(old(employees))
    {
      if founded.value.None? && founded.status != Conflict {
        founded := founded.(status := Gap);
        if |founded.notes| == 0 {
          founded := founded.(notes := [NoEvidence]);
        }
      }
      if employees.value.None? && employees.status != Conflict {
        employees := employees.(status := Gap);
        if |employees.notes| == 0 {
          employees := employees.(notes := [NoEvidence]);
        }
      }
    }
  }

  // ---- Runs of observations ----

  function Run(kind: Kind, cs: seq<Candidate>): Field {
    if cs == [] then UNOBSERVED else Observed(kind, Run(kind, cs[..|cs| - 1]), cs[|cs| - 1])
  }

  /** Whether the candidate at `i` was accepted when it came. */
  predicate AcceptedAt(kind: Kind, cs: seq<Candidate>, i: nat)
    requires i < |cs|
  {
    Accepts(kind, Run(kind, cs[..i]), cs[i])
  }

  /** The last accepted candidate. */
  function LastAccepted(kind: Kind, cs: seq<Candidate>): (n: Option<nat>)
    ensures n.Some? ==> n.value < |cs|
  {
    if cs == [] then None
    else if Accepts(kind, Run(kind, cs[..|cs| - 1]), cs[|cs| - 1]) then Some(|cs| - 1)
    else LastAccepted(kind, cs[..|cs| - 1])
  }

  lemma AcceptedBefore(kind: Kind, cs: seq<Candidate>, i: nat)
    requires i < |cs| - 1
    ensures AcceptedAt(kind, cs[..|cs| - 1], i) == AcceptedAt(kind, cs, i)
  {
    assert cs[..|cs| - 1][..i] == cs[..i];
  }

  lemma {:induction false} LastWasAccepted(kind: Kind, cs: seq<Candidate>)
    ensures var n := LastAccepted(kind, cs); n.Some? ==> AcceptedAt(kind, cs, n.value)
  {
    if cs != [] {
      LastWasAccepted(kind, cs[..|cs| - 1]);
      var n := LastAccepted(kind, cs[..|cs| - 1]);
      if n.Some? {
        AcceptedBefore(kind, cs, n.value);
      }
    }
  }

  lemma {:induction false} NoneAcceptedLater(kind: Kind, cs: seq<Candidate>, i: nat)
    requires i < |cs|
    ensures var n := LastAccepted(kind, cs);
      && (n.Some? && n.value < i ==> !AcceptedAt(kind, cs, i))
      && (n.None? ==> !AcceptedAt(kind, cs, i) && !Plausible(kind, cs[i].value))
  {
    var m := |cs| - 1;
    if i < m {
      NoneAcceptedLater(kind, cs[..m], i);
      AcceptedBefore(kind, cs, i);
    } else {
      HeldIsLastAccepted(kind, cs[..m]);
    }
  }

  lemma {:induction false} LastAcceptedIsLast(kind: Kind, cs: seq<Candidate>, i: nat)
    requires i < |cs|
    ensures var n := LastAccepted(kind, cs);
      && (n.Some? ==> AcceptedAt(kind, cs, n.value) && (n.value < i ==> !AcceptedAt(kind, cs, i)))
      && (n.None? ==> !AcceptedAt(kind, cs, i) && !Plausible(kind, cs[i].value))
  {
    LastWasAccepted(kind, cs);
    NoneAcceptedLater(kind, cs, i);
  }

  /** The held value, confidence and source are those of the last accepted candidate. */
  lemma {:induction false} HeldIsLastAccepted(kind: Kind, cs: seq<Candidate>)
    ensures var f, n := Run(kind, cs), LastAccepted(kind, cs);
      if n.Some? then
        f.value == Some(cs[n.value].value) && f.confidence == cs[n.value].confidence &&
            f.source == cs[n.value].source && f.url == cs[n.value].url
      else f.value.None? && f.confidence == "" && f.status.Gap?
  {
    if cs != [] {
      HeldIsLastAccepted(kind, cs[..|cs| - 1]);
    }
  }

  /** An observation never lowers the confidence rank. */
  lemma RankNeverFalls(kind: Kind, f: Field, c: Candidate)
    requires f.value.None? ==> f.confidence == ""
    ensures Rank(f.confidence) <= Rank(Observed(kind, f, c).confidence)
  {
  }

  /** The rank ends at least as high as every plausible medium or high candidate. */
  lemma {:induction false} RankReachesBest(kind: Kind, cs: seq<Candidate>, i: nat)
    requires i < |cs| && Plausible(kind, cs[i].value) && Rank(cs[i].confidence) >= Rank("medium")
    ensures Rank(Run(kind, cs).confidence) >= Rank(cs[i].confidence)
  {
    var init := cs[..|cs| - 1];
    HeldIsLastAccepted(kind, init);
    if i < |init| {
      RankReachesBest(kind, init, i);
      RankNeverFalls(kind, Run(kind, init), cs[|cs| - 1]);
    }
  }

  /** A conflicting candidate was rejected after the last acceptance. */
  ghost predicate RejectedConflict(kind: Kind, cs: seq<Candidate>, i: nat) {
    && i < |cs|
    && InConflict(kind, Run(kind, cs[..i]), cs[i])
    && !AcceptedAt(kind, cs, i)
    && (forall j :: i < j < |cs| ==> !AcceptedAt(kind, cs, j))
  }

  /** Status is conflict exactly when a conflicting candidate was rejected since the last acceptance. */
  lemma {:induction false} ConflictIff(kind: Kind, cs: seq<Candidate>)
    ensures Run(kind, cs).status.Conflict? <==> exists i :: RejectedConflict(kind, cs, i)
    ensures !Run(kind, cs).status.Conflict? ==>
      Run(kind, cs).status == if LastAccepted(kind, cs).Some? then StatusFor(Run(kind, cs).confidence) else Gap
  {
    if cs != [] {
      var m := |cs| - 1;
      ConflictIff(kind, cs[..m]);
      HeldIsLastAccepted(kind, cs[..m]);
      if AcceptedAt(kind, cs, m) {
        assert forall i :: !RejectedConflict(kind, cs, i);
      } else if InConflict(kind, Run(kind, cs[..m]), cs[m]) {
        assert RejectedConflict(kind, cs, m);
      } else {
        OnlyOlderConflicts(kind, cs, cs[..m]);
      }
    }
  }

  lemma OnlyOlderConflicts(kind: Kind, cs: seq<Candidate>, init: seq<Candidate>)
    requires cs != [] && init == cs[..|cs| - 1]
    requires !AcceptedAt(kind, cs, |init|) && !InConflict(kind, Run(kind, init), cs[|init|])
    ensures (exists i :: RejectedConflict(kind, cs, i)) <==> (exists i :: RejectedConflict(kind, init, i))
  {
    if i: nat :| RejectedConflict(kind, cs, i) {
      assert i != |init|;
      ConflictOfPrefix(kind, cs, i);
    }
    if i: nat :| RejectedConflict(kind, init, i) {
      ConflictOfPrefix(kind, cs, i);
    }
  }

  lemma ConflictOfPrefix(kind: Kind, cs: seq<Candidate>, i: nat)
    requires i < |cs| - 1 && !AcceptedAt(kind, cs, |cs| - 1)
    ensures RejectedConflict(kind, cs, i) <==> RejectedConflict(kind, cs[..|cs| - 1], i)
  {
    var init := cs[..|cs| - 1];
    assert init[..i] == cs[..i];
    forall j | 0 <= j < |init| ensures AcceptedAt(kind, init, j) == AcceptedAt(kind, cs, j) {
      assert init[..j] == cs[..j];
    }
  }

  function AcceptedCount(kind: Kind, cs: seq<Candidate>): nat {
    if cs == [] then 0
    else AcceptedCount(kind, cs[..|cs| - 1]) + if Accepts(kind, Run(kind, cs[..|cs| - 1]), cs[|cs| - 1]) then 1 else 0
  }

  /** At most four observations are ever accepted: the first, and then one for each higher rank. */
  lemma {:induction false} AtMostFourAccepted(kind: Kind, cs: seq<Candidate>)
    ensures AcceptedCount(kind, cs) <= 4
    ensures AcceptedCount(kind, cs)
         <= if Run(kind, cs).value.None? then 0 else 1 + Rank(Run(kind, cs).confidence)
  {
    if cs != [] {
      AtMostFourAccepted(kind, cs[..|cs| - 1]);
    }
  }

  /** Four acceptances do happen: one value reported with ever higher confidence. */
  lemma FourAreReached(kind: Kind, cs: seq<Candidate>, value: int)
    requires |cs| == 4 && Plausible(kind, value)
    requires forall i :: 0 <= i < 4 ==> cs[i].value == value && Rank(cs[i].confidence) == i
    ensures AcceptedCount(kind, cs) == 4
  {
    assert cs[..0] == [] && cs[..4] == cs;
    ClimbStep(kind, cs, 0, value);
    ClimbStep(kind, cs, 1, value);
    ClimbStep(kind, cs, 2, value);
    ClimbStep(kind, cs, 3, value);
  }

  lemma ClimbStep(kind: Kind, cs: seq<Candidate>, n: nat, value: int)
    requires n < |cs| && Plausible(kind, value) && cs[n].value == value && Rank(cs[n].confidence) == n
    requires n > 0 ==> Run(kind, cs[..n]).value == Some(value) && Rank(Run(kind, cs[..n]).confidence) == n - 1
    ensures Run(kind, cs[..n + 1]).value == Some(value) && Rank(Run(kind, cs[..n + 1]).confidence) == n
    ensures AcceptedCount(kind, cs[..n + 1]) == AcceptedCount(kind, cs[..n]) + 1
  {
    assert cs[..n + 1][..n] == cs[..n];
    assert !Conflicts(kind, value, value);
  }

  lemma ObservationIsLogged(kind: Kind, f: Field, c: Candidate)
    ensures Observed(kind, f, c).evidence == f.evidence + [Evidence(Logged(kind, c), Accepts(kind, f, c))]
  {
  }

  lemma {:induction false} OneEntryEach(kind: Kind, cs: seq<Candidate>)
    ensures |Run(kind, cs).evidence| == |cs|
  {
    if cs != [] {
      OneEntryEach(kind, cs[..|cs| - 1]);
      ObservationIsLogged(kind, Run(kind, cs[..|cs| - 1]), cs[|cs| - 1]);
    }
  }

  /**
    Every candidate leaves one evidence entry, in order, marked accepted exactly when it was; it is the candidate as it
    came, but for the reason of an implausible one.
  */
  lemma {:induction false} EvidenceIsTheLog(kind: Kind, cs: seq<Candidate>, i: nat)
    requires i < |cs|
    ensures |Run(kind, cs).evidence| == |cs|
    ensures Run(kind, cs).evidence[i] == Evidence(Logged(kind, cs[i]), AcceptedAt(kind, cs, i))
  {
    var init := cs[..|cs| - 1];
    OneEntryEach(kind, init);
    OneEntryEach(kind, cs);
    ObservationIsLogged(kind, Run(kind, init), cs[|cs| - 1]);
    if i < |init| {
      EvidenceIsTheLog(kind, init, i);
      assert init[..i] == cs[..i];
    }
  }

  /** After finalization a field is a gap exactly when it holds no value, and then some note says why. */
  lemma {:induction false} FinalizedGapIff(kind: Kind, cs: seq<Candidate>)
    ensures var f := Finalized(Run(kind, cs));
      && (f.status.Gap? <==> f.value.None?)
      && (f.value.None? ==> f.notes != [])
      && Finalized(f) == f
  {
    HeldIsLastAccepted(kind, cs);
    ConflictIff(kind, cs);
  }
}
