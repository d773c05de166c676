/**
  What one observation does, in plain terms: which confidence displaces which, what counts as a conflict, what is
  noted.
*/
module EvidenceLaws {
  import opened Options
  import opened FieldEvidence

  /** A confidence that displaces the held one: high over all others, medium over low and unnamed, low over unnamed. */
  predicate Displaces(confidence: string, held: string) {
    || (confidence == "high" && held != "high")
    || (confidence == "medium" && held != "high" && held != "medium")
    || (confidence == "low" && held != "high" && held != "medium" && held != "low")
  }

  /** Years more than two apart; counts at least 200 apart of which the larger is half as much again as the smaller. */
  predicate FarApart(kind: Kind, a: int, b: int) {
    if kind.FoundedYear? then a - b > 2 || b - a > 2
    else (a - b >= 200 && 2 * a + 1 >= 3 * b) || (b - a >= 200 && 2 * b + 1 >= 3 * a)
  }

  lemma ConflictsIff(kind: Kind, a: int, b: int)
    requires kind.EmployeeCount? ==> a >= 2 && b >= 2
    ensures Conflicts(kind, a, b) <==> FarApart(kind, a, b)
  {
  }

  /** A held count is plausible. */
  lemma {:induction false} HeldIsPlausible(kind: Kind, cs: seq<Candidate>)
    ensures Run(kind, cs).value.Some? && kind.EmployeeCount? ==> Run(kind, cs).value.value >= 2
  {
    if cs != [] {
      HeldIsPlausible(kind, cs[..|cs| - 1]);
    }
  }

  /**
    Whether a candidate is taken over: the first plausible one, or one that displaces, in a conflict only above low.
  */
  predicate Taken(kind: Kind, held: Option<int>, confidence: string, c: Candidate) {
    && (kind.EmployeeCount? ==> c.value >= 2)
    && (held.None? ||
         (Displaces(c.confidence, confidence)
          && (FarApart(kind, held.value, c.value) ==> c.confidence == "medium" || c.confidence == "high")))
  }

  /**
    The next candidate after any run. If taken over it sets value, confidence, source and URL, and the field is
    confirmed for high confidence and estimated otherwise. If not, these stay, and a plausible candidate far from the
    held value leaves the field in conflict.
  */
  lemma {:induction false} NextObservation(kind: Kind, cs: seq<Candidate>, c: Candidate)
    ensures var f, r := Run(kind, cs), Run(kind, cs + [c]);
      var far := (kind.EmployeeCount? ==> c.value >= 2) && f.value.Some? && FarApart(kind, f.value.value, c.value);
      if Taken(kind, f.value, f.confidence, c) then
        && r.value == Some(c.value) && r.confidence == c.confidence && r.source == c.source && r.url == c.url
        && r.status == if c.confidence == "high" then Confirmed else Estimated
      else
        && r.value == f.value && r.confidence == f.confidence && r.source == f.source && r.url == f.url
        && r.status == if far then Conflict else f.status
  {
    assert (cs + [c])[..|cs|] == cs;
    HeldIsPlausible(kind, cs);
    var f := Run(kind, cs);
    if f.value.Some? && (kind.EmployeeCount? ==> c.value >= 2) {
      ConflictsIff(kind, f.value.value, c.value);
    }
  }

  /** What it notes: the reason of a first candidate, a conflict with both values, and a conflict that was won. */
  lemma {:induction false} NextNotes(kind: Kind, cs: seq<Candidate>, c: Candidate)
    ensures var f, r := Run(kind, cs), Run(kind, cs + [c]);
      r.notes == f.notes +
        if kind.EmployeeCount? && c.value < 2 then []
        else if f.value.None? then (if c.reason == "" then [] else [Reason(c.reason)])
        else if !FarApart(kind, f.value.value, c.value) then []
        else
          [Conflicting(c.source, c.value, f.value.value)]
          + if Taken(kind, f.value, f.confidence, c) then [AcceptedHigher] else []
  {
    assert (cs + [c])[..|cs|] == cs;
    HeldIsPlausible(kind, cs);
    var f := Run(kind, cs);
    if f.value.Some? && (kind.EmployeeCount? ==> c.value >= 2) {
      ConflictsIff(kind, f.value.value, c.value);
    }
  }

  /** A value held with high confidence is never displaced, one held with medium only by a high one. */
  lemma {:induction false} HighStays(kind: Kind, cs: seq<Candidate>, c: Candidate)
    requires Run(kind, cs).value.Some?
    ensures Run(kind, cs).confidence == "high" ==> Run(kind, cs + [c]).value == Run(kind, cs).value
    ensures Run(kind, cs).confidence == "medium" && c.confidence != "high" ==>
              Run(kind, cs + [c]).value == Run(kind, cs).value
  {
    NextObservation(kind, cs, c);
  }
}
