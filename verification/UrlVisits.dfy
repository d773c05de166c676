/**
  The URL visit registry: one shared page fetch or probe per canonical URL and run. The class keeps the
  source's fields; each method is one critical section, and each is proved to be one event of the
  single-flight protocol, so every theorem about its runs holds of any interleaving of callers.
*/
module UrlVisits {
  import opened Options
  import opened SingleFlight
  import Text

  datatype Error =
    | Canceled
    | DeadlineExceeded
    | Other(message: string)
    | Wrapped(message: string, inner: Error)

  /** `errors.Is`: the error or one it wraps is the target. */
  predicate Is(err: Error, target: Error) {
    err == target || (err.Wrapped? && Is(err.inner, target))
  }

  datatype Outcome =
    | Page(rawHTML: string, finalURL: string, err: Option<Error>)
    | Status(code: int, err: Option<Error>)

  predicate ShouldForget(o: Outcome) {
    o.err.Some? && (Is(o.err.value, Canceled) || Is(o.err.value, DeadlineExceeded))
  }

  /** An error as it reaches the registry: a root wrapped any number of times. */
  function Chain(messages: seq<string>, root: Error): Error {
    if messages == [] then root else Wrapped(messages[0], Chain(messages[1..], root))
  }

  /** However deep a root error is wrapped, a result is forgotten exactly for a cancellation or a deadline. */
  lemma {:induction false} ForgottenIffCancelled(o: Outcome, messages: seq<string>, root: Error)
    requires !root.Wrapped? && o.err == Some(Chain(messages, root))
    ensures ShouldForget(o) <==> root.Canceled? || root.DeadlineExceeded?
  {
    FoundInChain(messages, root, Canceled);
    FoundInChain(messages, root, DeadlineExceeded);
  }

  lemma {:induction false} FoundInChain(messages: seq<string>, root: Error, target: Error)
    requires !root.Wrapped? && !target.Wrapped?
    ensures Is(Chain(messages, root), target) <==> root == target
  {
    if messages != [] {
      FoundInChain(messages[1..], root, target);
    }
  }

  /** What a caller does after its first critical section. */
  datatype Entry = Direct | Lead(call: nat) | Join(call: nat)

  function PageKey(canonical: string): string {
    "html:" + canonical
  }

  function ProbeKey(verb: string, canonical: string): string {
    "probe:" + Text.Upper(Text.Trim(verb)) + ":" + canonical
  }

  /** Probes share an entry exactly for one URL and one verb, its case and surrounding space aside. */
  lemma {:induction false} ProbeKeysAlikeIff(v: string, w: string, a: string, b: string)
    requires ':' !in v && ':' !in w
    ensures ProbeKey(v, a) == ProbeKey(w, b) <==> Text.Upper(Text.Trim(v)) == Text.Upper(Text.Trim(w)) && a == b
    ensures PageKey(a) == PageKey(b) <==> a == b
    ensures PageKey(a) != ProbeKey(w, b)
  {
    assert PageKey(a)[5..] == a && PageKey(b)[5..] == b;
    KeysHaveTheirKind(w, b);
    KeysHaveTheirKind(v, a);
    VerbHasNoColon(v);
    VerbHasNoColon(w);
    ProbeKeyParts(v, a);
    ProbeKeyParts(w, b);
    var s, t := Text.Upper(Text.Trim(v)), Text.Upper(Text.Trim(w));
    if ProbeKey(v, a) == ProbeKey(w, b) {
      Text.CutAtStop(s, ":" + a, t, ":" + b, ':');
      assert (":" + a)[1..] == a && (":" + b)[1..] == b;
    }
  }

  lemma VerbHasNoColon(verb: string)
    requires ':' !in verb
    ensures Text.Without(Text.Upper(Text.Trim(verb)), ':')
  {
    Text.TrimIsPart(verb);
    var trimmed := Text.Trim(verb);
    forall i | 0 <= i < |trimmed| ensures trimmed[i] != ':' {
      assert trimmed[i] in verb;
    }
  }

  lemma ProbeKeyParts(verb: string, canonical: string)
    ensures ProbeKey(verb, canonical)[6..] == Text.Upper(Text.Trim(verb)) + (":" + canonical)
  {
  }

  // The two key prefixes already differ in their first character, which is all the maps need.

  predicate IsPageKey(key: string) {
    key != "" && key[0] == 'h'
  }

  predicate IsProbeKey(key: string) {
    key != "" && key[0] == 'p'
  }

  lemma {:induction false} KeysHaveTheirKind(verb: string, canonical: string)
    ensures IsPageKey(PageKey(canonical)) && IsProbeKey(ProbeKey(verb, canonical))
  {
    var rest := Text.Upper(Text.Trim(verb)) + ":" + canonical;
    assert ProbeKey(verb, canonical) == "probe:" + rest;
  }

  /** Each map holds its own kind of key, and each finished entry its own kind of result. */
  predicate Sorted(html: map<string, nat>, probes: map<string, nat>, visits: seq<Call<string, Outcome>>) {
    && (forall k :: k in html ==> IsPageKey(k))
    && (forall k :: k in probes ==> IsProbeKey(k))
    && (forall i :: 0 <= i < |visits| ==> VisitOk(visits[i]))
  }

  predicate VisitOk(visit: Call<string, Outcome>) {
    && (IsPageKey(visit.key) || IsProbeKey(visit.key))
    && (visit.outcome.Some? ==> (visit.outcome.value.Page? <==> IsPageKey(visit.key)))
  }

  lemma {:induction false} TablesStayApart(html: map<string, nat>, probes: map<string, nat>, key: string, n: nat)
    requires key !in probes
    ensures html[key := n] + probes == (html + probes)[key := n]
    ensures probes + html[key := n] == (probes + html)[key := n]
    ensures (html - {key}) + probes == (html + probes) - {key}
    ensures probes + (html - {key}) == (probes + html) - {key}
    ensures key in html + probes <==> key in html
    ensures key in html ==> (html + probes)[key] == (probes + html)[key] == html[key]
  {
  }

  lemma {:induction false} ForgottenAtTheRoot(o: Outcome)
    ensures o.err.None? ==> !ShouldForget(o)
    ensures forall messages, root: Error :: !root.Wrapped? && o.err == Some(Chain(messages, root)) ==>
      (ShouldForget(o) <==> root == Canceled || root == DeadlineExceeded)
  {
    forall messages, root: Error | !root.Wrapped? && o.err == Some(Chain(messages, root))
      ensures ShouldForget(o) <==> root == Canceled || root == DeadlineExceeded
    {
      ForgottenIffCancelled(o, messages, root);
    }
  }

  class Registry {
    var html: map<string, nat>
    var probes: map<string, nat>
    var visits: seq<Call<string, Outcome>>
    var fetches: nat
    var hits: nat
    ghost var protocol: State<string, Outcome> // the callers, and the fields below seen as one table

    /** The fields are the protocol's state. The constructor and the methods below make it run. */
    ghost predicate Valid()
      reads this
    {
      && Sorted(html, probes, visits)
      && protocol.calls == visits
      && protocol.table == html + probes
      && protocol.fetches == fetches
      && protocol.hits == hits
    }

    constructor ()
      ensures Valid() && protocol == Init()
    {
      html, probes, visits, fetches, hits := map[], map[], [], 0, 0;
      protocol := Init();
    }

    /** First critical section of FetchApplyPage. */
    method BeginFetch(who: nat, canonical: string) returns (entry: Entry)
      requires Valid() && who !in protocol.callers
      modifies this
      ensures Valid()
      ensures entry.Direct? <==> canonical == ""
      ensures entry.Direct? ==> protocol == old(protocol)
      ensures !entry.Direct? ==> protocol == Apply(ShouldForget, old(protocol), Enter(who, PageKey(canonical)))
      ensures entry.Lead? ==> protocol.callers[who] == Leading(entry.call)
      ensures entry.Join? ==> protocol.callers[who] == Waiting(entry.call)
    {
      var key := PageKey(canonical);
      if key == "html:" {
        assert canonical == key[|"html:"|..];
        return Direct;
      }
      KeysHaveTheirKind("", canonical);
      TablesStayApart(html, probes, key, |visits|);
      protocol := Apply(ShouldForget, protocol, Enter(who, key));
      if key in html {
        hits := hits + 1;
        return Join(html[key]);
      }
      entry := Lead(|visits|);
      html := html[key := |visits|];
      visits := visits + [Call(key, who, None)];
      fetches := fetches + 1;
    }

    /** Last critical section of a FetchApplyPage leader. */
    method FinishFetch(who: nat, call: nat, key: string, rawHTML: string, finalURL: string, err: Option<Error>)
      requires Valid() && who in protocol.callers && protocol.callers[who] == Leading(call)
      requires call < |visits| && key == visits[call].key && IsPageKey(key)
      modifies this
      ensures Valid()
      ensures protocol == Apply(ShouldForget, old(protocol), Finish(who, Page(rawHTML, finalURL, err)))
      ensures visits == old(visits)[call := old(visits[call]).(outcome := Some(Page(rawHTML, finalURL, err)))]
      ensures err.None? ==> html == old(html)
      ensures forall messages, root: Error :: !root.Wrapped? && err == Some(Chain(messages, root)) ==>
                html == if root == Canceled || root == DeadlineExceeded then old(html) - {key} else old(html)
    {
      var outcome := Page(rawHTML, finalURL, err);
      ForgottenAtTheRoot(outcome);
      TablesStayApart(html, probes, key, call);
      protocol := Apply(ShouldForget, protocol, Finish(who, outcome));
      visits := visits[call := visits[call].(outcome := Some(outcome))];
      if ShouldForget(outcome) {
        html := html - {key};
      }
    }

    /** First critical section of ProbeURL. */
    method BeginProbe(who: nat, verb: string, canonical: string) returns (entry: Entry)
      requires Valid() && who !in protocol.callers
      modifies this
      ensures Valid()
      ensures entry.Direct? <==> canonical == "" || canonical[|canonical| - 1] == ':'
      ensures entry.Direct? ==> protocol == old(protocol)
      ensures !entry.Direct? ==> protocol == Apply(ShouldForget, old(protocol), Enter(who, ProbeKey(verb, canonical)))
      ensures entry.Lead? ==> protocol.callers[who] == Leading(entry.call)
      ensures entry.Join? ==> protocol.callers[who] == Waiting(entry.call)
    {
      var key := ProbeKey(verb, canonical);
      if key[|key| - 1] == ':' {
        return Direct;
      }
      KeysHaveTheirKind(verb, canonical);
      TablesStayApart(probes, html, key, |visits|);
      protocol := Apply(ShouldForget, protocol, Enter(who, key));
      if key in probes {
        hits := hits + 1;
        return Join(probes[key]);
      }
      entry := Lead(|visits|);
      probes := probes[key := |visits|];
      visits := visits + [Call(key, who, None)];
      fetches := fetches + 1;
    }

    /** Last critical section of a ProbeURL leader. */
    method FinishProbe(who: nat, call: nat, key: string, code: int, err: Option<Error>)
      requires Valid() && who in protocol.callers && protocol.callers[who] == Leading(call)
      requires call < |visits| && key == visits[call].key && IsProbeKey(key)
      modifies this
      ensures Valid()
      ensures protocol == Apply(ShouldForget, old(protocol), Finish(who, Status(code, err)))
      ensures visits == old(visits)[call := old(visits[call]).(outcome := Some(Status(code, err)))]
      ensures err.None? ==> probes == old(probes)
      ensures forall messages, root: Error :: !root.Wrapped? && err == Some(Chain(messages, root)) ==>
                probes == if root == Canceled || root == DeadlineExceeded then old(probes) - {key} else old(probes)
    {
      var outcome := Status(code, err);
      ForgottenAtTheRoot(outcome);
      TablesStayApart(probes, html, key, call);
      protocol := Apply(ShouldForget, protocol, Finish(who, outcome));
      visits := visits[call := visits[call].(outcome := Some(outcome))];
      if ShouldForget(outcome) {
        probes := probes - {key};
      }
    }

    /** A joiner whose entry's `done` channel is closed reads the entry and returns. */
    method Observe(who: nat, call: nat) returns (outcome: Outcome)
      requires Valid() && who in protocol.callers && protocol.callers[who] == Waiting(call)
      requires call < |visits| && visits[call].outcome.Some?
      modifies this`protocol
      ensures Valid()
      ensures protocol == Apply(ShouldForget, old(protocol), Wake(who))
      ensures protocol.callers[who] == Returned(call, outcome)
      ensures outcome.Page? <==> IsPageKey(visits[call].key)
    {
      protocol := Apply(ShouldForget, protocol, Wake(who));
      outcome := visits[call].outcome.value;
    }

    /** A joiner whose own context ends first returns that context's error and changes nothing. */
    method Abandon(who: nat, call: nat)
      requires Valid() && who in protocol.callers && protocol.callers[who] == Waiting(call)
      modifies this`protocol
      ensures Valid()
      ensures protocol == Apply(ShouldForget, old(protocol), GiveUp(who))
    {
      protocol := Apply(ShouldForget, protocol, GiveUp(who));
    }

    /** Stats: the counters and the table sizes. Every entered call is a fetch or a hit. */
    method Stats() returns (f: nat, h: nat, pages: nat, probed: nat)
      requires Valid() && Inv(ShouldForget, protocol)
      ensures f == |visits| && f + h == |protocol.callers|
      ensures pages + probed == |protocol.table|
    {
      f, h, pages, probed := fetches, hits, |html|, |probes|;
      forall k | k in html ensures k !in probes { assert IsPageKey(k); }
      assert html.Keys !! probes.Keys;
      assert protocol.table.Keys == html.Keys + probes.Keys;
      assert |protocol.table.Keys| == |html.Keys| + |probes.Keys|;
    }
  }

  /**
    Every state of every run: at most one fetch per key, its entry alone in the key's slot; no finished
    entry with a cancellation or deadline error left in the maps; each entered call counted once; and a
    caller that returned through `done` holds what its own leader returned.
  */
  lemma {:induction false} RegistrySafety(run: seq<State<string, Outcome>>, n: nat)
    requires Run(ShouldForget, run) && n < |run|
    ensures var s := run[n];
      && s.fetches + s.hits == |s.callers| && s.fetches == |s.calls|
      && (forall a, b :: a in s.callers && b in s.callers && s.callers[a].Leading? && s.callers[b].Leading? ==>
           var i, j := s.callers[a].call, s.callers[b].call;
           && i < |s.calls| && j < |s.calls|
           && s.calls[i].key in s.table && s.table[s.calls[i].key] == i
           && (s.calls[i].key == s.calls[j].key ==> a == b))
      && (forall k :: k in s.table ==> s.table[k] < |s.calls|)
      && (forall k, messages :: k in s.table && s.calls[s.table[k]].outcome.Some? ==>
           && s.calls[s.table[k]].outcome.value.err != Some(Chain(messages, Canceled))
           && s.calls[s.table[k]].outcome.value.err != Some(Chain(messages, DeadlineExceeded)))
      && (forall c :: c in s.callers && s.callers[c].Returned? ==>
           var i := s.callers[c].call;
           i < |s.calls| && s.calls[i].leader in s.callers && s.callers[s.calls[i].leader] == s.callers[c])
  {
    var s := run[n];
    InvOverRun(ShouldForget, run, n);
    forall a, b | a in s.callers && b in s.callers && s.callers[a].Leading? && s.callers[b].Leading?
      ensures var i, j := s.callers[a].call, s.callers[b].call;
        && i < |s.calls| && j < |s.calls|
        && s.calls[i].key in s.table && s.table[s.calls[i].key] == i
        && (s.calls[i].key == s.calls[j].key ==> a == b)
    {
      OneLeaderPerKey(ShouldForget, s, a, b);
    }
    forall k | k in s.table ensures s.table[k] < |s.calls| {
      assert SlotOk(ShouldForget, s, k);
    }
    forall k, messages | k in s.table && s.calls[s.table[k]].outcome.Some?
      ensures s.calls[s.table[k]].outcome.value.err != Some(Chain(messages, Canceled))
      ensures s.calls[s.table[k]].outcome.value.err != Some(Chain(messages, DeadlineExceeded))
    {
      assert SlotOk(ShouldForget, s, k);
      ForgottenAtTheRoot(s.calls[s.table[k]].outcome.value);
    }
    forall c | c in s.callers && s.callers[c].Returned?
      ensures var i := s.callers[c].call;
        i < |s.calls| && s.calls[i].leader in s.callers && s.callers[s.calls[i].leader] == s.callers[c]
    {
      ReturnedIsLeaders(ShouldForget, s, c);
    }
  }

  /**
    Over a run of any number of page and probe calls: at most one fetch per key ever ended in anything but
    a cancellation or deadline error, and it is the last fetch of that key.
  */
  lemma {:induction false} OneLastingFetchPerKey(run: seq<State<string, Outcome>>, n: nat, i: nat, j: nat)
    requires Run(ShouldForget, run) && n < |run|
    requires i < j < |run[n].calls| && run[n].calls[i].key == run[n].calls[j].key
    ensures run[n].calls[i].outcome.Some?
    ensures exists messages, root :: root in {Canceled, DeadlineExceeded} &&
              run[n].calls[i].outcome.value.err == Some(Chain(messages, root))
  {
    InvOverRun(ShouldForget, run, n);
    var messages, root := Unwrapped(run[n].calls[i].outcome.value.err.value);
    ForgottenIffCancelled(run[n].calls[i].outcome.value, messages, root);
    assert root in {Canceled, DeadlineExceeded};
  }

  /** Every error is a root wrapped some number of times. */
  lemma {:induction false} Unwrapped(err: Error) returns (messages: seq<string>, root: Error)
    ensures !root.Wrapped? && err == Chain(messages, root)
  {
    if err.Wrapped? {
      var inner;
      inner, root := Unwrapped(err.inner);
      messages := [err.message] + inner;
      assert messages[1..] == inner;
    } else {
      messages, root := [], err;
    }
  }

  /** The joiner of a cancelled leader returns that cancellation although its own context never ended. */
  lemma {:induction false} LiveJoinerGetsCancellation(canonical: string) returns (run: seq<State<string, Outcome>>)
    ensures Run(ShouldForget, run) && |run| == 5
    ensures run[4].table == map[]
    ensures 1 in run[4].callers && run[4].callers[1].Returned?
    ensures run[4].callers[1].result == Page("", "", Some(Canceled))
  {
    run := JoinerInheritsForgottenResult(ShouldForget, PageKey(canonical), Page("", "", Some(Canceled)));
    assert Step(ShouldForget, run[3], run[3 + 1]);
    InvOverRun(ShouldForget, run, 4);
    assert CallerOk(run[4], 1);
    ResultsArePermanent(ShouldForget, run, 3, 4, 0);
  }
}
