/**
  The Built In detail cache: one leader per detail URL takes one of three fetch tokens or gives up with its
  context, and then stores what it has for good. Any number of callers interleave.
*/
module DetailCache {
  import opened Options

  const MAX_CONCURRENT_DETAIL_FETCHES: nat := 3

  /** A fetched detail; the empty result is what a cancelled leader stores. */
  datatype Detail = Empty | Detail(ok: bool, source: string, body: string)

  datatype Caller =
    | Queued(call: nat)                    // leader waiting for a token or its context
    | Fetching(call: nat)                  // leader holding a token
    | Fetched(call: nat, detail: Detail)   // leader back from the select, not yet stored
    | Joined(call: nat)                    // waiting for another leader
    | Returned(key: string, detail: Detail)
    | Abandoned                            // joiner whose own context ended: returns the empty result

  datatype InFlight = InFlight(key: string, leader: nat, outcome: Option<Detail>)

  datatype State = State(
    entries: map<string, Detail>,
    inFlight: map<string, nat>,
    calls: seq<InFlight>,
    tokens: nat,
    callers: map<nat, Caller>)

  datatype Event =
    | Enter(who: nat, key: string)
    | Acquire(who: nat)
    | Release(who: nat, detail: Detail)
    | Cancel(who: nat)
    | Store(who: nat)
    | Wake(who: nat)
    | GiveUp(who: nat)

  function Init(): State {
    State(map[], map[], [], 0, map[])
  }

  predicate Enabled(s: State, e: Event) {
    match e
    case Enter(who, _) => who !in s.callers
    case Acquire(who) => who in s.callers && s.callers[who].Queued? && s.tokens < MAX_CONCURRENT_DETAIL_FETCHES
    case Release(who, _) => who in s.callers && s.callers[who].Fetching? && s.tokens > 0
    case Cancel(who) => who in s.callers && s.callers[who].Queued?
    case Store(who) => who in s.callers && s.callers[who].Fetched? && s.callers[who].call < |s.calls|
    case Wake(who) =>
      who in s.callers && s.callers[who].Joined? && s.callers[who].call < |s.calls| &&
      s.calls[s.callers[who].call].outcome.Some?
    case GiveUp(who) => who in s.callers && s.callers[who].Joined?
  }

  function Apply(s: State, e: Event): State
    requires Enabled(s, e)
  {
    match e
    case Enter(who, key) =>
      if key in s.entries then s.(callers := s.callers[who := Returned(key, s.entries[key])])
      else if key in s.inFlight then s.(callers := s.callers[who := Joined(s.inFlight[key])])
      else s.(inFlight := s.inFlight[key := |s.calls|], calls := s.calls + [InFlight(key, who, None)],
              callers := s.callers[who := Queued(|s.calls|)])
    case Acquire(who) => s.(tokens := s.tokens + 1, callers := s.callers[who := Fetching(s.callers[who].call)])
    case Release(who, detail) =>
      s.(tokens := s.tokens - 1, callers := s.callers[who := Fetched(s.callers[who].call, detail)])
    case Cancel(who) => s.(callers := s.callers[who := Fetched(s.callers[who].call, Empty)])
    case Store(who) =>
      var i, detail := s.callers[who].call, s.callers[who].detail;
      var key := s.calls[i].key;
      s.(entries := s.entries[key := detail], inFlight := s.inFlight - {key},
         calls := s.calls[i := s.calls[i].(outcome := Some(detail))],
         callers := s.callers[who := Returned(key, detail)])
    case Wake(who) =>
      var call := s.calls[s.callers[who].call];
      s.(callers := s.callers[who := Returned(call.key, call.outcome.value)])
    case GiveUp(who) => s.(callers := s.callers[who := Abandoned])
  }

  /** A run: any number of events, each enabled when it happens. */
  ghost predicate Run(run: seq<State>, events: seq<Event>) {
    && |run| == |events| + 1
    && run[0] == Init()
    && forall i {:trigger events[i]} ::
         0 <= i < |events| ==> Enabled(run[i], events[i]) && run[i + 1] == Apply(run[i], events[i])
  }

  predicate Leads(c: Caller) {
    c.Queued? || c.Fetching? || c.Fetched?
  }

  predicate CallerOk(s: State, c: nat)
    requires c in s.callers
  {
    match s.callers[c]
    case Queued(i) => i < |s.calls| && s.calls[i].leader == c && s.calls[i].outcome.None?
    case Fetching(i) => i < |s.calls| && s.calls[i].leader == c && s.calls[i].outcome.None?
    case Fetched(i, _) => i < |s.calls| && s.calls[i].leader == c && s.calls[i].outcome.None?
    case Joined(i) => i < |s.calls|
    case Returned(key, detail) => key in s.entries && s.entries[key] == detail
    case Abandoned => true
  }

  /** A key's one call is in flight while its leader is at work, and stored afterwards. */
  predicate CallOk(s: State, i: nat)
    requires i < |s.calls|
  {
    var call := s.calls[i];
    match call.outcome
    case None =>
      && call.key in s.inFlight && s.inFlight[call.key] == i && call.key !in s.entries
      && call.leader in s.callers && Leads(s.callers[call.leader]) && s.callers[call.leader].call == i
    case Some(detail) => call.key !in s.inFlight && call.key in s.entries && s.entries[call.key] == detail
  }

  predicate KeyOk(s: State, k: string) {
    && (k in s.inFlight ==>
        s.inFlight[k] < |s.calls| && s.calls[s.inFlight[k]].key == k && s.calls[s.inFlight[k]].outcome.None?)
    && (k in s.entries ==> exists i :: 0 <= i < |s.calls| && s.calls[i].key == k && s.calls[i].outcome.Some?)
  }

  ghost function Holders(s: State): set<nat> {
    set c | c in s.callers && s.callers[c].Fetching?
  }

  ghost predicate Inv(s: State) {
    && (forall c :: c in s.callers ==> CallerOk(s, c))
    && (forall i: nat :: i < |s.calls| ==> CallOk(s, i))
    && (forall k :: k in s.inFlight || k in s.entries ==> KeyOk(s, k))
    && (forall i, j :: 0 <= i < j < |s.calls| ==> s.calls[i].key != s.calls[j].key)
    && s.tokens == |Holders(s)| <= MAX_CONCURRENT_DETAIL_FETCHES
  }

  /** Entering without leading only records what the caller found. */
  lemma EnterFoundKeepsInv(s: State, who: nat, key: string)
    requires Inv(s) && Enabled(s, Enter(who, key)) && (key in s.entries || key in s.inFlight)
    ensures Inv(Apply(s, Enter(who, key)))
  {
    var s' := Apply(s, Enter(who, key));
    assert Holders(s') == Holders(s);
    assert KeyOk(s, key);
    forall i: nat | i < |s'.calls| ensures CallOk(s', i) { assert CallOk(s, i); }
    forall c | c in s'.callers ensures CallerOk(s', c) { assert c != who ==> CallerOk(s, c); }
    forall k | k in s'.inFlight || k in s'.entries ensures KeyOk(s', k) { assert KeyOk(s, k); }
  }

  lemma LeadKeepsInv(s: State, who: nat, key: string)
    requires Inv(s) && Enabled(s, Enter(who, key)) && key !in s.entries && key !in s.inFlight
    ensures Inv(Apply(s, Enter(who, key)))
  {
    var s' := Apply(s, Enter(who, key));
    assert Holders(s') == Holders(s);
    forall i: nat | i < |s'.calls| ensures CallOk(s', i) {
      if i < |s.calls| {
        assert CallOk(s, i) && s'.calls[i] == s.calls[i];
      }
    }
    forall c | c in s'.callers ensures CallerOk(s', c) {
      if c != who {
        assert CallerOk(s, c);
      }
    }
    forall k | k in s'.inFlight || k in s'.entries ensures KeyOk(s', k) {
      if k != key {
        assert KeyOk(s, k);
        if k in s.entries {
          var i :| 0 <= i < |s.calls| && s.calls[i].key == k && s.calls[i].outcome.Some?;
          assert s'.calls[i] == s.calls[i];
        }
      }
    }
    forall i, j | 0 <= i < j < |s'.calls| ensures s'.calls[i].key != s'.calls[j].key {
      assert s'.calls[i] == s.calls[i] && CallOk(s, i);
    }
  }

  lemma StoreKeepsInv(s: State, who: nat)
    requires Inv(s) && Enabled(s, Store(who))
    ensures Inv(Apply(s, Store(who)))
  {
    var s' := Apply(s, Store(who));
    var i := s.callers[who].call;
    assert CallerOk(s, who) && CallOk(s, i);
    assert Holders(s') == Holders(s);
    forall j: nat | j < |s'.calls| ensures CallOk(s', j) { assert CallOk(s, j); }
    forall c | c in s'.callers ensures CallerOk(s', c) { assert CallerOk(s, c); }
    StoreKeepsKeys(s, who);
  }

  lemma StoreKeepsKeys(s: State, who: nat)
    requires Inv(s) && Enabled(s, Store(who))
    ensures var s' := Apply(s, Store(who)); forall k :: k in s'.inFlight || k in s'.entries ==> KeyOk(s', k)
  {
    var s' := Apply(s, Store(who));
    var i := s.callers[who].call;
    assert CallerOk(s, who) && CallOk(s, i);
    forall k | k in s'.inFlight || k in s'.entries ensures KeyOk(s', k) {
      if k == s.calls[i].key {
        assert s'.calls[i].key == k && s'.calls[i].outcome.Some?;
      } else {
        assert KeyOk(s, k);
        if k in s.entries {
          var j :| 0 <= j < |s.calls| && s.calls[j].key == k && s.calls[j].outcome.Some?;
          assert s'.calls[j] == s.calls[j];
        }
      }
    }
  }

  /** The events that only move one caller on, with or without a token. */
  lemma MoveKeepsInv(s: State, e: Event)
    requires Inv(s) && Enabled(s, e) && !e.Enter? && !e.Store?
    ensures Inv(Apply(s, e))
  {
    var s' := Apply(s, e);
    assert CallerOk(s, e.who);
    assert s'.calls == s.calls && s'.inFlight == s.inFlight && s'.entries == s.entries;
    forall j: nat | j < |s'.calls| ensures CallOk(s', j) { assert CallOk(s, j); }
    forall c | c in s'.callers ensures CallerOk(s', c) {
      assert CallerOk(s, c);
      if e.Wake? { assert CallOk(s, s.callers[e.who].call); }
    }
    forall k | k in s'.inFlight || k in s'.entries ensures KeyOk(s', k) { assert KeyOk(s, k); }
    MoveKeepsTokens(s, e);
  }

  lemma MoveKeepsTokens(s: State, e: Event)
    requires s.tokens == |Holders(s)| <= MAX_CONCURRENT_DETAIL_FETCHES && Enabled(s, e) && !e.Enter? && !e.Store?
    ensures Apply(s, e).tokens == |Holders(Apply(s, e))| <= MAX_CONCURRENT_DETAIL_FETCHES
  {
    if e.Acquire? {
      AcquireTakesOne(s, e.who);
    } else if e.Release? {
      ReleaseGivesOne(s, e.who, e.detail);
    } else {
      assert Holders(Apply(s, e)) == Holders(s);
    }
  }

  lemma AcquireTakesOne(s: State, who: nat)
    requires Enabled(s, Acquire(who))
    ensures Holders(Apply(s, Acquire(who))) == Holders(s) + {who} && who !in Holders(s)
  {
  }

  lemma ReleaseGivesOne(s: State, who: nat, detail: Detail)
    requires Enabled(s, Release(who, detail))
    ensures Holders(Apply(s, Release(who, detail))) == Holders(s) - {who} && who in Holders(s)
  {
  }

  lemma {:induction false} InvOverRun(run: seq<State>, events: seq<Event>, n: nat)
    requires Run(run, events) && n < |run|
    ensures Inv(run[n])
  {
    if n > 0 {
      InvOverRun(run, events, n - 1);
      var s, e := run[n - 1], events[n - 1];
      assert Enabled(run[n - 1], events[n - 1]) && run[n - 1 + 1] == Apply(s, e);
      if e.Enter? && (e.key in s.entries || e.key in s.inFlight) {
        EnterFoundKeepsInv(s, e.who, e.key);
      } else if e.Enter? {
        LeadKeepsInv(s, e.who, e.key);
      } else if e.Store? {
        StoreKeepsInv(s, e.who);
      } else {
        MoveKeepsInv(s, e);
      }
    } else {
      assert Holders(Init()) == {};
    }
  }

  // ---- What holds over the life of one cache ----

  /**
    Every reachable state: `entries` and `inFlight` share no key, each key has at most one leader, as many
    tokens are out as fetches run, at most three, and a caller that returned a result holds what is stored for its key.
  */
  lemma CacheSafety(run: seq<State>, events: seq<Event>, n: nat)
    requires Run(run, events) && n < |run|
    ensures run[n].entries.Keys !! run[n].inFlight.Keys
    ensures |Holders(run[n])| == run[n].tokens <= 3
    ensures forall a, b ::
              && a in run[n].callers && b in run[n].callers
              && Leads(run[n].callers[a]) && Leads(run[n].callers[b]) ==>
              var i, j := run[n].callers[a].call, run[n].callers[b].call;
              i < |run[n].calls| && j < |run[n].calls| && (run[n].calls[i].key == run[n].calls[j].key ==> a == b)
    ensures forall c :: c in run[n].callers && run[n].callers[c].Returned? ==>
              var key := run[n].callers[c].key;
              key in run[n].entries && run[n].entries[key] == run[n].callers[c].detail
  {
    InvOverRun(run, events, n);
    var s := run[n];
    forall k | k in s.entries ensures k !in s.inFlight {
      assert KeyOk(s, k);
      var i :| 0 <= i < |s.calls| && s.calls[i].key == k && s.calls[i].outcome.Some?;
      assert CallOk(s, i);
    }
    forall a, b | a in s.callers && b in s.callers && Leads(s.callers[a]) && Leads(s.callers[b])
      ensures var i, j := s.callers[a].call, s.callers[b].call;
        i < |s.calls| && j < |s.calls| && (s.calls[i].key == s.calls[j].key ==> a == b)
    {
      assert CallerOk(s, a) && CallerOk(s, b);
    }
    forall c | c in s.callers && s.callers[c].Returned?
      ensures s.callers[c].key in s.entries && s.entries[s.callers[c].key] == s.callers[c].detail
    {
      assert CallerOk(s, c);
    }
  }

  /** The key a caller is after: that of the call it leads or joined, or of the result it returned. */
  function Asked(s: State, c: nat): Option<string> {
    if c !in s.callers then None
    else
      match s.callers[c]
      case Returned(key, _) => Some(key)
      case Abandoned => None
      case Queued(i) => if i < |s.calls| then Some(s.calls[i].key) else None
      case Fetching(i) => if i < |s.calls| then Some(s.calls[i].key) else None
      case Fetched(i, _) => if i < |s.calls| then Some(s.calls[i].key) else None
      case Joined(i) => if i < |s.calls| then Some(s.calls[i].key) else None
  }

  lemma EnterAsks(s: State, who: nat, key: string)
    requires Inv(s) && Enabled(s, Enter(who, key))
    ensures Asked(Apply(s, Enter(who, key)), who) == Some(key)
  {
    if key in s.inFlight {
      assert KeyOk(s, key);
    }
  }

  lemma StepKeepsAsked(s: State, e: Event, c: nat)
    requires Inv(s) && Enabled(s, e) && c in s.callers
    ensures c in Apply(s, e).callers
    ensures Apply(s, e).callers[c].Abandoned? || Asked(Apply(s, e), c) == Asked(s, c)
  {
    assert CallerOk(s, c);
  }

  /** Whatever happens after a caller asked for a key, it waits for, returns or gives up on that key. */
  lemma {:induction false} AnswersItsKey(run: seq<State>, events: seq<Event>, m: nat, n: nat, who: nat, key: string)
    requires Run(run, events) && m < n < |run| && events[m] == Enter(who, key)
    ensures who in run[n].callers && (run[n].callers[who].Abandoned? || Asked(run[n], who) == Some(key))
    decreases n
  {
    var e := StepTo(run, events, n);
    if m + 1 < n {
      AnswersItsKey(run, events, m, n - 1, who, key);
      StepKeepsAsked(run[n - 1], e, who);
    } else {
      EnterAsks(run[m], who, key);
    }
  }

  /** One fetch per key for the whole life of the cache, whatever the callers do. */
  lemma LeadersNeverRepeat(run: seq<State>, events: seq<Event>, n: nat, i: nat, j: nat)
    requires Run(run, events) && n < |run|
    requires i < |run[n].calls| && j < |run[n].calls| && run[n].calls[i].key == run[n].calls[j].key
    ensures i == j
  {
    InvOverRun(run, events, n);
  }

  /** The event that led to a state of a run. */
  ghost function StepTo(run: seq<State>, events: seq<Event>, n: nat): (e: Event)
    requires Run(run, events) && 0 < n < |run|
    ensures n <= |events| && e == events[n - 1]
    ensures Inv(run[n - 1]) && Enabled(run[n - 1], e) && run[n] == Apply(run[n - 1], e)
  {
    InvOverRun(run, events, n - 1);
    assert run[n - 1 + 1] == Apply(run[n - 1], events[n - 1]);
    events[n - 1]
  }

  lemma StepKeepsStored(s: State, e: Event, key: string)
    requires Inv(s) && Enabled(s, e) && key in s.entries
    ensures key in Apply(s, e).entries && Apply(s, e).entries[key] == s.entries[key]
  {
    if e.Store? {
      assert CallerOk(s, e.who) && CallOk(s, s.callers[e.who].call);
    }
  }

  lemma NextKeepsStored(run: seq<State>, events: seq<Event>, n: nat, key: string)
    requires Run(run, events) && 0 < n < |run| && key in run[n - 1].entries
    ensures key in run[n].entries && run[n].entries[key] == run[n - 1].entries[key]
  {
    StepKeepsStored(run[n - 1], StepTo(run, events, n), key);
  }

  lemma {:induction false} StoredIsPermanent(run: seq<State>, events: seq<Event>, m: nat, n: nat, key: string)
    requires Run(run, events) && m <= n < |run| && key in run[m].entries
    ensures key in run[n].entries && run[n].entries[key] == run[m].entries[key]
  {
    if m < n {
      StoredIsPermanent(run, events, m, n - 1, key);
      NextKeepsStored(run, events, n, key);
    }
  }

  /** A leader that gave up its fetch still has the empty result to store, or the key holds it already. */
  predicate Poisoned(s: State, who: nat, call: nat, key: string) {
    if key in s.entries then s.entries[key] == Empty
    else who in s.callers && s.callers[who] == Fetched(call, Empty) && call < |s.calls| && s.calls[call].key == key
  }

  lemma StepKeepsPoisoned(s: State, e: Event, who: nat, call: nat, key: string)
    requires Inv(s) && Enabled(s, e) && Poisoned(s, who, call, key)
    ensures Poisoned(Apply(s, e), who, call, key)
  {
    if key in s.entries {
      StepKeepsStored(s, e, key);
    } else if e.Store? && e.who != who {
      StoresItsOwnKey(s, e.who, who);
    }
  }

  lemma StoresItsOwnKey(s: State, a: nat, b: nat)
    requires Inv(s) && Enabled(s, Store(a)) && b in s.callers && s.callers[b].Fetched? && a != b
    ensures s.callers[b].call < |s.calls| && s.calls[s.callers[a].call].key != s.calls[s.callers[b].call].key
  {
    assert CallerOk(s, a) && CallerOk(s, b);
  }

  lemma {:induction false} PoisonedOverRun(run: seq<State>, events: seq<Event>, m: nat, n: nat, who: nat, call: nat,
      key: string)
    requires Run(run, events) && m <= n < |run| && Poisoned(run[m], who, call, key)
    ensures Poisoned(run[n], who, call, key)
  {
    if m < n {
      PoisonedOverRun(run, events, m, n - 1, who, call, key);
      StepKeepsPoisoned(run[n - 1], StepTo(run, events, n), who, call, key);
    }
  }

  lemma CancelPoisons(s: State, who: nat)
    requires Inv(s) && Enabled(s, Cancel(who))
    ensures var call := s.callers[who].call;
      call < |s.calls| && Poisoned(Apply(s, Cancel(who)), who, call, s.calls[call].key)
  {
    assert CallerOk(s, who) && CallOk(s, s.callers[who].call);
  }

  /**
    A leader whose context ends before it gets a token makes its key empty for good: from that event on, every caller
    that returns a result for the key, then or ever after, returns the empty one.
  */
  lemma {:induction false} CancelledLeaderPoisonsKey(run: seq<State>, events: seq<Event>, m: nat, n: nat, c: nat)
    requires Run(run, events) && m < n < |run| && events[m].Cancel?
    requires c in run[n].callers && run[n].callers[c].Returned?
    ensures events[m].who in run[m].callers && run[m].callers[events[m].who].Queued?
    ensures var call := run[m].callers[events[m].who].call;
      call < |run[m].calls| && (run[n].callers[c].key == run[m].calls[call].key ==> run[n].callers[c].detail == Empty)
  {
    InvOverRun(run, events, m);
    InvOverRun(run, events, n);
    var s, s', e := run[m], run[m + 1], events[m];
    assert Enabled(run[m], events[m]) && run[m + 1] == Apply(run[m], events[m]);
    CancelPoisons(s, e.who);
    var call := s.callers[e.who].call;
    PoisonedOverRun(run, events, m + 1, n, e.who, call, s.calls[call].key);
    assert CallerOk(run[n], c);
  }

  /** What getOrFetch hands back: the caller's own source name on a usable result. */
  function ForSource(detail: Detail, sourceName: string): Detail {
    if detail.Detail? && detail.ok then detail.(source := sourceName) else detail
  }

  /** Callers of one key are answered alike but for the source name, which on a usable result is each caller's own. */
  lemma AnswersDifferInSource(detail: Detail, mine: string, theirs: string)
    ensures var a, b := ForSource(detail, mine), ForSource(detail, theirs);
      && a.Detail? == b.Detail? == detail.Detail?
      && (detail.Detail? ==> a.ok == b.ok == detail.ok && a.body == b.body == detail.body)
      && (detail.Detail? && detail.ok ==> a.source == mine && b.source == theirs)
      && (detail.Detail? && !detail.ok ==> a.source == b.source == detail.source)
  {
  }

  class Cache {
    var entries: map<string, Detail>
    var inFlight: map<string, nat>
    var calls: seq<InFlight>
    var sem: nat
    ghost var protocol: State

    ghost predicate Valid()
      reads this
    {
      && protocol.entries == entries
      && protocol.inFlight == inFlight
      && protocol.calls == calls
      && protocol.tokens == sem
    }

    constructor ()
      ensures Valid() && protocol == Init()
    {
      entries, inFlight, calls, sem := map[], map[], [], 0;
      protocol := Init();
    }

    /**
      First critical section: a stored result under the caller's source name, a call to join, or a new call to
      lead.
    */
    method Begin(who: nat, key: string, sourceName: string) returns (hit: Option<Detail>, call: nat, lead: bool)
      requires Valid() && who !in protocol.callers
      modifies this
      ensures Valid() && protocol == Apply(old(protocol), Enter(who, key))
      ensures hit.Some? <==> key in old(entries)
      ensures hit.Some? ==>
                protocol.callers[who].Returned? && hit.value == ForSource(protocol.callers[who].detail, sourceName)
      ensures hit.None? ==> protocol.callers[who] == if lead then Queued(call) else Joined(call)
    {
      protocol := Apply(protocol, Enter(who, key));
      if key in entries {
        return Some(ForSource(entries[key], sourceName)), 0, false;
      }
      if key in inFlight {
        return None, inFlight[key], false;
      }
      hit, call, lead := None, |calls|, true;
      inFlight := inFlight[key := call];
      calls := calls + [InFlight(key, who, None)];
    }

    /** The leader's select: a token if one is free. */
    method AcquireToken(who: nat)
      requires Valid() && who in protocol.callers && protocol.callers[who].Queued?
      requires sem < MAX_CONCURRENT_DETAIL_FETCHES
      modifies this`sem, this`protocol
      ensures Valid() && protocol == Apply(old(protocol), Acquire(who))
    {
      protocol := Apply(protocol, Acquire(who));
      sem := sem + 1;
    }

    method ReleaseToken(who: nat, detail: Detail)
      requires Valid() && who in protocol.callers && protocol.callers[who].Fetching? && sem > 0
      modifies this`sem, this`protocol
      ensures Valid() && protocol == Apply(old(protocol), Release(who, detail))
    {
      protocol := Apply(protocol, Release(who, detail));
      sem := sem - 1;
    }

    /** The other branch of the leader's select: its context ended first. */
    method CancelWait(who: nat) returns (detail: Detail)
      requires Valid() && who in protocol.callers && protocol.callers[who].Queued?
      modifies this`protocol
      ensures Valid() && protocol == Apply(old(protocol), Cancel(who))
      ensures protocol.callers[who] == Fetched(old(protocol).callers[who].call, detail)
    {
      protocol := Apply(protocol, Cancel(who));
      detail := Empty;
    }

    /** The leader's last critical section, whatever it has by then. */
    method StoreResult(who: nat, call: nat, detail: Detail, sourceName: string) returns (answer: Detail)
      requires Valid() && who in protocol.callers && protocol.callers[who] == Fetched(call, detail) && call < |calls|
      modifies this`entries, this`inFlight, this`calls, this`protocol
      ensures Valid() && protocol == Apply(old(protocol), Store(who))
      ensures calls[call].key in entries && entries[calls[call].key] == detail && calls[call].key !in inFlight
      ensures answer == ForSource(detail, sourceName)
    {
      protocol := Apply(protocol, Store(who));
      var key := calls[call].key;
      entries := entries[key := detail];
      inFlight := inFlight - {key};
      calls := calls[call := calls[call].(outcome := Some(detail))];
      answer := ForSource(detail, sourceName);
    }

    /** A joiner whose leader is done: the call's result, under the joiner's own source name. */
    method Join(who: nat, call: nat, sourceName: string) returns (answer: Detail)
      requires Valid() && who in protocol.callers && protocol.callers[who] == Joined(call)
      requires call < |calls| && calls[call].outcome.Some?
      modifies this`protocol
      ensures Valid() && protocol == Apply(old(protocol), Wake(who))
      ensures protocol.callers[who].Returned? && answer == ForSource(protocol.callers[who].detail, sourceName)
    {
      protocol := Apply(protocol, Wake(who));
      answer := ForSource(calls[call].outcome.value, sourceName);
    }

    /** A joiner whose own context ends. */
    method Abandon(who: nat) returns (answer: Detail)
      requires Valid() && who in protocol.callers && protocol.callers[who].Joined?
      modifies this`protocol
      ensures Valid() && protocol == Apply(old(protocol), GiveUp(who)) && answer == Empty
    {
      protocol := Apply(protocol, GiveUp(who));
      answer := Empty;
    }
  }
}
