/**
  The source profile enricher: single flight per canonical profile URL with nothing ever forgotten, and a
  limiter per host that spaces Built In fetches and shuts them off for good after an HTTP block.
*/
module ProfileEnricher {
  import opened Options
  import opened SingleFlight

  // ---- The host limiter ----

  datatype Permit = NotLimited | Blocked | WaitUntil(slot: int)

  /** What the limiter does under its lock, with the clock read then. */
  datatype LimiterEvent = Reserve(now: int) | FinalCheck | After(blockError: bool)

  /** `slots` records every slot ever reserved, in order. */
  datatype Limiter = Limiter(isBuiltIn: bool, nextFetch: int, blocked: bool, slots: seq<int>)

  function Start(isBuiltIn: bool): Limiter {
    Limiter(isBuiltIn, 0, false, [])
  }

  function Max(a: int, b: int): int {
    if a < b then b else a
  }

  function Next(l: Limiter, interval: nat, e: LimiterEvent): Limiter {
    if !l.isBuiltIn then l
    else match e
      case Reserve(now) =>
        if l.blocked then l
        else var slot := Max(now, l.nextFetch); l.(nextFetch := slot + interval, slots := l.slots + [slot])
      case FinalCheck => l
      case After(blockError) => if blockError then l.(blocked := true) else l
  }

  /** The limiter after a run of events of any number of callers. */
  function Replay(l: Limiter, interval: nat, events: seq<LimiterEvent>): Limiter
    decreases |events|
  {
    if events == [] then l else Next(Replay(l, interval, events[..|events| - 1]), interval, events[|events| - 1])
  }

  class HostLimiter {
    const isBuiltIn: bool
    const interval: nat
    var nextFetch: int
    var blocked: bool
    ghost var slots: seq<int>
    /** Every critical section so far, in order. */
    ghost var events: seq<LimiterEvent>

    ghost function Abs(): Limiter
      reads this
    {
      Limiter(isBuiltIn, nextFetch, blocked, slots)
    }

    ghost predicate Valid()
      reads this
    {
      Abs() == Replay(Start(isBuiltIn), interval, events)
    }

    constructor (isBuiltIn: bool, interval: nat)
      ensures Valid() && events == [] && this.isBuiltIn == isBuiltIn && this.interval == interval
    {
      this.isBuiltIn, this.interval := isBuiltIn, interval;
      nextFetch, blocked, slots, events := 0, false, [], [];
    }

    /** First critical section of beforeFetch: refuse if blocked, else take the next slot. */
    method Reserve(now: int) returns (permit: Permit)
      requires Valid()
      modifies this
      ensures Valid() && events == old(events) + [LimiterEvent.Reserve(now)]
      ensures permit.NotLimited? <==> !isBuiltIn
      ensures permit.Blocked? <==> isBuiltIn && old(blocked)
      ensures permit.WaitUntil? ==> slots == old(slots) + [permit.slot] && permit.slot >= now
    {
      events := events + [LimiterEvent.Reserve(now)];
      if !isBuiltIn {
        return NotLimited;
      }
      if blocked {
        return Blocked;
      }
      var waitUntil := now;
      if waitUntil < nextFetch {
        waitUntil := nextFetch;
      }
      nextFetch := waitUntil + interval;
      slots := slots + [waitUntil];
      return WaitUntil(waitUntil);
    }

    /** Second critical section of beforeFetch, after the wait: judged on all events so far. */
    method FinalCheck() returns (pass: bool)
      requires Valid()
      modifies this`events
      ensures Valid() && events == old(events) + [LimiterEvent.FinalCheck]
      ensures pass <==> Passes(isBuiltIn, interval, old(events))
    {
      events := events + [LimiterEvent.FinalCheck];
      if !isBuiltIn {
        return true;
      }
      pass := !blocked;
    }

    method AfterFetch(blockError: bool)
      requires Valid()
      modifies this`blocked, this`events
      ensures Valid() && events == old(events) + [After(blockError)]
    {
      events := events + [After(blockError)];
      if !isBuiltIn || !blockError {
        return;
      }
      blocked := true;
    }
  }

  lemma {:induction false} SlotsAreSpaced(isBuiltIn: bool, interval: nat, events: seq<LimiterEvent>, i: nat, j: nat)
    requires i < j < |Replay(Start(isBuiltIn), interval, events).slots|
    ensures var slots := Replay(Start(isBuiltIn), interval, events).slots;
            slots[j] - slots[i] >= interval * (j - i)
    decreases |events|, j
  {
    var l := Replay(Start(isBuiltIn), interval, events);
    if events != [] {
      var before := Replay(Start(isBuiltIn), interval, events[..|events| - 1]);
      if j < |before.slots| {
        SlotsAreSpaced(isBuiltIn, interval, events[..|events| - 1], i, j);
      } else {
        NextFetchClearsSlots(isBuiltIn, interval, events[..|events| - 1]);
        if i < j - 1 {
          SlotsAreSpaced(isBuiltIn, interval, events[..|events| - 1], i, j - 1);
          assert interval * (j - i) == interval * (j - 1 - i) + interval;
        }
      }
    }
  }

  /**
    A Built In host that is not blocked gets the earliest slot that is neither in the past nor within an interval of the
    last one; a blocked host gets none.
  */
  lemma {:induction false} SlotIsEarliest(interval: nat, events: seq<LimiterEvent>, now: int)
    ensures var l, r := Replay(Start(true), interval, events), Replay(Start(true), interval, events + [Reserve(now)]);
      if exists i :: 0 <= i < |events| && events[i] == After(true) then r.slots == l.slots
      else
        var free := if l.slots == [] then 0 else l.slots[|l.slots| - 1] + interval;
        r.slots == l.slots + [if now < free then free else now]
  {
    assert (events + [Reserve(now)])[..|events|] == events;
    PassesIffNoBlockBefore(interval, events);
    StaysBuiltIn(interval, events);
    NextFetchClearsSlots(true, interval, events);
    NoSlotNoNext(interval, events);
  }

  lemma {:induction false} NoSlotNoNext(interval: nat, events: seq<LimiterEvent>)
    ensures Replay(Start(true), interval, events).slots == [] ==> Replay(Start(true), interval, events).nextFetch == 0
    decreases |events|
  {
    if events != [] {
      NoSlotNoNext(interval, events[..|events| - 1]);
      StaysBuiltIn(interval, events[..|events| - 1]);
    }
  }

  /** A host that is not Built In is never limited. */
  lemma {:induction false} OthersAreFree(interval: nat, events: seq<LimiterEvent>)
    ensures Replay(Start(false), interval, events) == Start(false) && Passes(false, interval, events)
    decreases |events|
  {
    if events != [] {
      OthersAreFree(interval, events[..|events| - 1]);
    }
  }

  /** The next slot never comes before one interval after the last reserved one. */
  lemma {:induction false} NextFetchClearsSlots(isBuiltIn: bool, interval: nat, events: seq<LimiterEvent>)
    ensures var l := Replay(Start(isBuiltIn), interval, events);
            l.slots != [] ==> l.nextFetch == l.slots[|l.slots| - 1] + interval
    decreases |events|
  {
    if events != [] {
      NextFetchClearsSlots(isBuiltIn, interval, events[..|events| - 1]);
    }
  }

  /**
    Once a Built In fetch has met a block, the limiter stays blocked and reserves no further slot, whatever
    follows.
  */
  lemma {:induction false} BlockIsForever(l: Limiter, interval: nat, events: seq<LimiterEvent>)
    requires l.isBuiltIn && l.blocked
    ensures Replay(l, interval, events) == l
    decreases |events|
  {
    if events != [] {
      BlockIsForever(l, interval, events[..|events| - 1]);
    }
  }

  /** The answer the source gives at a final check reached after a run. */
  predicate Passes(isBuiltIn: bool, interval: nat, events: seq<LimiterEvent>) {
    !isBuiltIn || !Replay(Start(isBuiltIn), interval, events).blocked
  }

  /** For a Built In host a final check passes exactly when no fetch before it reported a block. */
  lemma {:induction false} PassesIffNoBlockBefore(interval: nat, events: seq<LimiterEvent>)
    ensures Passes(true, interval, events) <==> forall i :: 0 <= i < |events| ==> events[i] != After(true)
    decreases |events|
  {
    if events != [] {
      PassesIffNoBlockBefore(interval, events[..|events| - 1]);
      StaysBuiltIn(interval, events[..|events| - 1]);
      assert events[..|events| - 1] + [events[|events| - 1]] == events;
    }
  }

  lemma {:induction false} StaysBuiltIn(interval: nat, events: seq<LimiterEvent>)
    ensures Replay(Start(true), interval, events).isBuiltIn
    decreases |events|
  {
    if events != [] {
      StaysBuiltIn(interval, events[..|events| - 1]);
    }
  }

  // ---- The enricher ----

  /** What an entry keeps when its leader is done: whether the profile gave an identity, and its page. */
  datatype Profile = Profile(ok: bool, html: string)

  predicate NeverForget(p: Profile) {
    false
  }

  class Enricher {
    const interval: nat
    var entries: map<string, nat>
    var calls: seq<Call<string, Profile>>
    var limiters: map<string, HostLimiter>
    ghost var protocol: State<string, Profile>

    ghost predicate Valid()
      reads this
    {
      protocol.calls == calls && protocol.table == entries
    }

    constructor (interval: nat)
      ensures Valid() && protocol == Init() && limiters == map[] && this.interval == interval
    {
      this.interval := interval;
      entries, calls, limiters := map[], [], map[];
      protocol := Init();
    }

    /** First critical section of EnrichWithStats; `key` is the canonical profile URL, which is not empty. */
    method Begin(who: nat, key: string) returns (call: nat, lead: bool)
      requires Valid() && who !in protocol.callers
      modifies this`entries, this`calls, this`protocol
      ensures Valid()
      ensures protocol == Apply(NeverForget, old(protocol), Enter(who, key))
      ensures lead <==> key !in old(entries)
      ensures protocol.callers[who] == if lead then Leading(call) else Waiting(call)
    {
      protocol := Apply(NeverForget, protocol, Enter(who, key));
      if key in entries {
        return entries[key], false;
      }
      call, lead := |calls|, true;
      entries := entries[key := call];
      calls := calls + [Call(key, who, None)];
    }

    /** Still under the enricher's lock: the limiter of a host is made once and shared from then on. */
    method LimiterFor(host: string, isBuiltIn: bool) returns (limiter: HostLimiter)
      modifies this`limiters
      ensures host in limiters && limiter == limiters[host]
      ensures host in old(limiters) ==> limiters == old(limiters)
      ensures host !in old(limiters) ==>
                && fresh(limiter) && limiter.Valid() && limiter.events == [] && limiter.isBuiltIn == isBuiltIn
                && limiters == old(limiters)[host := limiter]
    {
      if host in limiters {
        return limiters[host];
      }
      limiter := new HostLimiter(isBuiltIn, interval);
      limiters := limiters[host := limiter];
    }

    method Finish(who: nat, call: nat, profile: Profile)
      requires Valid() && who in protocol.callers && protocol.callers[who] == Leading(call) && call < |calls|
      modifies this`calls, this`protocol
      ensures Valid()
      ensures protocol == Apply(NeverForget, old(protocol), Event.Finish(who, profile))
    {
      protocol := Apply(NeverForget, protocol, Event.Finish(who, profile));
      calls := calls[call := calls[call].(outcome := Some(profile))];
    }

    method Join(who: nat, call: nat) returns (profile: Profile)
      requires Valid() && who in protocol.callers && protocol.callers[who] == Waiting(call)
      requires call < |calls| && calls[call].outcome.Some?
      modifies this`protocol
      ensures Valid()
      ensures protocol == Apply(NeverForget, old(protocol), Wake(who))
      ensures protocol.callers[who] == Returned(call, profile)
    {
      protocol := Apply(NeverForget, protocol, Wake(who));
      profile := calls[call].outcome.value;
    }

    method Abandon(who: nat, call: nat)
      requires Valid() && who in protocol.callers && protocol.callers[who] == Waiting(call)
      modifies this`protocol
      ensures Valid()
      ensures protocol == Apply(NeverForget, old(protocol), GiveUp(who))
    {
      protocol := Apply(NeverForget, protocol, GiveUp(who));
    }
  }

  /** Each canonical profile URL has at most one leader, hence at most one fetch, in the enricher's whole life. */
  lemma FetchedAtMostOnce(run: seq<State<string, Profile>>, n: nat, i: nat, j: nat)
    requires Run(NeverForget, run) && n < |run|
    requires i < |run[n].calls| && j < |run[n].calls| && run[n].calls[i].key == run[n].calls[j].key
    ensures i == j
  {
    InvOverRun(NeverForget, run, n);
  }
}
