/** The counting primitives of a fetch run: bounded workers, the browser page pool, the candidate limiter. */
module Bounded {
  import Text

  // ---- runBounded: a semaphore, a wait group and a loop, with any interleaving of its workers ----

  datatype Phase = Looping | Draining | Done

  datatype State = State(
    total: nat,
    limit: nat,
    next: nat,            // the loop variable
    tokens: nat,          // slots taken in the semaphore channel
    working: set<nat>,    // in work(i)
    leaving: set<nat>,    // token given back, wait group not yet
    finished: set<nat>,
    started: seq<nat>,    // indices handed to workers, in order
    cancelled: bool,
    phase: Phase)

  datatype Event = CancelContext | Spawn | StopOnCancel | EndLoop | GiveTokenBack(i: nat) | Leave(i: nat) | Return

  function Start(total: int, limit: int): State {
    State(if total <= 0 then 0 else total, if limit < 1 then 1 else limit, 0, 0, {}, {}, {}, [], false, Looping)
  }

  predicate Enabled(s: State, e: Event) {
    match e
    case CancelContext => true
    case Spawn => s.phase.Looping? && s.next < s.total && s.tokens < s.limit
    case StopOnCancel => s.phase.Looping? && s.next < s.total && s.cancelled
    case EndLoop => s.phase.Looping? && s.next >= s.total
    case GiveTokenBack(i) => i in s.working && s.tokens > 0
    case Leave(i) => i in s.leaving
    case Return => s.phase.Draining? && s.working == {} && s.leaving == {}
  }

  function Apply(s: State, e: Event): State
    requires Enabled(s, e)
  {
    match e
    case CancelContext => s.(cancelled := true)
    case Spawn =>
      s.(next := s.next + 1, tokens := s.tokens + 1, working := s.working + {s.next}, started := s.started + [s.next])
    case StopOnCancel => s.(phase := Draining)
    case EndLoop => s.(phase := Draining)
    case GiveTokenBack(i) => s.(tokens := s.tokens - 1, working := s.working - {i}, leaving := s.leaving + {i})
    case Leave(i) => s.(leaving := s.leaving - {i}, finished := s.finished + {i})
    case Return => s.(phase := Done)
  }

  ghost predicate Run(total: int, limit: int, run: seq<State>, events: seq<Event>) {
    && |run| == |events| + 1
    && run[0] == Start(total, limit)
    && forall i :: 0 <= i < |events| ==> Enabled(run[i], events[i]) && run[i + 1] == Apply(run[i], events[i])
  }

  ghost predicate Inv(s: State) {
    && s.tokens == |s.working| <= s.limit
    && s.next <= s.total
    && (forall i :: i in s.working || i in s.leaving || i in s.finished <==> 0 <= i < s.next)
    && s.working !! s.leaving && s.working !! s.finished && s.leaving !! s.finished
    && |s.started| == s.next && (forall i :: 0 <= i < s.next ==> s.started[i] == i)
    && (s.phase.Done? ==> s.working == {} && s.leaving == {})
    && (!s.phase.Looping? && !s.cancelled ==> s.next == s.total)
  }

  lemma StepKeepsInv(s: State, e: Event)
    requires Inv(s) && Enabled(s, e)
    ensures Inv(Apply(s, e))
  {
    match e
    case Spawn => assert s.next !in s.working;
    case GiveTokenBack(i) => assert i !in s.leaving;
    case _ =>
  }

  lemma {:induction false} InvOverRun(total: int, limit: int, run: seq<State>, events: seq<Event>, n: nat)
    requires Run(total, limit, run, events) && n < |run|
    ensures Inv(run[n]) && run[n].total == Start(total, limit).total && run[n].limit == Start(total, limit).limit
  {
    if n > 0 {
      InvOverRun(total, limit, run, events, n - 1);
      assert Enabled(run[n - 1], events[n - 1]) && run[n - 1 + 1] == Apply(run[n - 1], events[n - 1]);
      StepKeepsInv(run[n - 1], events[n - 1]);
    }
  }

  /** Never more than max(1, limit) workers in work(i), and never the same index twice. */
  lemma NeverTooManyWorkers(total: int, limit: int, run: seq<State>, events: seq<Event>, n: nat)
    requires Run(total, limit, run, events) && n < |run|
    ensures |run[n].working| <= if limit < 1 then 1 else limit
    ensures forall i, j :: 0 <= i < j < |run[n].started| ==> run[n].started[i] < run[n].started[j]
  {
    InvOverRun(total, limit, run, events, n);
  }

  /**
    runBounded returns with no worker left and every token back, having run exactly the indices 0..k-1,
    each once, and all of them when the context was never cancelled.
  */
  lemma ReturnsWithAllWorkDone(total: int, limit: int, run: seq<State>, events: seq<Event>, n: nat)
    requires Run(total, limit, run, events) && n < |run| && run[n].phase.Done?
    ensures run[n].working == {} && run[n].leaving == {} && run[n].tokens == 0
    ensures run[n].started == seq(|run[n].started|, i => i)
    ensures forall i :: i in run[n].finished <==> 0 <= i < |run[n].started|
    ensures !run[n].cancelled && total > 0 ==> |run[n].started| == total
  {
    InvOverRun(total, limit, run, events, n);
  }

  /** It cannot get stuck: until it has returned, some event other than a cancellation can happen. */
  lemma AlwaysMoves(total: int, limit: int, run: seq<State>, events: seq<Event>, n: nat) returns (e: Event)
    requires Run(total, limit, run, events) && n < |run| && !run[n].phase.Done?
    ensures !e.CancelContext? && Enabled(run[n], e)
  {
    InvOverRun(total, limit, run, events, n);
    var s := run[n];
    if s.leaving != {} {
      var i :| i in s.leaving;
      e := Leave(i);
    } else if s.working != {} {
      var i :| i in s.working;
      e := GiveTokenBack(i);
    } else if s.phase.Draining? {
      e := Return;
    } else if s.next < s.total {
      e := Spawn;
    } else {
      e := EndLoop;
    }
  }

  // ---- The page pool: slots wait in a buffered channel of the pool's size ----

  class PagePool {
    const size: nat
    var slots: seq<nat>
    ghost var held: set<nat>
    ghost var closed: bool

    /** No slot is in two places, and until close none is missing. */
    ghost predicate Valid()
      reads this
    {
      && (forall i, j :: 0 <= i < j < |slots| ==> slots[i] != slots[j])
      && (forall i :: 0 <= i < |slots| ==> slots[i] !in held)
      && |slots| + |held| <= size
      && (!closed ==> |slots| + |held| == size)
    }

    constructor (requested: int)
      ensures Valid() && held == {} && !closed && size == (if requested < 1 then 1 else requested)
    {
      size := if requested < 1 then 1 else requested;
      slots := seq(if requested < 1 then 1 else requested, i => i);
      held, closed := {}, false;
    }

    /** A receive from the channel; with none to receive the caller keeps waiting. */
    method Acquire() returns (slot: nat)
      requires Valid() && slots != []
      modifies this`slots, this`held
      ensures Valid()
      ensures slot == old(slots)[0] && slots == old(slots)[1..]
      ensures slot !in old(held) && held == old(held) + {slot}
    {
      slot := slots[0];
      assert forall i :: 0 < i < |slots| ==> slots[i] != slot;
      slots := slots[1..];
      held := held + {slot};
    }

    /** A held slot always has room in the channel, so the send does not block. */
    method Release(slot: nat)
      requires Valid() && slot in held
      modifies this`slots, this`held
      ensures Valid()
      ensures |old(slots)| < size
      ensures slots == old(slots) + [slot] && held == old(held) - {slot}
    {
      slots := slots + [slot];
      held := held - {slot};
    }

    method Close()
      requires Valid()
      modifies this`slots, this`closed
      ensures Valid() && slots == [] && closed
      ensures held == old(held)
    {
      closed := true;
      while slots != []
        invariant Valid() && closed
        decreases |slots|
      {
        slots := slots[1..];
      }
    }
  }

  // ---- The candidate limiter ----

  function Taken(limit: nat, used: nat, count: int): (taken: int)
    ensures count <= 0 ==> taken == count
    ensures count > 0 ==> 0 <= taken <= count
    ensures count > 0 && used <= limit ==> used + taken <= limit && (taken < count ==> used + taken == limit)
  {
    if count <= 0 then count
    else if used >= limit then 0
    else if count <= limit - used then count
    else limit - used
  }

  class CandidateLimiter {
    const limit: nat
    var used: map<string, nat>

    ghost predicate Valid()
      reads this
    {
      limit > 0 && forall k :: k in used ==> used[k] <= limit
    }

    function Used(source: string): nat
      reads this
    {
      var key := Text.Lower(Text.Trim(source));
      if key in used then used[key] else 0
    }

    /** Two spellings of a source share one counter. */
    lemma SpellingsShare(a: string, b: string)
      requires Text.EqualFold(Text.Trim(a), Text.Trim(b))
      ensures Used(a) == Used(b)
    {
    }

    constructor (limit: nat)
      requires limit > 0
      ensures Valid() && used == map[] && this.limit == limit
    {
      this.limit, used := limit, map[];
    }

    /** Whether a source gets nothing more, whatever it asks for; otherwise any request for some gets some. */
    method Exhausted(source: string) returns (yes: bool)
      ensures forall count :: count > 0 ==> (yes <==> Taken(limit, Used(source), count) == 0)
    {
      yes := Used(source) >= limit;
    }

    method TakeCount(source: string, count: int) returns (kept: int)
      requires Valid()
      modifies this`used
      ensures Valid()
      ensures kept == Taken(limit, old(Used(source)), count)
      ensures used == if count <= 0 || kept == 0 then old(used)
                      else old(used)[Text.Lower(Text.Trim(source)) := old(Used(source)) + kept]
      ensures forall other :: Used(other) == old(Used(other)) +
                if count > 0 && Text.EqualFold(Text.Trim(other), Text.Trim(source)) then kept else 0
    {
      if count <= 0 {
        return count;
      }
      var key := Text.Lower(Text.Trim(source));
      var remaining := limit - Used(source);
      if remaining <= 0 {
        return 0;
      }
      if count <= remaining {
        used := used[key := Used(source) + count];
        return count;
      }
      used := used[key := Used(source) + remaining];
      return remaining;
    }
  }

  function SumPositive(counts: seq<int>): nat {
    if counts == [] then 0 else (if counts[0] > 0 then counts[0] else 0) + SumPositive(counts[1..])
  }

  /** What a source is given in all over a sequence of requests. */
  function GivenInAll(limit: nat, used: nat, counts: seq<int>): nat
    decreases |counts|
  {
    if counts == [] then 0
    else
      var taken := if counts[0] > 0 then Taken(limit, used, counts[0]) else 0;
      taken + GivenInAll(limit, used + taken, counts[1..])
  }

  /** However a source splits its candidates over calls, it gets all of them up to the limit and no more. */
  lemma {:induction false} LimiterGivesTheMinimum(limit: nat, used: nat, counts: seq<int>)
    requires used <= limit
    ensures GivenInAll(limit, used, counts) ==
            if SumPositive(counts) <= limit - used then SumPositive(counts) else limit - used
    decreases |counts|
  {
    if counts != [] {
      var taken := if counts[0] > 0 then Taken(limit, used, counts[0]) else 0;
      LimiterGivesTheMinimum(limit, used + taken, counts[1..]);
    }
  }
}
