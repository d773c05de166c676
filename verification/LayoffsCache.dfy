/** The shared layoffs.fyi data cache: one key, no contexts, and any error is forgotten. */
module LayoffsCache {
  import opened Options
  import opened SingleFlight

  datatype Fetched = Fetched(data: string, err: Option<string>)

  predicate Failed(f: Fetched) {
    f.err.Some?
  }

  class DataCache {
    var entry: Option<nat>
    var entries: seq<Call<(), Fetched>>
    ghost var protocol: State<(), Fetched>

    ghost predicate Valid()
      reads this
    {
      && protocol.calls == entries
      && protocol.table == (if entry.Some? then map[() := entry.value] else map[])
    }

    constructor ()
      ensures Valid() && protocol == Init()
    {
      entry, entries := None, [];
      protocol := Init();
    }

    /** First critical section of data(): join the entry if there is one, else become its leader. */
    method Begin(who: nat) returns (call: nat, lead: bool)
      requires Valid() && who !in protocol.callers
      modifies this
      ensures Valid()
      ensures protocol == Apply(Failed, old(protocol), Enter(who, ()))
      ensures lead <==> old(entry).None?
      ensures protocol.callers[who] == if lead then Leading(call) else Waiting(call)
    {
      protocol := Apply(Failed, protocol, Enter(who, ()));
      if entry.Some? {
        return entry.value, false;
      }
      call, lead := |entries|, true;
      entry := Some(call);
      entries := entries + [Call((), who, None)];
    }

    /** Last critical section of a leader: an error empties the slot for the next caller. */
    method Finish(who: nat, call: nat, data: string, err: Option<string>)
      requires Valid() && who in protocol.callers && protocol.callers[who] == Leading(call) && call < |entries|
      modifies this
      ensures Valid()
      ensures protocol == Apply(Failed, old(protocol), Event.Finish(who, Fetched(data, err)))
      ensures entry == if err.Some? then None else old(entry)
    {
      protocol := Apply(Failed, protocol, Event.Finish(who, Fetched(data, err)));
      entries := entries[call := entries[call].(outcome := Some(Fetched(data, err)))];
      assert entries[call].key == ();
      if err.Some? {
        entry := None;
      }
    }

    method Join(who: nat, call: nat) returns (fetched: Fetched)
      requires Valid() && who in protocol.callers && protocol.callers[who] == Waiting(call)
      requires call < |entries| && entries[call].outcome.Some?
      modifies this`protocol
      ensures Valid()
      ensures protocol == Apply(Failed, old(protocol), Wake(who))
      ensures protocol.callers[who] == Returned(call, fetched)
    {
      protocol := Apply(Failed, protocol, Wake(who));
      fetched := entries[call].outcome.value;
    }
  }

  /** Never two fetches in flight: two leading callers are one caller. */
  lemma OneFetchInFlight(run: seq<State<(), Fetched>>, n: nat, a: nat, b: nat)
    requires Run(Failed, run) && n < |run|
    requires a in run[n].callers && run[n].callers[a].Leading?
    requires b in run[n].callers && run[n].callers[b].Leading?
    ensures a == b
  {
    InvOverRun(Failed, run, n);
    OneLeaderPerKey(Failed, run[n], a, b);
    assert run[n].calls[run[n].callers[a].call].key == () == run[n].calls[run[n].callers[b].call].key;
  }

  /**
    Over the life of the cache every fetch but the last has failed, so there is at most one success and
    each fetch after the first follows a failed one.
  */
  lemma EveryFetchButTheLastFailed(run: seq<State<(), Fetched>>, n: nat, i: nat)
    requires Run(Failed, run) && n < |run| && i + 1 < |run[n].calls|
    ensures run[n].calls[i].outcome.Some? && run[n].calls[i].outcome.value.err.Some?
  {
    InvOverRun(Failed, run, n);
    var s := run[n];
    assert s.calls[i].key == s.calls[i + 1].key;
  }

  /** After a success every caller that returns later returns that success. */
  lemma SuccessIsFinal(run: seq<State<(), Fetched>>, m: nat, n: nat, i: nat, c: nat)
    requires Run(Failed, run) && m <= n < |run|
    requires i < |run[m].calls| && run[m].calls[i].outcome.Some? && run[m].calls[i].outcome.value.err.None?
    requires c in run[n].callers && run[n].callers[c].Returned? && run[n].callers[c].result.err.None?
    ensures run[n].callers[c].result == run[m].calls[i].outcome.value
  {
    InvOverRun(Failed, run, n);
    ResultsArePermanent(Failed, run, m, n, i);
    var s, j := run[n], run[n].callers[c].call;
    assert CallerOk(s, c) && s.calls[j].key == s.calls[i].key;
    assert i < j ==> Failed(s.calls[i].outcome.value);
    assert j < i ==> Failed(s.calls[j].outcome.value);
  }
}
