/**
  The single-flight protocol behind the URL visit registry, the layoffs.fyi data cache and the source
  profile enricher: the first caller for a key fetches, the others wait for its result, and the owner
  decides from the result whether to forget it. Every critical section is one atomic event, and any
  number of callers interleave.
*/
module SingleFlight {
  import opened Options

  /** An entry record. Callers hold its index as the source holds a pointer, so it outlives its table slot. */
  datatype Call<K, R> = Call(key: K, leader: nat, outcome: Option<R>)

  datatype Caller<R> =
    | Leading(call: nat)             // running the direct fetch
    | Waiting(call: nat)             // blocked on the entry's `done` channel or on its own context
    | Returned(call: nat, result: R) // returned the entry's result
    | GaveUp(call: nat)              // its own context ended first

  datatype State<K, R> = State(
    calls: seq<Call<K, R>>,
    table: map<K, nat>,
    callers: map<nat, Caller<R>>,
    fetches: nat,
    hits: nat)

  datatype Event<K, R> =
    | Enter(who: nat, key: K)
    | Finish(who: nat, result: R)
    | Wake(who: nat)
    | GiveUp(who: nat)

  function Init<K, R>(): State<K, R> {
    State([], map[], map[], 0, 0)
  }

  predicate Enabled<K, R>(s: State<K, R>, e: Event<K, R>) {
    match e
    case Enter(who, _) => who !in s.callers
    case Finish(who, _) => who in s.callers && s.callers[who].Leading? && s.callers[who].call < |s.calls|
    case Wake(who) =>
      who in s.callers && s.callers[who].Waiting? && s.callers[who].call < |s.calls| &&
      s.calls[s.callers[who].call].outcome.Some?
    case GiveUp(who) => who in s.callers && s.callers[who].Waiting?
  }

  function Apply<K, R>(forget: R -> bool, s: State<K, R>, e: Event<K, R>): State<K, R>
    requires Enabled(s, e)
  {
    match e
    case Enter(who, key) =>
      if key in s.table then
        s.(callers := s.callers[who := Waiting(s.table[key])], hits := s.hits + 1)
      else
        State(s.calls + [Call(key, who, None)], s.table[key := |s.calls|],
              s.callers[who := Leading(|s.calls|)], s.fetches + 1, s.hits)
    case Finish(who, result) =>
      var i := s.callers[who].call;
      s.(calls := s.calls[i := s.calls[i].(outcome := Some(result))],
         table := if forget(result) then s.table - {s.calls[i].key} else s.table,
         callers := s.callers[who := Returned(i, result)])
    case Wake(who) =>
      var i := s.callers[who].call;
      s.(callers := s.callers[who := Returned(i, s.calls[i].outcome.value)])
    case GiveUp(who) =>
      s.(callers := s.callers[who := GaveUp(s.callers[who].call)])
  }

  ghost predicate Step<K(!new), R(!new)>(forget: R -> bool, s: State<K, R>, s': State<K, R>) {
    exists e: Event<K, R> :: Enabled(s, e) && s' == Apply(forget, s, e)
  }

  /** A run: any number of events of any callers, from the empty table. */
  ghost predicate Run<K(!new), R(!new)>(forget: R -> bool, run: seq<State<K, R>>) {
    && |run| > 0
    && run[0] == Init()
    && forall i :: 0 <= i < |run| - 1 ==> Step(forget, run[i], run[i + 1])
  }

  // ---- The invariant ----

  predicate CallerOk<K(==), R(==)>(s: State<K, R>, c: nat)
    requires c in s.callers
  {
    var caller := s.callers[c];
    && caller.call < |s.calls|
    && (caller.Leading? ==> s.calls[caller.call].leader == c && s.calls[caller.call].outcome.None?)
    && (caller.Returned? ==> s.calls[caller.call].outcome == Some(caller.result))
  }

  /** An unfinished call is in the table under its key and its leader is still fetching; so is a kept result. */
  predicate CallOk<K(==), R(==)>(forget: R -> bool, s: State<K, R>, i: nat)
    requires i < |s.calls|
  {
    var call := s.calls[i];
    && call.leader in s.callers
    && (call.outcome.None? ==> s.callers[call.leader] == Leading(i))
    && (call.outcome.Some? ==> s.callers[call.leader] == Returned(i, call.outcome.value))
    && (call.outcome.None? || !forget(call.outcome.value) ==> call.key in s.table && s.table[call.key] == i)
  }

  /** A table slot holds a live call of its key, and no finished one that should have been forgotten. */
  predicate SlotOk<K(==), R>(forget: R -> bool, s: State<K, R>, k: K)
    requires k in s.table
  {
    && s.table[k] < |s.calls|
    && s.calls[s.table[k]].key == k
    && (s.calls[s.table[k]].outcome.Some? ==> !forget(s.calls[s.table[k]].outcome.value))
  }

  /** A key is fetched again only after every earlier fetch of it has ended in a forgotten result. */
  ghost predicate RefetchOnlyAfterForgetting<K, R>(forget: R -> bool, s: State<K, R>) {
    forall i, j :: 0 <= i < j < |s.calls| && s.calls[i].key == s.calls[j].key ==>
      s.calls[i].outcome.Some? && forget(s.calls[i].outcome.value)
  }

  ghost predicate Inv<K, R>(forget: R -> bool, s: State<K, R>) {
    && (forall c :: c in s.callers ==> CallerOk(s, c))
    && (forall i: nat :: i < |s.calls| ==> CallOk(forget, s, i))
    && (forall k :: k in s.table ==> SlotOk(forget, s, k))
    && RefetchOnlyAfterForgetting(forget, s)
    && s.fetches == |s.calls|
    && s.fetches + s.hits == |s.callers|
  }

  lemma {:induction false} JoinKeepsInv<K, R>(forget: R -> bool, s: State<K, R>, who: nat, key: K)
    requires Inv(forget, s) && Enabled(s, Enter(who, key)) && key in s.table
    ensures Inv(forget, Apply(forget, s, Enter(who, key)))
  {
    var s' := Apply(forget, s, Enter(who, key));
    assert s'.callers.Keys == s.callers.Keys + {who};
    assert SlotOk(forget, s, key);
    forall i: nat | i < |s'.calls| ensures CallOk(forget, s', i) { assert CallOk(forget, s, i); }
    forall c | c in s'.callers ensures CallerOk(s', c) { assert c != who ==> CallerOk(s, c); }
    forall k | k in s'.table ensures SlotOk(forget, s', k) { assert SlotOk(forget, s, k); }
  }

  lemma {:induction false} LeadOnlyRefetches<K, R>(forget: R -> bool, s: State<K, R>, who: nat, key: K)
    requires Inv(forget, s) && Enabled(s, Enter(who, key)) && key !in s.table
    ensures RefetchOnlyAfterForgetting(forget, Apply(forget, s, Enter(who, key)))
  {
    var calls := Apply(forget, s, Enter(who, key)).calls;
    forall i, j | 0 <= i < j < |calls| && calls[i].key == calls[j].key
      ensures calls[i].outcome.Some? && forget(calls[i].outcome.value)
    {
      assert calls[i] == s.calls[i] && CallOk(forget, s, i);
      assert j < |s.calls| ==> calls[j] == s.calls[j];
    }
  }

  lemma {:induction false} LeadKeepsInv<K, R>(forget: R -> bool, s: State<K, R>, who: nat, key: K)
    requires Inv(forget, s) && Enabled(s, Enter(who, key)) && key !in s.table
    ensures Inv(forget, Apply(forget, s, Enter(who, key)))
  {
    var s' := Apply(forget, s, Enter(who, key));
    assert s'.callers.Keys == s.callers.Keys + {who};
    var calls := s'.calls;
    LeadOnlyRefetches(forget, s, who, key);
    forall i: nat | i < |calls| ensures CallOk(forget, s', i) {
      if i < |s.calls| {
        assert CallOk(forget, s, i) && calls[i] == s.calls[i];
      }
    }
    forall c | c in s'.callers ensures CallerOk(s', c) {
      if c != who {
        assert CallerOk(s, c) && calls[s.callers[c].call] == s.calls[s.callers[c].call];
      }
    }
    forall k | k in s'.table ensures SlotOk(forget, s', k) {
      if k != key {
        assert SlotOk(forget, s, k) && calls[s.table[k]] == s.calls[s.table[k]];
      }
    }
  }

  lemma {:induction false} FinishKeepsInv<K, R>(forget: R -> bool, s: State<K, R>, who: nat, result: R)
    requires Inv(forget, s) && Enabled(s, Finish(who, result))
    ensures Inv(forget, Apply(forget, s, Finish(who, result)))
  {
    var s' := Apply(forget, s, Finish(who, result));
    assert s'.callers.Keys == s.callers.Keys;
    var i := s.callers[who].call;
    assert CallerOk(s, who) && CallOk(forget, s, i);
    forall j: nat | j < |s'.calls| ensures CallOk(forget, s', j) { assert CallOk(forget, s, j); }
    forall c | c in s'.callers ensures CallerOk(s', c) { assert CallerOk(s, c); }
    forall k | k in s'.table ensures SlotOk(forget, s', k) { assert SlotOk(forget, s, k); }
  }

  lemma {:induction false} WaiterStepKeepsInv<K, R>(forget: R -> bool, s: State<K, R>, e: Event<K, R>)
    requires Inv(forget, s) && Enabled(s, e) && (e.Wake? || e.GiveUp?)
    ensures Inv(forget, Apply(forget, s, e))
  {
    var s' := Apply(forget, s, e);
    assert s'.callers.Keys == s.callers.Keys;
    forall j: nat | j < |s'.calls| ensures CallOk(forget, s', j) { assert CallOk(forget, s, j); }
    forall c | c in s'.callers ensures CallerOk(s', c) { assert CallerOk(s, c); }
    forall k | k in s'.table ensures SlotOk(forget, s', k) { assert SlotOk(forget, s, k); }
  }

  lemma {:induction false} ApplyKeepsInv<K, R>(forget: R -> bool, s: State<K, R>, e: Event<K, R>)
    requires Inv(forget, s) && Enabled(s, e)
    ensures Inv(forget, Apply(forget, s, e))
  {
    match e
    case Enter(who, key) =>
      if key in s.table {
        JoinKeepsInv(forget, s, who, key);
      } else {
        LeadKeepsInv(forget, s, who, key);
      }
    case Finish(who, result) => FinishKeepsInv(forget, s, who, result);
    case Wake(_) => WaiterStepKeepsInv(forget, s, e);
    case GiveUp(_) => WaiterStepKeepsInv(forget, s, e);
  }

  /** The invariant holds in every state of every run. */
  lemma {:induction false} InvOverRun<K(!new), R(!new)>(forget: R -> bool, run: seq<State<K, R>>, n: nat)
    requires Run(forget, run) && n < |run|
    ensures Inv(forget, run[n])
  {
    if n > 0 {
      InvOverRun(forget, run, n - 1);
      assert Step(forget, run[n - 1], run[(n - 1) + 1]);
      var e: Event<K, R> :| Enabled(run[n - 1], e) && run[n] == Apply(forget, run[n - 1], e);
      ApplyKeepsInv(forget, run[n - 1], e);
    }
  }

  // ---- What the invariant means to a caller ----

  /** At most one direct fetch runs per key, and the table slot of that key is that leader's own entry. */
  lemma {:induction false} OneLeaderPerKey<K, R>(forget: R -> bool, s: State<K, R>, a: nat, b: nat)
    requires Inv(forget, s)
    requires a in s.callers && s.callers[a].Leading? && b in s.callers && s.callers[b].Leading?
    ensures s.callers[a].call < |s.calls| && s.callers[b].call < |s.calls|
    ensures s.calls[s.callers[a].call].key in s.table
    ensures s.table[s.calls[s.callers[a].call].key] == s.callers[a].call
    ensures s.calls[s.callers[a].call].key == s.calls[s.callers[b].call].key ==> a == b
  {
    var i, j := s.callers[a].call, s.callers[b].call;
    assert CallerOk(s, a) && CallerOk(s, b) && CallOk(forget, s, i) && CallOk(forget, s, j);
  }

  /** Two callers that return from one entry return the same value, and it is the entry's leader's value. */
  lemma {:induction false} ReturnedIsLeaders<K, R>(forget: R -> bool, s: State<K, R>, c: nat)
    requires Inv(forget, s) && c in s.callers && s.callers[c].Returned?
    ensures s.callers[c].call < |s.calls|
    ensures var leader := s.calls[s.callers[c].call].leader;
            leader in s.callers && s.callers[leader] == s.callers[c]
  {
    var i := s.callers[c].call;
    assert CallerOk(s, c) && CallOk(forget, s, i);
  }

  /** Nobody waits in vain: a waiting caller can wake now, or its leader is still fetching and may finish. */
  lemma {:induction false} NoStrandedWaiter<K, R>(forget: R -> bool, s: State<K, R>, c: nat)
    requires Inv(forget, s) && c in s.callers && s.callers[c].Waiting?
    ensures s.callers[c].call < |s.calls|
    ensures s.calls[s.callers[c].call].leader in s.callers
    ensures Enabled(s, Wake(c)) || s.callers[s.calls[s.callers[c].call].leader] == Leading(s.callers[c].call)
  {
    var i := s.callers[c].call;
    assert CallerOk(s, c) && CallOk(forget, s, i);
  }

  /** A caller leads or waits on an entry of the key it asked for. */
  lemma {:induction false} EntersItsKey<K, R>(forget: R -> bool, s: State<K, R>, who: nat, key: K)
    requires Inv(forget, s) && who !in s.callers
    ensures var s' := Apply(forget, s, Enter(who, key));
      && who in s'.callers && (s'.callers[who].Leading? || s'.callers[who].Waiting?)
      && s'.callers[who].call < |s'.calls| && s'.calls[s'.callers[who].call].key == key
      && (s'.callers[who].Leading? <==> key !in s.table)
  {
    if key in s.table {
      assert SlotOk(forget, s, key);
    }
  }

  lemma {:induction false} StepKeepsCaller<K(!new), R(!new)>(forget: R -> bool, run: seq<State<K, R>>, n: nat, who: nat)
    requires Run(forget, run) && n + 1 < |run| && who in run[n].callers
    ensures who in run[n + 1].callers && run[n + 1].callers[who].call == run[n].callers[who].call
  {
    var s, s' := run[n], run[n + 1];
    assert Step(forget, s, s');
    var e: Event<K, R> :| Enabled(s, e) && s' == Apply(forget, s, e);
  }

  /** Whatever happens after a caller asked for a key, what it waits for or returns is a fetch of that key. */
  lemma {:induction false} AnswersItsKey<K(!new), R(!new)>(
    forget: R -> bool, run: seq<State<K, R>>, m: nat, n: nat, who: nat, key: K)
    requires Run(forget, run) && m < n < |run| && who !in run[m].callers
    requires run[m + 1] == Apply(forget, run[m], Enter(who, key))
    ensures who in run[n].callers && run[n].callers[who].call < |run[n].calls|
    ensures run[n].calls[run[n].callers[who].call].key == key
    decreases n
  {
    if m + 1 < n {
      AnswersItsKey(forget, run, m, n - 1, who, key);
      StepKeepsCaller(forget, run, n - 1, who);
      StepKeepsCall(forget, run, n - 1, run[n - 1].callers[who].call);
    } else {
      InvOverRun(forget, run, m);
      EntersItsKey(forget, run[m], who, key);
    }
  }

  ghost predicate SameCall<K, R>(s: State<K, R>, s': State<K, R>, i: nat) {
    && i < |s.calls| && i < |s'.calls|
    && s'.calls[i].key == s.calls[i].key && s'.calls[i].leader == s.calls[i].leader
    && (s.calls[i].outcome.Some? ==> s'.calls[i].outcome == s.calls[i].outcome)
  }

  lemma {:induction false} StepKeepsCall<K(!new), R(!new)>(forget: R -> bool, run: seq<State<K, R>>, n: nat, i: nat)
    requires Run(forget, run) && n + 1 < |run| && i < |run[n].calls|
    ensures SameCall(run[n], run[n + 1], i)
  {
    InvOverRun(forget, run, n);
    var s, s' := run[n], run[n + 1];
    assert Step(forget, s, s');
    var e: Event<K, R> :| Enabled(s, e) && s' == Apply(forget, s, e);
    if e.Finish? {
      assert CallerOk(s, e.who);
    }
  }

  /** An entry's key, leader and result never change once set, whether or not the table still holds it. */
  lemma {:induction false} ResultsArePermanent<K(!new), R(!new)>(
    forget: R -> bool, run: seq<State<K, R>>, m: nat, n: nat, i: nat)
    requires Run(forget, run) && m <= n < |run|
    requires i < |run[m].calls|
    ensures SameCall(run[m], run[n], i)
    decreases n
  {
    if m < n {
      ResultsArePermanent(forget, run, m, n - 1, i);
      StepKeepsCall(forget, run, n - 1, i);
    }
  }

  /** A result that is not forgotten answers every later caller for its key: no fetch of that key ever starts again. */
  lemma {:induction false} KeptResultStopsFetching<K(!new), R(!new)>(
    forget: R -> bool, run: seq<State<K, R>>, m: nat, n: nat, i: nat, j: nat)
    requires Run(forget, run) && m <= n < |run|
    requires i < |run[m].calls| && run[m].calls[i].outcome.Some? && !forget(run[m].calls[i].outcome.value)
    requires j < |run[n].calls| && run[n].calls[j].key == run[m].calls[i].key
    ensures j <= i
    ensures run[m].calls[i].key in run[n].table && run[n].table[run[m].calls[i].key] == i
  {
    ResultsArePermanent(forget, run, m, n, i);
    InvOverRun(forget, run, n);
    var s := run[n];
    assert CallOk(forget, s, i);
  }

  /**
    A joiner whose own context is alive still gets whatever its leader's fetch ended with, a forgotten
    result included: it waits on the entry it found, not on the key.
  */
  lemma {:induction false} JoinerInheritsForgottenResult<K(!new), R(!new)>(forget: R -> bool, key: K, result: R)
      returns (run: seq<State<K, R>>)
    requires forget(result)
    ensures Run(forget, run) && |run| == 5
    ensures run[3].table == map[] && 1 in run[3].callers && run[3].callers[1] == Waiting(0)
    ensures 1 in run[4].callers && run[4].callers[1] == Returned(0, result)
  {
    var s0: State<K, R> := Init();
    var e1, e2, e3, e4 := Enter(0, key), Enter(1, key), Finish(0, result), Wake(1);
    var s1 := Apply(forget, s0, e1);
    var s2 := Apply(forget, s1, e2);
    var s3 := Apply(forget, s2, e3);
    var s4 := Apply(forget, s3, e4);
    run := [s0, s1, s2, s3, s4];
    assert Step(forget, s0, s1) && Step(forget, s1, s2) && Step(forget, s2, s3) && Step(forget, s3, s4);
  }
}
