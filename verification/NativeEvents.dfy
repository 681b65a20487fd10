/**
 The native OpenCL runtime on a compute node, as far as the daemon relies on it: commands wait for the
 events in their wait lists, user events are set from the callback of another event or from outside, and
 abnormal termination is passed on.
 */
module NativeEvents {
  import opened Seqs

  /** `SetBy`: a user event that the completion callback of `cause`, or the data transfer it starts, sets.
      `Free`: a user event that is set on a message from the host. */
  datatype Native = Command(waits: seq<nat>) | SetBy(cause: nat) | Free

  function Causes(n: Native): seq<nat> {
    match n
    case Command(waits) => waits
    case SetBy(cause) => [cause]
    case Free => []
  }

  /** Events refer to events that are older. */
  predicate WellFormed(events: seq<Native>) {
    forall i, c :: 0 <= i < |events| && c in Causes(events[i]) ==> c < i
  }

  /** Final statuses: zero for success, an error code below zero. */
  datatype State = State(events: seq<Native>, status: seq<Option<int>>)

  datatype Action = Enqueue(n: Native) | Finish(id: nat, result: int)

  predicate Done(s: State, i: nat) {
    i < |s.status| && s.status[i].Some?
  }

  predicate Enabled(s: State, a: Action) {
    match a
    case Enqueue(n) => forall c :: c in Causes(n) ==> c < |s.events|
    case Finish(i, result) =>
      && i < |s.events| && !Done(s, i) && result <= 0 && CanFinish(s, i)
      && (forall c :: c in Causes(s.events[i]) ==> Passes(s, s.events[i], c, result))
  }

  /** All that the event waits for has happened; only then does a command start. */
  predicate CanFinish(s: State, i: nat)
    requires i < |s.events|
  {
    forall c :: c in Causes(s.events[i]) ==> Done(s, c)
  }

  /** A failed cause makes a command fail; a callback forwards the error code. */
  predicate Passes(s: State, n: Native, c: nat, result: int) {
    Done(s, c) && s.status[c].value < 0 ==> if n.SetBy? then result == s.status[c].value else result < 0
  }

  function Apply(s: State, a: Action): State
    requires Enabled(s, a)
  {
    match a
    case Enqueue(n) => State(s.events + [n], s.status + [None])
    case Finish(i, result) => if i < |s.status| then s.(status := s.status[i := Some(result)]) else s
  }

  function Exec(run: seq<Action>): Option<State> {
    if run == [] then Some(State([], [])) else
    var s, a := Exec(run[..|run| - 1]), run[|run| - 1];
    if s.Some? && Enabled(s.value, a) then Some(Apply(s.value, a)) else None
  }

  ghost predicate Inv(s: State) {
    && |s.status| == |s.events| && WellFormed(s.events)
    && (forall i :: 0 <= i < |s.status| && s.status[i].Some? ==> Caused(s, i))
  }

  ghost predicate Caused(s: State, i: nat)
    requires i < |s.events| == |s.status| && s.status[i].Some?
  {
    && s.status[i].value <= 0
    && forall c :: c in Causes(s.events[i]) ==>
         && Done(s, c) && (s.status[i].value == 0 ==> s.status[c].value == 0)
         && (s.events[i].SetBy? && s.status[c].value < 0 ==> s.status[i] == s.status[c])
  }

  lemma StepInv(s: State, a: Action)
    requires Inv(s) && Enabled(s, a)
    ensures Inv(Apply(s, a))
  {
    var t := Apply(s, a);
    forall i | 0 <= i < |t.status| && t.status[i].Some? ensures Caused(t, i) {
      if i < |s.status| && s.status[i].Some? {
        StaysCaused(s, a, i);
      } else {
        NewlyCaused(s, i, a.result);
      }
    }
  }

  lemma StaysCaused(s: State, a: Action, i: nat)
    requires Inv(s) && Enabled(s, a) && i < |s.status| && s.status[i].Some?
    ensures Caused(Apply(s, a), i)
  {
    assert Caused(s, i);
  }

  lemma NewlyCaused(s: State, i: nat, result: int)
    requires Inv(s) && Enabled(s, Finish(i, result))
    ensures Caused(Apply(s, Finish(i, result)), i)
  {
    assert forall c :: c in Causes(s.events[i]) ==> c < i && Passes(s, s.events[i], c, result);
  }

  lemma {:induction false} RunInv(run: seq<Action>)
    requires Exec(run).Some?
    ensures Inv(Exec(run).value)
  {
    if run != [] {
      RunInv(run[..|run| - 1]);
      hide Inv, Enabled, Apply;
      StepInv(Exec(run[..|run| - 1]).value, run[|run| - 1]);
    }
  }

  /** An event whose causes are all done can finish, however they ended. */
  lemma MayFinish(s: State, i: nat) returns (result: int)
    requires Inv(s) && i < |s.events| && !Done(s, i) && CanFinish(s, i)
    ensures Enabled(s, Finish(i, result))
  {
    var n := s.events[i];
    result := if n.SetBy? && Done(s, n.cause) then s.status[n.cause].value else -1;
    forall c | c in Causes(n) ensures Passes(s, n, c, result) && result <= 0 {
      assert Caused(s, c);
    }
  }

  // ---- dependencies ----

  /** The event and all that it directly or indirectly waits for. */
  ghost function Upstream(events: seq<Native>, i: nat): set<nat>
    requires WellFormed(events)
    decreases i
  {
    if i >= |events| then {} else {i} + set c, u | c in Causes(events[i]) && u in Upstream(events, c) :: u
  }

  /** What all events of a list together wait for. */
  ghost predicate Forces(events: seq<Native>, list: seq<nat>, e: nat)
    requires WellFormed(events)
  {
    exists l :: l in list && e in Upstream(events, l)
  }

  lemma {:induction false} UpstreamDone(s: State, i: nat, u: nat)
    requires Inv(s) && Done(s, i) && u in Upstream(s.events, i)
    ensures Done(s, u) && (s.status[i] == Some(0) ==> s.status[u] == Some(0))
    decreases i
  {
    assert Caused(s, i);
    if u != i {
      var c :| c in Causes(s.events[i]) && u in Upstream(s.events, c);
      UpstreamDone(s, c, u);
    }
  }

  /** When a command may start, everything its wait list forces is done, successfully if the command is. */
  lemma ForcedIsDone(s: State, c: nat, e: nat)
    requires Inv(s) && c < |s.events| && CanFinish(s, c) && Forces(s.events, Causes(s.events[c]), e)
    ensures Done(s, e)
    ensures Done(s, c) && s.status[c] == Some(0) ==> s.status[e] == Some(0)
  {
    var l :| l in Causes(s.events[c]) && e in Upstream(s.events, l);
    UpstreamDone(s, l, e);
    if Done(s, c) {
      assert Caused(s, c);
    }
  }

  // ---- nothing else is forced ----

  ghost function All(events: seq<Native>, list: seq<nat>): set<nat>
    requires WellFormed(events)
  {
    set l, u | l in list && u in Upstream(events, l) :: u
  }

  lemma {:induction false} UpstreamClosed(events: seq<Native>, i: nat, u: nat, c: nat)
    requires WellFormed(events) && u in Upstream(events, i) && u < |events| && c in Causes(events[u])
    ensures c in Upstream(events, i)
    decreases i
  {
    if u == i {
      assert c in Upstream(events, c);
    } else {
      var d :| d in Causes(events[i]) && u in Upstream(events, d);
      UpstreamClosed(events, d, u, c);
    }
  }

  /** The first `k` events have been looked at, and those in `up` finished. */
  function Partial(events: seq<Native>, up: set<nat>, k: nat): State {
    State(events, seq(|events|, i => if 0 <= i < k && i in up then Some(0) else None))
  }

  /** Enqueues all events, then finishes those in `up`, oldest first. */
  function Schedule(events: seq<Native>, up: set<nat>, k: nat): seq<Action>
    requires k <= |events|
  {
    if k == 0 then Enqueues(events)
    else Schedule(events, up, k - 1) + if k - 1 in up then [Finish(k - 1, 0)] else []
  }

  function Enqueues(events: seq<Native>): seq<Action> {
    if events == [] then [] else Enqueues(events[..|events| - 1]) + [Enqueue(events[|events| - 1])]
  }

  lemma {:induction false} EnqueuesRun(events: seq<Native>)
    requires WellFormed(events)
    ensures Exec(Enqueues(events)) == Some(Partial(events, {}, 0))
  {
    if events != [] {
      var front, n := events[..|events| - 1], events[|events| - 1];
      EnqueuesRun(front);
      hide Exec;
      ExecAppend(Enqueues(front), Enqueue(n));
      assert front + [n] == events;
      assert Partial(front, {}, 0).status + [None] == Partial(events, {}, 0).status;
    } else {
      assert Partial([], {}, 0).status == [];
    }
  }

  lemma ExecAppend(run: seq<Action>, a: Action)
    requires Exec(run).Some? && Enabled(Exec(run).value, a)
    ensures Exec(run + [a]) == Some(Apply(Exec(run).value, a))
  {
    hide Enabled, Apply;
    assert (run + [a])[..|run + [a]| - 1] == run;
  }

  predicate Closed(events: seq<Native>, up: set<nat>) {
    forall u, c :: u in up && u < |events| && c in Causes(events[u]) ==> c in up
  }

  lemma PartialStep(events: seq<Native>, up: set<nat>, k: nat)
    requires WellFormed(events) && Closed(events, up) && k < |events| && k in up
    ensures var s := Partial(events, up, k);
            Enabled(s, Finish(k, 0)) && Apply(s, Finish(k, 0)) == Partial(events, up, k + 1)
  {
    var s := Partial(events, up, k);
    assert forall c :: c in Causes(events[k]) ==> c < k && s.status[c] == Some(0);
    assert s.status[k := Some(0)] == Partial(events, up, k + 1).status;
  }

  lemma {:induction false} ScheduleRun(events: seq<Native>, up: set<nat>, k: nat)
    requires WellFormed(events) && Closed(events, up) && k <= |events|
    ensures Exec(Schedule(events, up, k)) == Some(Partial(events, up, k))
  {
    hide Exec, Enabled, Apply, WellFormed, Closed;
    if k == 0 {
      EnqueuesRun(events);
      assert Partial(events, up, 0).status == Partial(events, {}, 0).status;
    } else {
      ScheduleRun(events, up, k - 1);
      if k - 1 in up {
        PartialStep(events, up, k - 1);
        ExecAppend(Schedule(events, up, k - 1), Finish(k - 1, 0));
      } else {
        assert Schedule(events, up, k - 1) + [] == Schedule(events, up, k - 1);
        assert Partial(events, up, k - 1).status == Partial(events, up, k).status;
      }
    }
  }

  /** A command starts only after event `e` is done, in all runs, exactly when its wait list forces `e`. */
  lemma OrderIsExact(events: seq<Native>, c: nat, e: nat)
    requires WellFormed(events) && c < |events|
    ensures Forces(events, Causes(events[c]), e) <==>
              (forall run :: Exec(run).Some? && Exec(run).value.events == events && CanFinish(Exec(run).value, c)
                 ==> Done(Exec(run).value, e))
  {
    var list := Causes(events[c]);
    if Forces(events, list, e) {
      forall run | Exec(run).Some? && Exec(run).value.events == events && CanFinish(Exec(run).value, c)
        ensures Done(Exec(run).value, e)
      {
        RunInv(run);
        ForcedIsDone(Exec(run).value, c, e);
      }
    } else {
      NotForced(events, c, e);
    }
  }

  lemma NotForced(events: seq<Native>, c: nat, e: nat)
    requires WellFormed(events) && c < |events| && !Forces(events, Causes(events[c]), e)
    ensures var run := Schedule(events, All(events, Causes(events[c])), |events|);
            && Exec(run).Some? && Exec(run).value.events == events && CanFinish(Exec(run).value, c)
            && !Done(Exec(run).value, e)
  {
    var list := Causes(events[c]);
    hide Forces, Upstream, Schedule, All, Closed, WellFormed, Exec, Enabled, Apply;
    AllClosed(events, list);
    AllHasList(events, c);
    NotInAll(events, list, e);
    ScheduleRun(events, All(events, list), |events|);
  }

  lemma NotInAll(events: seq<Native>, list: seq<nat>, e: nat)
    requires WellFormed(events) && !Forces(events, list, e)
    ensures e !in All(events, list)
  {
  }

  lemma AllClosed(events: seq<Native>, list: seq<nat>)
    requires WellFormed(events)
    ensures Closed(events, All(events, list))
  {
    forall u, d | u in All(events, list) && u < |events| && d in Causes(events[u]) ensures d in All(events, list) {
      var l :| l in list && u in Upstream(events, l);
      UpstreamClosed(events, l, u, d);
    }
  }

  lemma AllHasList(events: seq<Native>, c: nat)
    requires WellFormed(events) && c < |events|
    ensures forall d :: d in Causes(events[c]) ==> d < c && d in All(events, Causes(events[c]))
  {
    var list := Causes(events[c]);
    forall d | d in list ensures d in All(events, list) {
      assert d in Upstream(events, d);
    }
  }
}
