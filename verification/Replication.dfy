/**
 Replication of event states: every event has an original on the host and substitutes on the compute
 nodes of its context. Status updates and deletions travel over one first-in first-out channel from the
 host to each node, which all events share.

 The list of compute nodes that the host gives to the daemons is empty, so that daemons send status
 updates to the host only.
 */
module Replication {
  import opened Seqs
  import opened EventLifecycle

  datatype Msg = Status(id: nat, status: int) | Delete(id: nat)

  /** Where the original is. `Reported`: the final status is on its way to the host. `Forwarding` and
      `Deleting`: messages to the nodes in `todo` are still to be sent. */
  datatype Phase =
    | Running
    | Reported(status: int)
    | Forwarding(status: int, todo: set<nat>)
    | Stored
    | Deleting(todo: set<nat>)

  /** `owner`: the node that executes the command; none for a user event. */
  datatype Original = Original(owner: Option<nat>, life: Event, phase: Phase)

  /** `got`: the messages that a node has received for an event. */
  datatype State = State(nodes: set<nat>, events: map<nat, Original>, chan: map<nat, seq<Msg>>,
                         got: map<(nat, nat), seq<Msg>>)

  function Init(nodes: set<nat>): State {
    State(nodes, map[], map[], map[])
  }

  function Chan(s: State, n: nat): seq<Msg> {
    if n in s.chan then s.chan[n] else []
  }

  function Got(s: State, n: nat, i: nat): seq<Msg> {
    if (n, i) in s.got then s.got[(n, i)] else []
  }

  /** The nodes that hold a substitute. */
  function Targets(nodes: set<nat>, owner: Option<nat>): set<nat> {
    if owner.Some? then nodes - {owner.value} else nodes
  }

  // ---- the substitute ----

  /** `Broken`: a second status, or a message for an event that is not there. */
  datatype Replica = Pending | Holds(status: int) | Gone | Broken

  function Receive(r: Replica, m: Msg): Replica {
    match (r, m)
    case (Pending, Status(_, status)) => Holds(status)
    case (Pending, Delete(_)) => Gone
    case (Holds(_), Delete(_)) => Gone
    case _ => Broken
  }

  function Replay(ms: seq<Msg>): Replica {
    if ms == [] then Pending else Receive(Replay(ms[..|ms| - 1]), ms[|ms| - 1])
  }

  function ReplicaOf(s: State, n: nat, i: nat): Replica {
    Replay(Got(s, n, i))
  }

  // ---- steps ----

  datatype Action =
    | Create(id: nat, owner: Option<nat>)
    | Progress(id: nat, status: int)
    | Finish(id: nat, status: int)
    | Notice(id: nat)
    | SetUser(id: nat, status: int)
    | Forward(id: nat, node: nat)
    | Store(id: nat)
    | App(id: nat, step: Step)
    | SendDelete(id: nat, node: nat)
    | Deliver(node: nat)

  predicate Enabled(s: State, a: Action) {
    match a
    case Create(i, owner) => i !in s.events && (owner.Some? ==> owner.value in s.nodes)
    case Deliver(n) => n in s.nodes && Chan(s, n) != []
    case _ => a.id in s.events && Ready(s.events[a.id], a)
  }

  /** The owner reports a final status once. A release or a callback may happen at any time, also between
      the forwarding of the status and its storage. */
  predicate Ready(o: Original, a: Action)
    requires !a.Deliver?
  {
    match a
    case Progress(_, status) => o.phase == Running && !Terminal(status) && !Terminal(o.life.status)
    case Finish(_, status) => o.owner.Some? && o.phase == Running && Terminal(status)
    case Notice(_) => o.phase.Reported?
    case SetUser(_, status) => o.owner.None? && o.phase == Running && Terminal(status) && o.life.refs > 0
    case Forward(_, n) => o.phase.Forwarding? && n in o.phase.todo
    case Store(_) => o.phase.Forwarding? && o.phase.todo == {} && MaySet(o.life, o.phase.status)
    case App(_, step) => !step.Set? && Legal(o.owner.None?, o.life, step)
    case SendDelete(_, n) => o.phase.Deleting? && n in o.phase.todo
    case _ => false
  }

  /** What a step does to the original of its event. Destruction sends `Delete` to all nodes. */
  function Changed(nodes: set<nat>, o: Original, a: Action): Original
    requires !a.Deliver? && Ready(o, a)
  {
    match a
    case Progress(_, status) => o.(life := StatusSet(o.life, status))
    case Finish(_, status) => o.(phase := Reported(status))
    case Notice(_) => o.(phase := Forwarding(o.phase.status, Targets(nodes, o.owner)))
    case SetUser(_, status) => o.(phase := Forwarding(status, nodes))
    case Forward(_, n) => o.(phase := o.phase.(todo := o.phase.todo - {n}))
    case Store(_) => Perform(nodes, o.(phase := Stored), Set(o.phase.status))
    case App(_, step) => Perform(nodes, o, step)
    case SendDelete(_, n) => o.(phase := o.phase.(todo := o.phase.todo - {n}))
  }

  function Perform(nodes: set<nat>, o: Original, step: Step): Original
    requires Legal(false, o.life, step)
  {
    Original(o.owner, Next(o.life, step), if Reports(o.life, step) then Deleting(nodes) else o.phase)
  }

  function Apply(s: State, a: Action): State
    requires Enabled(s, a)
  {
    match a
    case Create(i, owner) =>
      s.(events := s.events[i := Original(owner, Fresh(if owner.Some? then QUEUED else SUBMITTED), Running)])
    case Deliver(n) =>
      var m := Chan(s, n)[0];
      s.(chan := s.chan[n := Chan(s, n)[1..]], got := s.got[(n, m.id) := Got(s, n, m.id) + [m]])
    case Forward(_, _) => Sending(s, a)
    case SendDelete(_, _) => Sending(s, a)
    case _ => s.(events := s.events[a.id := Changed(s.nodes, s.events[a.id], a)])
  }

  function Sending(s: State, a: Action): State
    requires a.Forward? || a.SendDelete?
    requires a.id in s.events && Ready(s.events[a.id], a)
  {
    var o := s.events[a.id];
    s.(events := s.events[a.id := Changed(s.nodes, o, a)], chan := s.chan[a.node := Chan(s, a.node) + [Outgoing(o, a)]])
  }

  function Outgoing(o: Original, a: Action): (m: Msg)
    requires (a.Forward? || a.SendDelete?) && Ready(o, a)
    ensures m.id == a.id
  {
    if a.Forward? then Status(a.id, o.phase.status) else Delete(a.id)
  }

  /** The state after a run, if every step of it is enabled. */
  function Exec(nodes: set<nat>, run: seq<Action>): Option<State> {
    if run == [] then Some(Init(nodes)) else
    var s, a := Exec(nodes, run[..|run| - 1]), run[|run| - 1];
    if s.Some? && Enabled(s.value, a) then Some(Apply(s.value, a)) else None
  }

  // ---- the invariant: what was sent is what was received and what is under way ----

  /** The messages for one event. */
  function Sub(ms: seq<Msg>, i: nat): seq<Msg> {
    if ms == [] then [] else (if ms[0].id == i then [ms[0]] else []) + Sub(ms[1..], i)
  }

  /** All that the host has sent to node `n` so far, told from the original. */
  function Sent(o: Original, i: nat, n: nat): seq<Msg> {
    SentStatus(o, i, n) + if o.phase.Deleting? && n !in o.phase.todo then [Delete(i)] else []
  }

  function SentStatus(o: Original, i: nat, n: nat): seq<Msg> {
    if o.owner == Some(n) || o.phase.Running? || o.phase.Reported? then []
    else if o.phase.Forwarding? then if n in o.phase.todo then [] else [Status(i, o.phase.status)]
    else [Status(i, o.life.status)]
  }

  function SentAt(s: State, i: nat, n: nat): seq<Msg> {
    if i in s.events then Sent(s.events[i], i, n) else []
  }

  predicate OriginalOk(nodes: set<nat>, o: Original) {
    match o.phase
    case Running => !Terminal(o.life.status)
    case Reported(status) => !Terminal(o.life.status) && Terminal(status)
    case Forwarding(status, todo) => !Terminal(o.life.status) && Terminal(status) && todo <= Targets(nodes, o.owner)
    case Stored => Terminal(o.life.status) && o.life.refs > 0
    case Deleting(todo) => Terminal(o.life.status) && o.life.refs == 0 && todo <= nodes
  }

  ghost predicate Conserved(s: State, n: nat, i: nat) {
    Got(s, n, i) + Sub(Chan(s, n), i) == SentAt(s, i, n)
  }

  ghost predicate Inv(s: State) {
    && (forall i :: i in s.events ==> OriginalOk(s.nodes, s.events[i]))
    && (forall n, i :: n in s.nodes ==> Conserved(s, n, i))
  }

  lemma {:induction false} SubAppend(ms: seq<Msg>, m: Msg, i: nat)
    ensures Sub(ms + [m], i) == Sub(ms, i) + if m.id == i then [m] else []
  {
    if ms == [] {
      assert [m][1..] == [] && [] + [m] == [m];
    } else {
      SubHead(ms, i);
      SubHead(ms + [m], i);
      SubAppend(ms[1..], m, i);
      hide Sub;
      assert (ms + [m])[1..] == ms[1..] + [m];
    }
  }

  /** A step of the host that sends nothing keeps what was sent. */
  lemma QuietStep(nodes: set<nat>, o: Original, a: Action, i: nat, n: nat)
    requires !a.Deliver? && Ready(o, a) && OriginalOk(nodes, o) && n in nodes && !a.Forward? && !a.SendDelete?
    ensures OriginalOk(nodes, Changed(nodes, o, a)) && Sent(Changed(nodes, o, a), i, n) == Sent(o, i, n)
  {
    hide CallbacksLegal, AfterCallbacks, Calls;
  }

  lemma SendingStep(nodes: set<nat>, o: Original, a: Action, n: nat)
    requires (a.Forward? || a.SendDelete?) && Ready(o, a) && OriginalOk(nodes, o) && n in nodes
    ensures Sent(Changed(nodes, o, a), a.id, n) == Sent(o, a.id, n) + if n == a.node then [Outgoing(o, a)] else []
  {
  }

  lemma SubHead(ms: seq<Msg>, i: nat)
    requires ms != []
    ensures Sub(ms, i) == (if ms[0].id == i then [ms[0]] else []) + Sub(ms[1..], i)
  {
  }

  // ---- every step keeps the invariant ----

  lemma ConservedQuiet(s: State, a: Action, n: nat, i: nat)
    requires Inv(s) && n in s.nodes && Enabled(s, a)
    requires !a.Create? && !a.Deliver? && !a.Forward? && !a.SendDelete?
    ensures Conserved(Apply(s, a), n, i)
  {
    hide Sub, Sent, Changed, Ready;
    assert Conserved(s, n, i);
    if i == a.id {
      QuietStep(s.nodes, s.events[i], a, i, n);
    }
  }

  lemma ConservedCreate(s: State, a: Action, n: nat, i: nat)
    requires Inv(s) && n in s.nodes && Enabled(s, a) && a.Create?
    ensures Conserved(Apply(s, a), n, i)
  {
    hide Sub;
    assert Conserved(s, n, i);
  }

  lemma ConservedSending(s: State, a: Action, n: nat, i: nat)
    requires Inv(s) && n in s.nodes && Enabled(s, a) && (a.Forward? || a.SendDelete?)
    ensures Conserved(Apply(s, a), n, i)
  {
    hide Sub, Sent, Changed, Ready, Outgoing, OriginalOk;
    assert Conserved(s, n, i);
    SendingStep(s.nodes, s.events[a.id], a, n);
    SubAppend(Chan(s, n), Outgoing(s.events[a.id], a), i);
    Regroup(Got(s, n, i), Sub(Chan(s, n), i), Outgoing(s.events[a.id], a));
  }

  lemma Regroup(got: seq<Msg>, sub: seq<Msg>, m: Msg)
    ensures got + (sub + [m]) == got + sub + [m] && got + (sub + []) == got + sub && got + sub + [] == got + sub
    ensures got + ([m] + sub) == got + [m] + sub && got + ([] + sub) == got + sub
  {
  }

  lemma ConservedDeliver(s: State, a: Action, n: nat, i: nat)
    requires Inv(s) && n in s.nodes && Enabled(s, a) && a.Deliver?
    ensures Conserved(Apply(s, a), n, i)
  {
    hide Sub, Sent, Ready;
    assert Conserved(s, n, i);
    var m := Chan(s, a.node)[0];
    if n == a.node {
      SubHead(Chan(s, n), i);
      Regroup(Got(s, n, i), Sub(Chan(s, n)[1..], i), m);
    }
  }

  lemma OriginalStep(s: State, a: Action, i: nat)
    requires Inv(s) && Enabled(s, a) && i in Apply(s, a).events
    ensures OriginalOk(s.nodes, Apply(s, a).events[i])
  {
    hide Changed, Ready, Sub, Sent, Conserved;
    if a.Create? {
    } else if !a.Deliver? && i == a.id {
      OriginalKept(s.nodes, s.events[i], a);
    }
  }

  lemma OriginalKept(nodes: set<nat>, o: Original, a: Action)
    requires !a.Deliver? && Ready(o, a) && OriginalOk(nodes, o)
    ensures OriginalOk(nodes, Changed(nodes, o, a))
  {
    hide CallbacksLegal, AfterCallbacks, Calls;
  }

  lemma StepInv(s: State, a: Action)
    requires Inv(s) && Enabled(s, a)
    ensures Inv(Apply(s, a)) && Apply(s, a).nodes == s.nodes
  {
    hide OriginalOk, Conserved, Enabled, Ready, Changed;
    assert Apply(s, a).nodes == s.nodes;
    forall i | i in Apply(s, a).events ensures OriginalOk(s.nodes, Apply(s, a).events[i]) {
      OriginalStep(s, a, i);
    }
    hide Apply;
    forall n, i | n in s.nodes ensures Conserved(Apply(s, a), n, i) {
      if a.Create? {
        ConservedCreate(s, a, n, i);
      } else if a.Deliver? {
        ConservedDeliver(s, a, n, i);
      } else if a.Forward? || a.SendDelete? {
        ConservedSending(s, a, n, i);
      } else {
        ConservedQuiet(s, a, n, i);
      }
    }
  }

  lemma {:induction false} RunInv(nodes: set<nat>, run: seq<Action>)
    requires Exec(nodes, run).Some?
    ensures Inv(Exec(nodes, run).value) && Exec(nodes, run).value.nodes == nodes
  {
    if run != [] {
      RunInv(nodes, run[..|run| - 1]);
      hide Inv, Enabled, Apply;
      StepInv(Exec(nodes, run[..|run| - 1]).value, run[|run| - 1]);
    }
  }

  // ---- what holds in every reachable state ----

  /** The one final status of an event, from the moment its owner or the application sets it. */
  function Outcome(o: Original): Option<int> {
    match o.phase
    case Running => None
    case Reported(status) => Some(status)
    case Forwarding(status, _) => Some(status)
    case _ => Some(o.life.status)
  }

  /** All messages for an event on one channel, ever: a part of its status followed by its deletion. */
  function Whole(o: Original, i: nat): seq<Msg>
    requires Outcome(o).Some?
  {
    [Status(i, Outcome(o).value), Delete(i)]
  }

  lemma SentIsPrefix(nodes: set<nat>, o: Original, i: nat, n: nat)
    requires n in Targets(nodes, o.owner) && OriginalOk(nodes, o)
    ensures Outcome(o).None? ==> Sent(o, i, n) == []
    ensures Outcome(o).Some? ==> Sent(o, i, n) <= Whole(o, i)
    ensures |Sent(o, i, n)| == 2 ==> o.phase.Deleting? && n !in o.phase.todo
  {
  }

  lemma ReplayWhole(i: nat, status: int)
    ensures Replay([]) == Pending && Replay([Status(i, status)]) == Holds(status)
    ensures Replay([Status(i, status), Delete(i)]) == Gone
  {
    var two := [Status(i, status), Delete(i)];
    assert two[..1] == [Status(i, status)] && two[..1][..0] == [];
    assert Replay(two[..1]) == Holds(status);
  }

  /** A substitute is pending, holds the one final status, or is gone; no status is set twice, and none
      reaches a substitute that is gone. It goes only after the original was destroyed. */
  lemma Agreement(nodes: set<nat>, run: seq<Action>, n: nat, i: nat)
    requires Exec(nodes, run).Some? && i in Exec(nodes, run).value.events
    requires n in Targets(nodes, Exec(nodes, run).value.events[i].owner)
    ensures var s := Exec(nodes, run).value; var o, r := s.events[i], ReplicaOf(s, n, i);
            && !r.Broken?
            && (r.Holds? ==> Outcome(o) == Some(r.status))
            && (r.Gone? ==> Destroyed(o) && Outcome(o).Some?)
  {
    RunInv(nodes, run);
    hide Exec;
    var s := Exec(nodes, run).value;
    var o := s.events[i];
    assert Conserved(s, n, i);
    SentIsPrefix(nodes, o, i, n);
    if Outcome(o).Some? {
      ReplayWhole(i, Outcome(o).value);
      Prefixes(Got(s, n, i), Sub(Chan(s, n), i), Sent(o, i, n), Status(i, Outcome(o).value), Delete(i));
    }
  }

  predicate Destroyed(o: Original) {
    o.life.refs == 0 && Terminal(o.life.status)
  }

  /** The ways to divide a prefix of two messages. */
  lemma Prefixes(a: seq<Msg>, b: seq<Msg>, all: seq<Msg>, x: Msg, y: Msg)
    requires a + b == all && all <= [x, y]
    ensures a == [] || a == [x] || a == [x, y]
    ensures b == [] || (b == [x] && a == []) || (b == [y] && a == [x]) || (b == [x, y] && a == [])
    ensures |a| == 2 ==> |all| == 2
  {
    assert |a| <= 2 && |b| <= 2;
    assert forall k :: 0 <= k < |a| ==> a[k] == all[k] == [x, y][k];
    assert forall k :: 0 <= k < |b| ==> b[k] == all[|a| + k] == [x, y][|a| + k];
  }

  /** Once everything is delivered, all substitutes agree with the original. */
  lemma AllAgree(nodes: set<nat>, run: seq<Action>, n: nat, i: nat)
    requires Exec(nodes, run).Some? && i in Exec(nodes, run).value.events
    requires var s := Exec(nodes, run).value; var o := s.events[i];
             && n in Targets(nodes, o.owner) && Sub(Chan(s, n), i) == []
             && (o.phase.Stored? || (o.phase.Deleting? && o.phase.todo == {}))
    ensures var s := Exec(nodes, run).value; var o := s.events[i];
            ReplicaOf(s, n, i) == if Destroyed(o) then Gone else Holds(o.life.status)
  {
    RunInv(nodes, run);
    hide Exec, Sub;
    var s := Exec(nodes, run).value;
    var o := s.events[i];
    assert Conserved(s, n, i);
    assert Got(s, n, i) + [] == Got(s, n, i);
    ReplayWhole(i, o.life.status);
    assert Sent(o, i, n) == [Status(i, o.life.status)] + if o.phase.Deleting? then [Delete(i)] else [];
  }

  lemma Associative(a: seq<Msg>, b: seq<Msg>, c: seq<Msg>)
    ensures a + (b + c) == a + b + c
  {
  }

  lemma {:induction false} SubConcat(a: seq<Msg>, b: seq<Msg>, i: nat)
    ensures Sub(a + b, i) == Sub(a, i) + Sub(b, i)
  {
    if a == [] {
      assert a + b == b;
    } else {
      hide Sub;
      var head := if a[0].id == i then [a[0]] else [];
      SubHead(a, i);
      SubHead(a + b, i);
      SubConcat(a[1..], b, i);
      assert (a + b)[1..] == a[1..] + b;
      Associative(head, Sub(a[1..], i), Sub(b, i));
    }
  }

  lemma {:induction false} InSub(ms: seq<Msg>, i: nat, m: Msg)
    ensures m in Sub(ms, i) <==> m in ms && m.id == i
  {
    if ms != [] {
      InSub(ms[1..], i, m);
      assert ms == [ms[0]] + ms[1..];
    }
  }

  /** On the channel to a node other than the owner, the deletion of an event comes after its status, which
      is before it in the channel or has been received; nothing about the event comes after it. */
  lemma StatusBeforeDelete(nodes: set<nat>, run: seq<Action>, n: nat, i: nat, p: nat)
    requires Exec(nodes, run).Some? && i in Exec(nodes, run).value.events
    requires n in Targets(nodes, Exec(nodes, run).value.events[i].owner)
    requires p < |Chan(Exec(nodes, run).value, n)| && Chan(Exec(nodes, run).value, n)[p] == Delete(i)
    ensures var s := Exec(nodes, run).value; var o, ms := s.events[i], Chan(s, n);
            && Outcome(o).Some?
            && (Status(i, Outcome(o).value) in ms[..p] <==> ReplicaOf(s, n, i) == Pending)
            && (ReplicaOf(s, n, i) == Pending || ReplicaOf(s, n, i) == Holds(Outcome(o).value))
            && forall m :: m in ms[p + 1..] ==> m.id != i
  {
    RunInv(nodes, run);
    hide Exec, Inv;
    var s := Exec(nodes, run).value;
    DeleteLast(s, n, i, p);
  }

  lemma DeleteLast(s: State, n: nat, i: nat, p: nat)
    requires Inv(s) && i in s.events && n in Targets(s.nodes, s.events[i].owner)
    requires p < |Chan(s, n)| && Chan(s, n)[p] == Delete(i)
    ensures var o, ms := s.events[i], Chan(s, n);
            && Outcome(o).Some?
            && (Status(i, Outcome(o).value) in ms[..p] <==> ReplicaOf(s, n, i) == Pending)
            && (ReplicaOf(s, n, i) == Pending || ReplicaOf(s, n, i) == Holds(Outcome(o).value))
            && forall m :: m in ms[p + 1..] ==> m.id != i
  {
    var o, ms := s.events[i], Chan(s, n);
    var a, b := Sub(ms[..p], i), Sub(ms[p + 1..], i);
    SubAround(ms, p, i);
    assert Conserved(s, n, i);
    hide Conserved, Inv, Sub;
    SentIsPrefix(s.nodes, o, i, n);
    hide Sent;
    assert Sub(ms, i)[|a|] == Delete(i);
    assert Outcome(o).Some?;
    var status := Status(i, Outcome(o).value);
    Prefixes(Got(s, n, i), Sub(ms, i), SentAt(s, i, n), status, Delete(i));
    ReplayWhole(i, Outcome(o).value);
    assert |Sub(ms, i)| == |a| + 1 + |b|;
    assert Sub(ms, i)[|Sub(ms, i)| - 1] == Delete(i) && b == [];
    forall m | m in ms[p + 1..] ensures m.id != i {
      InSub(ms[p + 1..], i, m);
    }
    InSub(ms[..p], i, status);
    if a != [] {
      assert a[0] == Sub(ms, i)[0] == status;
    }
  }

  lemma SubAround(ms: seq<Msg>, p: nat, i: nat)
    requires p < |ms| && ms[p].id == i
    ensures Sub(ms, i) == Sub(ms[..p], i) + [ms[p]] + Sub(ms[p + 1..], i)
  {
    assert ms == ms[..p] + ms[p..] && ms[p..][1..] == ms[p + 1..];
    SubConcat(ms[..p], ms[p..], i);
  }

  /** A final status, once set, stays; only the owner's report or the application sets it. */
  lemma OutcomeStep(s: State, a: Action, i: nat)
    requires Inv(s) && Enabled(s, a) && i in s.events
    ensures var before, after := Outcome(s.events[i]), Outcome(Apply(s, a).events[i]);
            && i in Apply(s, a).events
            && (before.Some? ==> after == before)
            && (before.None? && after.Some? ==> a == Finish(i, after.value) || a == SetUser(i, after.value))
  {
    hide CallbacksLegal, AfterCallbacks, Calls, Sub, Conserved;
    assert OriginalOk(s.nodes, s.events[i]);
  }

  /** The final status of an event is the same at all times, in every continuation of a run. */
  lemma {:induction false} OutcomeForever(nodes: set<nat>, run: seq<Action>, more: seq<Action>, i: nat)
    requires Exec(nodes, run + more).Some?
    ensures Exec(nodes, run).Some?
    ensures var s, t := Exec(nodes, run).value, Exec(nodes, run + more).value;
            i in s.events && Outcome(s.events[i]).Some? ==>
              i in t.events && Outcome(t.events[i]) == Outcome(s.events[i])
    decreases |more|
  {
    if more == [] {
      assert run + more == run;
    } else {
      var init := more[..|more| - 1];
      assert (run + more)[..|run + more| - 1] == run + init;
      OutcomeForever(nodes, run, init, i);
      RunInv(nodes, run + init);
      hide Inv, Enabled, Apply, Outcome;
      var s := Exec(nodes, run + init).value;
      if i in s.events {
        OutcomeStep(s, more[|more| - 1], i);
      }
    }
  }
}
