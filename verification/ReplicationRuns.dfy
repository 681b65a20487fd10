/**
 Runs of the replication protocol: every event goes through a run of its own lifecycle, its messages are those
 that the host has sent, and from every state all substitutes can come to agree with the original.
 */
module ReplicationRuns {
  import opened Seqs
  import opened Replication
  import Life = EventLifecycle

  /** The final status that the owner has reported or the application has set. */
  function Given(run: seq<Action>, i: nat): Option<int> {
    if run == [] then None else
    match run[|run| - 1]
    case Finish(j, status) => if j == i then Some(status) else Given(run[..|run| - 1], i)
    case SetUser(j, status) => if j == i then Some(status) else Given(run[..|run| - 1], i)
    case _ => Given(run[..|run| - 1], i)
  }

  /** What a step does in the life of event `i`: progress sets a status, storage the final one, and the
      application's calls are its own. */
  function LifeStep(a: Action, i: nat, given: Option<int>): seq<Life.Step> {
    match a
    case Progress(j, status) => if j == i then [Life.Set(status)] else []
    case Store(j) => if j == i && given.Some? then [Life.Set(given.value)] else []
    case App(j, step) => if j == i then [step] else []
    case _ => []
  }

  function LifeOf(run: seq<Action>, i: nat): seq<Life.Step> {
    if run == [] then [] else
    var front, a := run[..|run| - 1], run[|run| - 1];
    LifeOf(front, i) + LifeStep(a, i, Given(front, i))
  }

  /** A command event begins as queued, a user event as submitted. */
  function Initial(owner: Option<nat>): int {
    if owner.Some? then Life.QUEUED else Life.SUBMITTED
  }

  ghost predicate Created(s: State, run: seq<Action>, i: nat) {
    forall owner :: Create(i, owner) in run <==> i in s.events && s.events[i].owner == owner
  }

  /** The outcome of an event is the one given by its owner or the application; it is stored once `Store` is. */
  ghost predicate Decided(s: State, run: seq<Action>, i: nat) {
    if i !in s.events then Given(run, i).None? && Store(i) !in run
    else
      && Outcome(s.events[i]) == Given(run, i)
      && (Life.Terminal(s.events[i].life.status) <==> Store(i) in run)
  }

  ghost predicate Lived(s: State, run: seq<Action>, i: nat) {
    if i !in s.events then LifeOf(run, i) == []
    else
      var r := Life.Exec(false, Initial(s.events[i].owner), LifeOf(run, i));
      r.Some? && r.value.event == s.events[i].life
  }

  /** The messages to a node that belong to an event: its status once it is forwarded, its deletion once that
      is sent. */
  function Posted(run: seq<Action>, i: nat, n: nat): seq<Msg> {
    (if Forward(i, n) in run && Given(run, i).Some? then [Status(i, Given(run, i).value)] else [])
    + if SendDelete(i, n) in run then [Delete(i)] else []
  }

  ghost predicate PostedAt(s: State, run: seq<Action>, i: nat) {
    forall n :: n in s.nodes ==>
      && (Forward(i, n) in run <==> i in s.events && Forwarded(s.events[i], n))
      && (SendDelete(i, n) in run <==> i in s.events && Deleted(s.events[i], n))
  }

  predicate Forwarded(o: Original, n: nat) {
    && o.owner != Some(n)
    && match o.phase
       case Running => false
       case Reported(_) => false
       case Forwarding(_, todo) => n !in todo
       case _ => true
  }

  predicate Deleted(o: Original, n: nat) {
    o.phase.Deleting? && n !in o.phase.todo
  }

  // ---- every step keeps these relations ----

  lemma InAppend(run: seq<Action>, a: Action, b: Action)
    ensures b in run + [a] <==> b in run || b == a
  {
  }

  lemma AppendParts(run: seq<Action>, a: Action, i: nat)
    ensures (run + [a])[..|run + [a]| - 1] == run && (run + [a])[|run + [a]| - 1] == a
    ensures LifeOf(run + [a], i) == LifeOf(run, i) + LifeStep(a, i, Given(run, i))
    ensures Given(run + [a], i) == if (a.Finish? || a.SetUser?) && a.id == i then Some(a.status) else Given(run, i)
  {
    assert (run + [a])[..|run + [a]| - 1] == run;
  }

  lemma CreatedStep(s: State, run: seq<Action>, a: Action, i: nat)
    requires Created(s, run, i) && Inv(s) && Enabled(s, a)
    ensures Created(Apply(s, a), run + [a], i)
  {
    hide Inv, Ready, Outgoing;
    forall owner
      ensures Create(i, owner) in run + [a] <==>
                i in Apply(s, a).events && Apply(s, a).events[i].owner == owner
    {
      InAppend(run, a, Create(i, owner));
      assert Create(i, owner) in run <==> i in s.events && s.events[i].owner == owner;
    }
  }

  lemma DecidedStep(s: State, run: seq<Action>, a: Action, i: nat)
    requires Decided(s, run, i) && Inv(s) && Enabled(s, a)
    ensures Decided(Apply(s, a), run + [a], i)
  {
    hide Given, LifeOf, Conserved;
    AppendParts(run, a, i);
    InAppend(run, a, Store(i));
    hide Life.CallbacksLegal, Life.AfterCallbacks, Life.Calls;
  }

  lemma LifeAppend(user: bool, initial: int, steps: seq<Life.Step>, a: Life.Step)
    requires Life.Exec(user, initial, steps).Some?
    requires Life.Legal(user, Life.Exec(user, initial, steps).value.event, a)
    ensures Life.Exec(user, initial, steps + [a]).Some?
    ensures Life.Exec(user, initial, steps + [a]).value.event
         == Life.Next(Life.Exec(user, initial, steps).value.event, a)
  {
    hide Life.Legal, Life.Next, Life.Reports;
    assert Life.Front(steps + [a]) == steps && Life.Last(steps + [a]) == a;
  }

  /** Legality for a command event asks for nothing that a user event's does not ask for. */
  lemma LegalForAll(user: bool, e: Life.Event, a: Life.Step)
    requires Life.Legal(user, e, a)
    ensures Life.Legal(false, e, a)
  {
  }

  lemma LivedStep(s: State, run: seq<Action>, a: Action, i: nat)
    requires Lived(s, run, i) && Decided(s, run, i) && Inv(s) && Enabled(s, a)
    ensures Lived(Apply(s, a), run + [a], i)
  {
    AppendParts(run, a, i);
    hide Given, LifeOf, Conserved;
    if i in s.events && !a.Create? && !a.Deliver? && a.id == i {
      OwnStep(s, run, a, i);
    } else {
      assert LifeStep(a, i, Given(run, i)) == [] && LifeOf(run, i) + [] == LifeOf(run, i);
      hide Life.Legal, Life.Next, Life.Reports, Ready;
    }
  }

  lemma OwnStep(s: State, run: seq<Action>, a: Action, i: nat)
    requires i in s.events && !a.Create? && !a.Deliver? && a.id == i
    requires Lived(s, run, i) && Decided(s, run, i) && OriginalOk(s.nodes, s.events[i]) && Enabled(s, a)
    ensures Lived(Apply(s, a), run + [a], i)
  {
    AppendParts(run, a, i);
    hide Given, LifeOf, Life.Exec, Life.CallbacksLegal, Life.AfterCallbacks, Life.Calls;
    var o, steps := s.events[i], LifeOf(run, i);
    var initial := Initial(o.owner);
    if a.Progress? {
      LifeAppend(false, initial, steps, Life.Set(a.status));
    } else if a.Store? {
      LifeAppend(false, initial, steps, Life.Set(o.phase.status));
    } else if a.App? {
      LegalForAll(o.owner.None?, o.life, a.step);
      LifeAppend(false, initial, steps, a.step);
    } else {
      assert steps + [] == steps;
    }
  }

  lemma PostedStep(s: State, run: seq<Action>, a: Action, i: nat)
    requires PostedAt(s, run, i) && Inv(s) && Enabled(s, a)
    ensures PostedAt(Apply(s, a), run + [a], i)
  {
    StepInv(s, a);
    forall n | n in s.nodes
      ensures Forward(i, n) in run + [a] <==> i in Apply(s, a).events && Forwarded(Apply(s, a).events[i], n)
      ensures SendDelete(i, n) in run + [a] <==> i in Apply(s, a).events && Deleted(Apply(s, a).events[i], n)
    {
      InAppend(run, a, Forward(i, n));
      InAppend(run, a, SendDelete(i, n));
      if i in s.events && !a.Create? && !a.Deliver? && a.id == i {
        OwnPosts(s.nodes, s.events[i], a, n);
      } else {
        hide Changed, Ready, Forwarded, Deleted, Inv;
      }
    }
  }

  lemma OwnPosts(nodes: set<nat>, o: Original, a: Action, n: nat)
    requires !a.Deliver? && !a.Create? && Ready(o, a) && OriginalOk(nodes, o) && n in nodes
    ensures Forwarded(Changed(nodes, o, a), n) <==> Forwarded(o, n) || a == Forward(a.id, n)
    ensures Deleted(Changed(nodes, o, a), n) <==> Deleted(o, n) || a == SendDelete(a.id, n)
  {
    hide Life.CallbacksLegal, Life.AfterCallbacks, Life.Calls;
  }

  // ---- over all runs ----

  /** Whatever the application, the nodes and the network do: an event is there exactly once it was created,
      and with that owner; its outcome is the one given, and stored exactly after `Store`; its state is that of
      a run of its own lifecycle, made of its progress, the application's calls and its storage. */
  lemma {:induction false} EventsAreExact(nodes: set<nat>, run: seq<Action>, i: nat)
    requires Exec(nodes, run).Some?
    ensures var s := Exec(nodes, run).value;
            Created(s, run, i) && Decided(s, run, i) && Lived(s, run, i) && PostedAt(s, run, i)
  {
    if run != [] {
      var front, a := run[..|run| - 1], run[|run| - 1];
      assert run == front + [a];
      EventsAreExact(nodes, front, i);
      RunInv(nodes, front);
      hide Inv, Enabled, Apply, Created, Decided, Lived, PostedAt;
      var s := Exec(nodes, front).value;
      CreatedStep(s, front, a, i);
      DecidedStep(s, front, a, i);
      LivedStep(s, front, a, i);
      PostedStep(s, front, a, i);
    }
  }

  /** A node other than the owner has received, or has on its way, the final status of an event exactly once it
      was forwarded to it, and after it the deletion once that was sent; the owner gets the deletion only. */
  lemma MessagesAreExact(nodes: set<nat>, run: seq<Action>, i: nat, n: nat)
    requires Exec(nodes, run).Some? && n in nodes
    ensures var s := Exec(nodes, run).value; Got(s, n, i) + Sub(Chan(s, n), i) == Posted(run, i, n)
  {
    EventsAreExact(nodes, run, i);
    RunInv(nodes, run);
    var s := Exec(nodes, run).value;
    assert Conserved(s, n, i);
    hide Exec, Given, Sub, Lived, Created;
    if i in s.events {
      assert OriginalOk(nodes, s.events[i]);
    }
  }

  // ---- from every state the substitutes can come to agree ----

  /** Steps that the host and the network take by themselves. */
  predicate Internal(a: Action) {
    a.Notice? || a.Forward? || a.Store? || a.SendDelete? || a.Deliver?
  }

  /** `r` continues `run` by such steps. */
  ghost predicate Continues(run: seq<Action>, r: seq<Action>) {
    run <= r && forall k :: |run| <= k < |r| ==> Internal(r[k])
  }

  /** A state after a run, with the event in it. */
  ghost predicate At(nodes: set<nat>, run: seq<Action>, i: nat) {
    Exec(nodes, run).Some? && i in Exec(nodes, run).value.events
  }

  function EventAt(nodes: set<nat>, run: seq<Action>, i: nat): Original
    requires At(nodes, run, i)
  {
    Exec(nodes, run).value.events[i]
  }

  lemma OneMore(nodes: set<nat>, run: seq<Action>, a: Action)
    requires Exec(nodes, run).Some? && Enabled(Exec(nodes, run).value, a)
    ensures Exec(nodes, run + [a]) == Some(Apply(Exec(nodes, run).value, a))
  {
    hide Enabled, Apply;
    assert (run + [a])[..|run + [a]| - 1] == run;
  }

  lemma {:induction false} ForwardAll(nodes: set<nat>, run: seq<Action>, i: nat) returns (r: seq<Action>)
    requires At(nodes, run, i) && EventAt(nodes, run, i).phase.Forwarding?
    ensures Continues(run, r) && At(nodes, r, i)
    ensures EventAt(nodes, r, i) == EventAt(nodes, run, i).(phase := EventAt(nodes, run, i).phase.(todo := {}))
    decreases |EventAt(nodes, run, i).phase.todo|
  {
    var o := EventAt(nodes, run, i);
    r := run;
    if o.phase.todo != {} {
      var n :| n in o.phase.todo;
      OneMore(nodes, run, Forward(i, n));
      assert |o.phase.todo - {n}| < |o.phase.todo|;
      r := ForwardAll(nodes, run + [Forward(i, n)], i);
    }
  }

  lemma {:induction false} DeleteAll(nodes: set<nat>, run: seq<Action>, i: nat) returns (r: seq<Action>)
    requires At(nodes, run, i) && EventAt(nodes, run, i).phase.Deleting?
    ensures Continues(run, r) && At(nodes, r, i)
    ensures EventAt(nodes, r, i) == EventAt(nodes, run, i).(phase := Deleting({}))
    decreases |EventAt(nodes, run, i).phase.todo|
  {
    var o := EventAt(nodes, run, i);
    r := run;
    if o.phase.todo != {} {
      var n :| n in o.phase.todo;
      OneMore(nodes, run, SendDelete(i, n));
      assert |o.phase.todo - {n}| < |o.phase.todo|;
      r := DeleteAll(nodes, run + [SendDelete(i, n)], i);
    }
  }

  /** All that is on its way to one node is delivered. */
  lemma {:induction false} Drain(nodes: set<nat>, run: seq<Action>, n: nat) returns (r: seq<Action>)
    requires Exec(nodes, run).Some? && n in Exec(nodes, run).value.nodes
    ensures Continues(run, r) && Exec(nodes, r).Some?
    ensures var s, t := Exec(nodes, run).value, Exec(nodes, r).value;
            && t.nodes == s.nodes && t.events == s.events && Chan(t, n) == []
            && forall m :: m != n ==> Chan(t, m) == Chan(s, m)
    decreases |Chan(Exec(nodes, run).value, n)|
  {
    r := run;
    if Chan(Exec(nodes, run).value, n) != [] {
      OneMore(nodes, run, Deliver(n));
      r := Drain(nodes, run + [Deliver(n)], n);
    }
  }

  lemma {:induction false} DrainAll(nodes: set<nat>, run: seq<Action>, todo: set<nat>) returns (r: seq<Action>)
    requires Exec(nodes, run).Some? && todo <= Exec(nodes, run).value.nodes
    ensures Continues(run, r) && Exec(nodes, r).Some?
    ensures var s, t := Exec(nodes, run).value, Exec(nodes, r).value;
            && t.events == s.events && (forall n :: n in todo ==> Chan(t, n) == [])
            && forall m :: m !in todo ==> Chan(t, m) == Chan(s, m)
    decreases |todo|
  {
    r := run;
    if todo != {} {
      var n :| n in todo;
      assert |todo - {n}| < |todo|;
      var q := Drain(nodes, run, n);
      r := DrainAll(nodes, q, todo - {n});
    }
  }

  /** The event is over on the host, nothing is under way, and every substitute is as the original: gone if that
      was destroyed, and otherwise with the same status. */
  ghost predicate InAgreement(nodes: set<nat>, run: seq<Action>, i: nat, status: int) {
    && At(nodes, run, i)
    && var s, o := Exec(nodes, run).value, EventAt(nodes, run, i);
    && o.life.status == status && (forall n :: n in nodes ==> Chan(s, n) == [])
    && forall n :: n in Targets(nodes, o.owner) ==>
         ReplicaOf(s, n, i) == if o.life.refs == 0 then Gone else Holds(status)
  }

  /** Storage can take place, unless it already has: the callbacks release only references that are held. */
  predicate MayStore(o: Original) {
    Life.Terminal(o.life.status) || Life.CallbacksLegal(o.life.refs, o.life.callbacks)
  }

  /** The host's event at the end: the status is stored, where that was still to come. */
  function Final(o: Original): Life.Event
    requires Outcome(o).Some?
  {
    if Life.MaySet(o.life, Outcome(o).value) then Life.StatusSet(o.life, Outcome(o).value) else o.life
  }

  lemma Forwards(nodes: set<nat>, run: seq<Action>, i: nat) returns (r: seq<Action>)
    requires At(nodes, run, i)
    requires EventAt(nodes, run, i).phase.Reported? || EventAt(nodes, run, i).phase.Forwarding?
    ensures Continues(run, r) && At(nodes, r, i)
    ensures EventAt(nodes, r, i)
         == EventAt(nodes, run, i).(phase := Forwarding(EventAt(nodes, run, i).phase.status, {}))
  {
    if EventAt(nodes, run, i).phase.Reported? {
      OneMore(nodes, run, Notice(i));
      r := ForwardAll(nodes, run + [Notice(i)], i);
    } else {
      r := ForwardAll(nodes, run, i);
    }
  }

  lemma Stores(nodes: set<nat>, run: seq<Action>, i: nat) returns (r: seq<Action>)
    requires At(nodes, run, i) && MayStore(EventAt(nodes, run, i)) && OriginalOk(nodes, EventAt(nodes, run, i))
    requires !EventAt(nodes, run, i).phase.Running?
    ensures Continues(run, r) && At(nodes, r, i)
    ensures EventAt(nodes, r, i).phase.Stored? || EventAt(nodes, r, i).phase.Deleting?
    ensures Outcome(EventAt(nodes, r, i)) == Outcome(EventAt(nodes, run, i))
    ensures EventAt(nodes, r, i).life == Final(EventAt(nodes, run, i))
  {
    hide Life.CallbacksLegal, Life.AfterCallbacks, Life.Calls;
    r := run;
    if !EventAt(nodes, run, i).phase.Stored? && !EventAt(nodes, run, i).phase.Deleting? {
      r := Forwards(nodes, run, i);
      OneMore(nodes, r, Store(i));
      r := r + [Store(i)];
    }
  }

  /** From every state, once the outcome of an event is given: the host and the network can bring all substitutes
      to agree with the original, whatever else is under way. */
  lemma AgreementIsReached(nodes: set<nat>, run: seq<Action>, i: nat)
    requires At(nodes, run, i) && MayStore(EventAt(nodes, run, i)) && Outcome(EventAt(nodes, run, i)).Some?
    ensures var o := EventAt(nodes, run, i);
            exists r :: && Continues(run, r) && InAgreement(nodes, r, i, Outcome(o).value)
                        && EventAt(nodes, r, i).life == Final(o)
  {
    RunInv(nodes, run);
    hide Final, MayStore;
    var q := Stores(nodes, run, i);
    if EventAt(nodes, q, i).phase.Deleting? {
      q := DeleteAll(nodes, q, i);
    }
    RunInv(nodes, q);
    var r := DrainAll(nodes, q, nodes);
    Agree(nodes, r, i);
    assert Continues(run, r) && InAgreement(nodes, r, i, Outcome(EventAt(nodes, run, i)).value);
  }

  lemma Agree(nodes: set<nat>, r: seq<Action>, i: nat)
    requires At(nodes, r, i) && forall n :: n in nodes ==> Chan(Exec(nodes, r).value, n) == []
    requires EventAt(nodes, r, i).phase.Stored? || EventAt(nodes, r, i).phase == Deleting({})
    ensures InAgreement(nodes, r, i, Outcome(EventAt(nodes, r, i)).value)
  {
    RunInv(nodes, r);
    hide Exec;
    var s, o := Exec(nodes, r).value, EventAt(nodes, r, i);
    assert OriginalOk(nodes, o);
    forall n | n in Targets(nodes, o.owner)
      ensures ReplicaOf(s, n, i) == if o.life.refs == 0 then Gone else Holds(o.life.status)
    {
      AllAgree(nodes, r, n, i);
    }
  }

  /** The step that ends an event: the owner reports the status, or the application sets it. */
  function Ending(o: Original, i: nat, status: int): Action {
    if o.owner.Some? then Finish(i, status) else SetUser(i, status)
  }

  /** Every event that has no outcome can be given any final status, and all substitutes can come to agree. */
  lemma EveryEventCanEnd(nodes: set<nat>, run: seq<Action>, i: nat, status: int)
    requires At(nodes, run, i) && MayStore(EventAt(nodes, run, i)) && Outcome(EventAt(nodes, run, i)).None?
    requires Life.Terminal(status) && (EventAt(nodes, run, i).owner.None? ==> EventAt(nodes, run, i).life.refs > 0)
    ensures var o := EventAt(nodes, run, i);
            exists r :: && Continues(run + [Ending(o, i, status)], r) && InAgreement(nodes, r, i, status)
                        && Life.MaySet(o.life, status) && EventAt(nodes, r, i).life == Life.StatusSet(o.life, status)
  {
    var a := Ending(EventAt(nodes, run, i), i, status);
    RunInv(nodes, run);
    OneMore(nodes, run, a);
    hide InAgreement, Continues;
    AgreementIsReached(nodes, run + [a], i);
    assert Final(EventAt(nodes, run + [a], i)) == Life.StatusSet(EventAt(nodes, run, i).life, status);
  }

  // ---- an instance ----

  lemma Beginning(nodes: set<nat>, i: nat, n: nat)
    requires n in nodes
    ensures var run := [Create(i, Some(n)), App(i, Life.Release), Progress(i, Life.SUBMITTED)];
            && At(nodes, run, i)
            && EventAt(nodes, run, i) == Original(Some(n), Life.Event(0, Life.SUBMITTED, [], []), Running)
  {
    OneMore(nodes, [], Create(i, Some(n)));
    OneMore(nodes, [] + [Create(i, Some(n))], App(i, Life.Release));
    OneMore(nodes, [] + [Create(i, Some(n))] + [App(i, Life.Release)], Progress(i, Life.SUBMITTED));
    assert [] + [Create(i, Some(n))] + [App(i, Life.Release)] + [Progress(i, Life.SUBMITTED)]
        == [Create(i, Some(n)), App(i, Life.Release), Progress(i, Life.SUBMITTED)];
  }

  /** An event whose last reference the application releases while its command is executed: in the end its
      substitutes are gone everywhere. */
  lemma ReleasedEarly(nodes: set<nat>, i: nat, n: nat, status: int)
    requires n in nodes && Life.Terminal(status)
    ensures var run := [Create(i, Some(n)), App(i, Life.Release), Progress(i, Life.SUBMITTED), Finish(i, status)];
            exists r :: && Continues(run, r) && InAgreement(nodes, r, i, status)
                        && EventAt(nodes, r, i).life.refs == 0
  {
    var run := [Create(i, Some(n)), App(i, Life.Release), Progress(i, Life.SUBMITTED)];
    Beginning(nodes, i, n);
    assert EventAt(nodes, run, i) == Original(Some(n), Life.Event(0, Life.SUBMITTED, [], []), Running);
    EveryEventCanEnd(nodes, run, i, status);
    hide InAgreement, Continues, Exec;
    assert run + [Finish(i, status)]
        == [Create(i, Some(n)), App(i, Life.Release), Progress(i, Life.SUBMITTED), Finish(i, status)];
    assert Life.StatusSet(EventAt(nodes, run, i).life, status).refs == 0;
  }
}
