/**
 Life of one event on the host: reference count, execution status, callbacks, destruction.

 A callback may retain and release the event it is called for. The event's mutex is recursive, so these
 calls are run in the middle of the status change that triggered the callback.
 */
module EventLifecycle {
  import opened Seqs

  const QUEUED := 3
  const SUBMITTED := 2
  const COMPLETE := 0

  /** Successful, or terminated with an error code. */
  predicate Terminal(status: int) {
    status < 0 || status == COMPLETE
  }

  datatype Op = DoRetain | DoRelease

  /** A registered function: its identity, and what it does to the event's reference count. */
  datatype Callback = Callback(id: nat, ops: seq<Op>)

  /** What an observer sees. */
  datatype Mark = Called(id: nat, status: int) | Destroyed

  datatype Event = Event(refs: nat, status: int, callbacks: seq<Callback>, trace: seq<Mark>)

  function Fresh(status: int): Event {
    Event(1, status, [], [])
  }

  /** Every release is of a reference that is held. */
  predicate OpsLegal(refs: nat, ops: seq<Op>)
    decreases |ops|
  {
    ops == [] || match ops[0]
      case DoRetain => OpsLegal(refs + 1, ops[1..])
      case DoRelease => refs > 0 && OpsLegal(refs - 1, ops[1..])
  }

  function AfterOps(refs: nat, ops: seq<Op>): nat
    requires OpsLegal(refs, ops)
    decreases |ops|
  {
    if ops == [] then refs else match ops[0]
      case DoRetain => AfterOps(refs + 1, ops[1..])
      case DoRelease => AfterOps(refs - 1, ops[1..])
  }

  predicate CallbacksLegal(refs: nat, callbacks: seq<Callback>)
    decreases |callbacks|
  {
    callbacks == [] ||
    (OpsLegal(refs, callbacks[0].ops) && CallbacksLegal(AfterOps(refs, callbacks[0].ops), callbacks[1..]))
  }

  /** The count after all callbacks. */
  function AfterCallbacks(refs: nat, callbacks: seq<Callback>): nat
    requires CallbacksLegal(refs, callbacks)
    decreases |callbacks|
  {
    if callbacks == [] then refs else AfterCallbacks(AfterOps(refs, callbacks[0].ops), callbacks[1..])
  }

  function Calls(callbacks: seq<Callback>, status: int): (marks: seq<Mark>)
    ensures |marks| == |callbacks|
    ensures forall i :: 0 <= i < |marks| ==> marks[i] == Called(callbacks[i].id, status)
  {
    seq(|callbacks|, i requires 0 <= i < |callbacks| => Called(callbacks[i].id, status))
  }

  // ---- the operations on values ----

  function Retained(e: Event): Event {
    e.(refs := e.refs + 1)
  }

  function Released(e: Event): Event
    requires e.refs > 0
  {
    Ended(e.(refs := e.refs - 1))
  }

  /** Destruction, when it is due. */
  function Ended(e: Event): Event {
    if e.refs == 0 && Terminal(e.status) then e.(trace := e.trace + [Destroyed]) else e
  }

  /** Every operation is on an event that is still there: a terminal event is deleted with its last reference. */
  predicate LateLegal(refs: nat, ops: seq<Op>)
    decreases |ops|
  {
    ops == [] || (refs > 0 && LateLegal(if ops[0].DoRetain? then refs + 1 else refs - 1, ops[1..]))
  }

  lemma {:induction false} LateIsLegal(refs: nat, ops: seq<Op>)
    requires LateLegal(refs, ops)
    ensures OpsLegal(refs, ops)
    decreases |ops|
  {
    if ops != [] {
      LateIsLegal(if ops[0].DoRetain? then refs + 1 else refs - 1, ops[1..]);
    }
  }

  /** The caller holds a reference, and a callback that is called at once releases no more than there are. */
  predicate MayRegister(e: Event, cb: Callback) {
    Terminal(e.status) ==> e.refs > 0 && LateLegal(e.refs, cb.ops)
  }

  /** The callback is called at once and releases the last reference, so that the event is deleted while it is
      still being registered. */
  predicate DropsLast(e: Event, cb: Callback)
    requires MayRegister(e, cb)
  {
    Terminal(e.status) && (LateIsLegal(e.refs, cb.ops); AfterOps(e.refs, cb.ops) == 0)
  }

  /** A callback registered for a terminal event is called at once, always with `COMPLETE`. */
  function Registered(e: Event, cb: Callback): Event
    requires MayRegister(e, cb)
  {
    var called :=
      if e.status <= COMPLETE then
        LateIsLegal(e.refs, cb.ops);
        Ended(e.(refs := AfterOps(e.refs, cb.ops), trace := e.trace + [Called(cb.id, COMPLETE)]))
      else e;
    called.(callbacks := e.callbacks + [cb])
  }

  predicate MaySet(e: Event, status: int) {
    !Terminal(e.status) && (Terminal(status) ==> CallbacksLegal(e.refs, e.callbacks))
  }

  /** Callbacks run before the status is stored. */
  function StatusSet(e: Event, status: int): Event
    requires MaySet(e, status)
  {
    if Terminal(status) then
      Ended(Event(AfterCallbacks(e.refs, e.callbacks), status, e.callbacks, e.trace + Calls(e.callbacks, status)))
    else e.(status := status)
  }

  datatype UserResult = Accepted | InvalidValue | InvalidOperation

  // ---- the class ----

  class ClEvent {
    var refCount: nat
    var status: int
    var callbacks: seq<Callback>
    var trace: seq<Mark>

    ghost function State(): Event
      reads this
    {
      Event(refCount, status, callbacks, trace)
    }

    constructor (initial: int)
      ensures State() == Fresh(initial)
    {
      refCount, status, callbacks, trace := 1, initial, [], [];
    }

    method Retain()
      modifies this`refCount
      ensures State() == Retained(old(State()))
    {
      refCount := refCount + 1;
    }

    /** True exactly when this call destroyed the event; the caller then deletes it. */
    method Release() returns (destroyed: bool)
      requires refCount > 0
      modifies this`refCount, this`trace
      ensures State() == Released(old(State()))
      ensures destroyed <==> old(refCount) == 1 && Terminal(status)
    {
      refCount := refCount - 1;
      destroyed := refCount == 0 && IsComplete();
      if destroyed {
        Destroy();
      }
    }

    method Destroy()
      requires refCount == 0 && Terminal(status)
      modifies this`trace
      ensures trace == old(trace) + [Destroyed]
    {
      trace := trace + [Destroyed];
    }

    predicate IsComplete()
      reads this
    {
      status < 0 || status == COMPLETE
    }

    /** Refuses other types and a missing function. `dangling`: the callback had the event deleted, to whose
        list it is then appended. */
    method SetCallback(commandExecCallbackType: int, cb: Callback, present: bool) returns (ok: bool, dangling: bool)
      requires MayRegister(State(), cb)
      modifies this`refCount, this`trace, this`callbacks
      ensures ok == (commandExecCallbackType == COMPLETE && present)
      ensures State() == if ok then Registered(old(State()), cb) else old(State())
      ensures dangling <==> ok && DropsLast(old(State()), cb)
    {
      ok, dangling := commandExecCallbackType == COMPLETE && present, false;
      if ok {
        if status <= commandExecCallbackType {
          dangling := InvokeLate(cb);
        }
        callbacks := callbacks + [cb];
      }
    }

    method SetCommandExecutionStatus(newStatus: int) returns (destroyed: bool)
      requires MaySet(State(), newStatus)
      modifies this`refCount, this`trace, this`status
      ensures State() == StatusSet(old(State()), newStatus)
      ensures destroyed <==> Terminal(newStatus) && AfterCallbacks(old(refCount), callbacks) == 0
    {
      TriggerCallbacks(newStatus);
      status := newStatus;
      destroyed := refCount == 0 && IsComplete();
      if destroyed {
        Destroy();
      }
    }

    /** `UserEvent::setStatus` without the broadcast. Whether the event was destroyed is not looked at. */
    method SetUserStatus(newStatus: int) returns (r: UserResult)
      requires newStatus <= 0 && !Terminal(status) ==> MaySet(State(), newStatus)
      modifies this`refCount, this`trace, this`status
      ensures r == (if newStatus > 0 then InvalidValue
                    else if Terminal(old(status)) then InvalidOperation else Accepted)
      ensures State() == if r == Accepted then StatusSet(old(State()), newStatus) else old(State())
    {
      if newStatus > 0 {
        r := InvalidValue;
      } else if IsComplete() {
        r := InvalidOperation;
      } else {
        var ignored := SetCommandExecutionStatus(newStatus);
        r := Accepted;
      }
    }

    /** All callbacks are registered for `COMPLETE`; no other key is ever found. */
    method TriggerCallbacks(newStatus: int)
      requires MaySet(State(), newStatus)
      modifies this`refCount, this`trace
      ensures if Terminal(newStatus) then
                refCount == AfterCallbacks(old(refCount), callbacks)
                && trace == old(trace) + Calls(callbacks, newStatus)
              else refCount == old(refCount) && trace == old(trace)
    {
      if newStatus <= COMPLETE {
        var i := 0;
        while i < |callbacks|
          invariant 0 <= i <= |callbacks|
          invariant CallbacksLegal(refCount, callbacks[i..])
          invariant AfterCallbacks(refCount, callbacks[i..]) == AfterCallbacks(old(refCount), callbacks)
          invariant trace == old(trace) + Calls(callbacks, newStatus)[..i]
        {
          assert callbacks[i..][1..] == callbacks[i + 1..];
          Invoke(callbacks[i], newStatus);
          i := i + 1;
        }
      }
    }

    /** One callback: its retains and releases are calls back into this pending event. */
    method Invoke(cb: Callback, newStatus: int)
      requires !Terminal(status) && OpsLegal(refCount, cb.ops)
      modifies this`refCount, this`trace
      ensures refCount == AfterOps(old(refCount), cb.ops) && trace == old(trace) + [Called(cb.id, newStatus)]
    {
      trace := trace + [Called(cb.id, newStatus)];
      var i := 0;
      while i < |cb.ops|
        invariant 0 <= i <= |cb.ops|
        invariant OpsLegal(refCount, cb.ops[i..])
        invariant AfterOps(refCount, cb.ops[i..]) == AfterOps(old(refCount), cb.ops)
        invariant trace == old(trace) + [Called(cb.id, newStatus)]
      {
        assert cb.ops[i..][1..] == cb.ops[i + 1..];
        match cb.ops[i] {
          case DoRetain => Retain();
          case DoRelease =>
            var destroyed := Release();
        }
        i := i + 1;
      }
    }

    /** A callback of a terminal event; its last release can destroy the event, and then its caller deletes it. */
    method InvokeLate(cb: Callback) returns (deleted: bool)
      requires Terminal(status) && refCount > 0 && LateLegal(refCount, cb.ops)
      modifies this`refCount, this`trace
      ensures OpsLegal(old(refCount), cb.ops) && refCount == AfterOps(old(refCount), cb.ops)
      ensures deleted <==> refCount == 0
      ensures trace == old(trace) + [Called(cb.id, COMPLETE)] + if deleted then [Destroyed] else []
    {
      LateIsLegal(refCount, cb.ops);
      deleted := false;
      trace := trace + [Called(cb.id, COMPLETE)];
      var i := 0;
      while i < |cb.ops|
        invariant 0 <= i <= |cb.ops| && (deleted <==> refCount == 0)
        invariant LateLegal(refCount, cb.ops[i..]) && OpsLegal(refCount, cb.ops[i..])
        invariant AfterOps(refCount, cb.ops[i..]) == AfterOps(old(refCount), cb.ops)
        invariant trace == old(trace) + [Called(cb.id, COMPLETE)] + if deleted then [Destroyed] else []
      {
        assert cb.ops[i..][1..] == cb.ops[i + 1..];
        match cb.ops[i] {
          case DoRetain => Retain();
          case DoRelease => deleted := Release();
        }
        i := i + 1;
        LateIsLegal(refCount, cb.ops[i..]);
      }
    }
  }

  // ---- runs ----

  datatype Step = Retain | Release | Register(cb: Callback) | Set(status: int)

  /** What the callers must observe, and no more: the application uses only an event that it holds a
      reference to, a status is set only on a pending event, and callbacks release only references that are
      held. `user`: a user event, whose status is set by the application. */
  predicate Legal(user: bool, e: Event, a: Step) {
    match a
    case Retain => e.refs > 0
    case Release => e.refs > 0
    case Register(cb) => e.refs > 0 && MayRegister(e, cb)
    case Set(status) => MaySet(e, status) && (user ==> e.refs > 0)
  }

  function Next(e: Event, a: Step): Event
    requires Legal(false, e, a)
  {
    match a
    case Retain => Retained(e)
    case Release => Released(e)
    case Register(cb) => Registered(e, cb)
    case Set(status) => StatusSet(e, status)
  }

  /** Whether the call, or a release in its callback, returned that the event was destroyed. */
  predicate Reports(e: Event, a: Step)
    requires Legal(false, e, a)
  {
    match a
    case Retain => false
    case Release => e.refs == 1 && Terminal(e.status)
    case Register(cb) => DropsLast(e, cb)
    case Set(status) => Terminal(status) && AfterCallbacks(e.refs, e.callbacks) == 0
  }

  /** `reports`: calls that reported destruction. `deleted`: calls that then deleted the event. `dangling`:
      a call has gone on with the event after it was deleted. */
  datatype Run = Run(event: Event, reports: nat, deleted: nat, dangling: bool)

  /** Releases, and the commands of command events, delete the event when told that it was destroyed;
      setting the status of a user event ignores the result. */
  function After(user: bool, r: Run, a: Step): Run
    requires Legal(user, r.event, a)
  {
    var n := if Reports(r.event, a) then 1 else 0;
    Run(Next(r.event, a), r.reports + n, r.deleted + if user && a.Set? then 0 else n,
        r.dangling || (a.Register? && DropsLast(r.event, a.cb)))
  }

  /** A run from creation, or nothing if a step is not legal. */
  function Exec(user: bool, initial: int, steps: seq<Step>): Option<Run> {
    if steps == [] then Some(Run(Fresh(initial), 0, 0, false)) else
    var r, a := Exec(user, initial, Front(steps)), Last(steps);
    if r.None? || !Legal(user, r.value.event, a) then None else
    Some(After(user, r.value, a))
  }

  function Front(steps: seq<Step>): seq<Step>
    requires steps != []
  {
    steps[..|steps| - 1]
  }

  function Last(steps: seq<Step>): Step
    requires steps != []
  {
    steps[|steps| - 1]
  }

  /** What the callers did: the callbacks registered while the event was pending, the terminal status
      that was set, and the callbacks registered after that. */
  datatype Record = Record(early: seq<Callback>, outcome: Option<int>, late: seq<Callback>)

  function Noted(rec: Record, a: Step): Record {
    match a
    case Register(cb) =>
      if rec.outcome.None? then rec.(early := rec.early + [cb]) else rec.(late := rec.late + [cb])
    case Set(status) => if Terminal(status) then rec.(outcome := Some(status)) else rec
    case _ => rec
  }

  function Recorded(steps: seq<Step>): Record {
    if steps == [] then Record([], None, []) else Noted(Recorded(Front(steps)), Last(steps))
  }

  /** Nothing is called while the event is pending; once it has an outcome, every callback has been called
      exactly once, in order of registration, with the outcome if it was registered in time and with
      success otherwise; destruction comes last, once, when it is due, and one call reports it. */
  ghost predicate Told(r: Run, rec: Record) {
    && r.event.callbacks == rec.early + rec.late
    && (rec.outcome.None? ==> rec.late == [] && !Terminal(r.event.status) && r.event.trace == [] && r.reports == 0)
    && (rec.outcome.Some? ==>
          && r.event.status == rec.outcome.value && Terminal(r.event.status)
          && r.event.trace == Calls(rec.early, rec.outcome.value) + Calls(rec.late, COMPLETE)
                            + (if r.event.refs == 0 then [Destroyed] else [])
          && r.reports == if r.event.refs == 0 then 1 else 0)
  }

  /** The whole history of an event, told from what its callers did. */
  lemma {:induction false} History(user: bool, initial: int, steps: seq<Step>)
    requires initial > 0 && Exec(user, initial, steps).Some?
    ensures Told(Exec(user, initial, steps).value, Recorded(steps))
    decreases |steps|
  {
    if steps != [] {
      hide *;
      OneStep(user, initial, steps);
      History(user, initial, Front(steps));
      ToldStep(Exec(user, initial, Front(steps)).value, Recorded(Front(steps)), Last(steps), user);
    } else {
      assert Calls([], COMPLETE) == [];
    }
  }

  lemma OneStep(user: bool, initial: int, steps: seq<Step>)
    requires steps != [] && Exec(user, initial, steps).Some?
    ensures |Front(steps)| < |steps| && Exec(user, initial, Front(steps)).Some?
    ensures var r, a := Exec(user, initial, Front(steps)).value, Last(steps);
            && Legal(user, r.event, a) && Exec(user, initial, steps) == Some(After(user, r, a))
            && Recorded(steps) == Noted(Recorded(Front(steps)), a)
  {
    hide Legal, Next, Reports, Noted;
  }

  lemma ToldStep(r: Run, rec: Record, a: Step, user: bool)
    requires Told(r, rec) && Legal(user, r.event, a)
    ensures Told(After(user, r, a), Noted(rec, a))
  {
    match a
    case Retain =>
    case Release =>
    case Register(cb) => ToldRegister(r, rec, cb, user);
    case Set(status) => ToldSet(r, rec, status, user);
  }

  lemma ToldRegister(r: Run, rec: Record, cb: Callback, user: bool)
    requires Told(r, rec) && Legal(user, r.event, Register(cb))
    ensures Told(After(user, r, Register(cb)), Noted(rec, Register(cb)))
  {
    if rec.outcome.None? {
      assert rec.early + [cb] + [] == rec.early + [] + [cb];
    } else {
      LateIsLegal(r.event.refs, cb.ops);
      assert rec.early + (rec.late + [cb]) == rec.early + rec.late + [cb];
      assert Calls(rec.late + [cb], COMPLETE) == Calls(rec.late, COMPLETE) + [Called(cb.id, COMPLETE)];
    }
  }

  lemma ToldSet(r: Run, rec: Record, status: int, user: bool)
    requires Told(r, rec) && Legal(user, r.event, Set(status))
    ensures Told(After(user, r, Set(status)), Noted(rec, Set(status)))
  {
    hide CallbacksLegal, AfterCallbacks;
    assert rec.early + [] == rec.early;
    assert Calls(rec.late, COMPLETE) == [];
  }

  /** Over any run: destroyed at most once, exactly when the count is zero and the status terminal, after
      everything else, and exactly one call reports it. Then no caller may use the event any more. */
  lemma {:induction false} Lifetime(user: bool, initial: int, steps: seq<Step>)
    requires initial > 0 && Exec(user, initial, steps).Some?
    ensures var r := Exec(user, initial, steps).value; var trace := r.event.trace;
            && (Destroyed in trace <==> r.event.refs == 0 && Terminal(r.event.status))
            && (forall i :: 0 <= i < |trace| && trace[i] == Destroyed ==> i == |trace| - 1)
            && r.reports == (if Destroyed in trace then 1 else 0)
            && (Destroyed in trace ==> forall a :: !Legal(user, r.event, a))
  {
    History(user, initial, steps);
    var r, rec := Exec(user, initial, steps).value, Recorded(steps);
    if rec.outcome.Some? {
      var calls := Calls(rec.early, rec.outcome.value) + Calls(rec.late, COMPLETE);
      assert forall i :: 0 <= i < |calls| ==> calls[i].Called?;
      if r.event.refs == 0 {
        assert r.event.trace[|calls|] == Destroyed;
      }
    }
  }

  /** The k-th registered callback makes the k-th call; there is no call while the event is pending and no
      other call afterwards. */
  lemma CallbacksOnce(user: bool, initial: int, steps: seq<Step>)
    requires initial > 0 && Exec(user, initial, steps).Some?
    ensures var e, rec := Exec(user, initial, steps).value.event, Recorded(steps);
            var done := Destroyed in e.trace;
            && (!Terminal(e.status) ==> e.trace == [])
            && (Terminal(e.status) ==> |e.trace| == |e.callbacks| + if done then 1 else 0)
            && (Terminal(e.status) ==> forall k :: 0 <= k < |e.callbacks| ==>
                  e.trace[k] == Called(e.callbacks[k].id, if k < |rec.early| then e.status else COMPLETE))
  {
    hide Exec, Recorded, Legal;
    History(user, initial, steps);
    Lifetime(user, initial, steps);
  }

  /** Callbacks are told success when they are registered late, also for a failed event: all of them see
      the event's own status exactly when none is late or the event succeeded. */
  lemma TrueStatus(user: bool, initial: int, steps: seq<Step>)
    requires initial > 0 && Exec(user, initial, steps).Some?
    ensures var e, rec := Exec(user, initial, steps).value.event, Recorded(steps);
            (forall m :: m in e.trace && m.Called? ==> m.status == e.status) <==>
              (!Terminal(e.status) || rec.late == [] || e.status == COMPLETE)
  {
    hide Exec, Recorded, Legal;
    History(user, initial, steps);
    CallbacksOnce(user, initial, steps);
    var e, rec := Exec(user, initial, steps).value.event, Recorded(steps);
    if rec.late != [] && Terminal(e.status) {
      var k := |rec.early|;
      assert e.trace[k] == Called(e.callbacks[k].id, COMPLETE);
      assert e.trace[k] in e.trace;
    }
  }

  // ---- counts and statuses ----

  /** References that the operations add, less those that they release. */
  function Net(ops: seq<Op>): int {
    if ops == [] then 0 else Net(ops[..|ops| - 1]) + if ops[|ops| - 1].DoRetain? then 1 else -1
  }

  function NetOf(callbacks: seq<Callback>): int {
    if callbacks == [] then 0 else NetOf(callbacks[..|callbacks| - 1]) + Net(callbacks[|callbacks| - 1].ops)
  }

  lemma {:induction false} NetHead(ops: seq<Op>)
    requires ops != []
    ensures Net(ops) == (if ops[0].DoRetain? then 1 else -1) + Net(ops[1..])
    decreases |ops|
  {
    if |ops| > 1 {
      NetHead(ops[..|ops| - 1]);
      assert ops[..|ops| - 1][1..] == ops[1..][..|ops| - 2];
    }
  }

  lemma {:induction false} NetOfHead(callbacks: seq<Callback>)
    requires callbacks != []
    ensures NetOf(callbacks) == Net(callbacks[0].ops) + NetOf(callbacks[1..])
    decreases |callbacks|
  {
    if |callbacks| > 1 {
      NetOfHead(callbacks[..|callbacks| - 1]);
      assert callbacks[..|callbacks| - 1][1..] == callbacks[1..][..|callbacks| - 2];
    }
  }

  lemma {:induction false} AfterOpsNet(refs: nat, ops: seq<Op>)
    requires OpsLegal(refs, ops)
    ensures AfterOps(refs, ops) == refs + Net(ops)
    decreases |ops|
  {
    if ops != [] {
      NetHead(ops);
      AfterOpsNet(if ops[0].DoRetain? then refs + 1 else refs - 1, ops[1..]);
    }
  }

  lemma {:induction false} AfterCallbacksNet(refs: nat, callbacks: seq<Callback>)
    requires CallbacksLegal(refs, callbacks)
    ensures AfterCallbacks(refs, callbacks) == refs + NetOf(callbacks)
    decreases |callbacks|
  {
    if callbacks != [] {
      NetOfHead(callbacks);
      AfterOpsNet(refs, callbacks[0].ops);
      AfterCallbacksNet(AfterOps(refs, callbacks[0].ops), callbacks[1..]);
    }
  }

  /** The callers' references: the first one, those retained, less those released. */
  function Held(steps: seq<Step>): int {
    if steps == [] then 1 else
    Held(Front(steps)) + if Last(steps).Retain? then 1 else if Last(steps).Release? then -1 else 0
  }

  /** The status set last, or the initial one. */
  function LastSet(initial: int, steps: seq<Step>): int {
    if steps == [] then initial else
    if Last(steps).Set? then Last(steps).status else LastSet(initial, Front(steps))
  }

  /** Over every run the status is the one set last. */
  lemma {:induction false} StatusIsSetLast(user: bool, initial: int, steps: seq<Step>)
    requires Exec(user, initial, steps).Some?
    ensures Exec(user, initial, steps).value.event.status == LastSet(initial, steps)
    decreases |steps|
  {
    if steps != [] {
      OneStep(user, initial, steps);
      StatusIsSetLast(user, initial, Front(steps));
      hide Exec, CallbacksLegal, AfterCallbacks, OpsLegal, AfterOps, Calls;
    }
  }

  /** What the callbacks called so far have retained, less what they have released. */
  function NetCalled(rec: Record): int {
    (if rec.outcome.Some? then NetOf(rec.early) else 0) + NetOf(rec.late)
  }

  /** Over every run the count is that of the callers' references and of what the callbacks called so far have
      retained and released. */
  lemma {:induction false} ReferencesCounted(user: bool, initial: int, steps: seq<Step>)
    requires initial > 0 && Exec(user, initial, steps).Some?
    ensures Exec(user, initial, steps).value.event.refs == Held(steps) + NetCalled(Recorded(steps))
    decreases |steps|
  {
    if steps != [] {
      OneStep(user, initial, steps);
      ReferencesCounted(user, initial, Front(steps));
      History(user, initial, Front(steps));
      hide Exec, Legal, Next, Reports, Noted, Told, NetCalled, Recorded;
      StepCounted(Exec(user, initial, Front(steps)).value, Recorded(Front(steps)), Last(steps), user);
    }
  }

  lemma StepCounted(r: Run, rec: Record, a: Step, user: bool)
    requires Told(r, rec) && Legal(user, r.event, a)
    ensures Next(r.event, a).refs - r.event.refs
         == NetCalled(Noted(rec, a)) - NetCalled(rec) + if a.Retain? then 1 else if a.Release? then -1 else 0
  {
    hide CallbacksLegal, AfterCallbacks, OpsLegal, AfterOps, Calls;
    if a.Register? {
      assert (rec.late + [a.cb])[..|rec.late|] == rec.late;
      if Terminal(r.event.status) {
        LateIsLegal(r.event.refs, a.cb.ops);
        AfterOpsNet(r.event.refs, a.cb.ops);
      }
    } else if a.Set? && Terminal(a.status) {
      AfterCallbacksNet(r.event.refs, r.event.callbacks);
      assert rec.early + [] == rec.early;
    }
  }

  /** A user event is destroyed without ever being deleted exactly when its callbacks release the last
      reference while its status is being set. */
  lemma {:induction false} Leak(initial: int, before: seq<Step>, status: int, rest: seq<Step>)
    requires initial > 0 && Terminal(status) && Exec(true, initial, before + [Set(status)] + rest).Some?
    ensures Exec(true, initial, before).Some?
    ensures var e, r := Exec(true, initial, before).value.event,
                        Exec(true, initial, before + [Set(status)] + rest).value;
            && Legal(true, e, Set(status)) && Terminal(r.event.status)
            && (r.reports > r.deleted <==> AfterCallbacks(e.refs, e.callbacks) == 0)
            && r.deleted <= r.reports <= 1
    decreases |rest|
  {
    var steps := before + [Set(status)] + rest;
    OneStep(true, initial, steps);
    Lifetime(true, initial, steps);
    if rest == [] {
      assert Front(steps) == before;
      History(true, initial, before);
      NoneDeleted(initial, before);
    } else {
      assert Front(steps) == before + [Set(status)] + rest[..|rest| - 1];
      assert Last(steps) == rest[|rest| - 1];
      Leak(initial, before, status, rest[..|rest| - 1]);
    }
  }

  lemma {:induction false} NoneDeleted(initial: int, steps: seq<Step>)
    requires Exec(true, initial, steps).Some?
    ensures var r := Exec(true, initial, steps).value; r.deleted <= r.reports
    decreases |steps|
  {
    if steps != [] {
      OneStep(true, initial, steps);
      NoneDeleted(initial, Front(steps));
    }
  }

  /** For the other events, the one call that reports the destruction also deletes. */
  lemma {:induction false} CommandEventsAreDeleted(initial: int, steps: seq<Step>)
    requires initial > 0 && Exec(false, initial, steps).Some?
    ensures var r := Exec(false, initial, steps).value;
            r.deleted == if r.event.refs == 0 && Terminal(r.event.status) then 1 else 0
    decreases |steps|
  {
    Lifetime(false, initial, steps);
    if steps != [] {
      OneStep(false, initial, steps);
      Lifetime(false, initial, Front(steps));
      CommandEventsAreDeleted(initial, Front(steps));
    }
  }

  /** A call goes on with a deleted event exactly when it is the last one, and registers a callback late that
      releases the last reference. */
  lemma {:induction false} UseAfterDeletion(user: bool, initial: int, steps: seq<Step>)
    requires initial > 0 && Exec(user, initial, steps).Some?
    ensures Exec(user, initial, steps).value.dangling <==>
              && steps != [] && Last(steps).Register?
              && DropsLast(Exec(user, initial, Front(steps)).value.event, Last(steps).cb)
    decreases |steps|
  {
    if steps != [] {
      OneStep(user, initial, steps);
      Lifetime(user, initial, Front(steps));
      UseAfterDeletion(user, initial, Front(steps));
      if Front(steps) != [] {
        OneStep(user, initial, Front(steps));
      }
    }
  }

  // ---- instances ----

  /** The callback of a user event releases the application's only reference while the status is set. */
  lemma LeakingRun()
    ensures var r := Exec(true, SUBMITTED, [Register(Callback(0, [DoRelease])), Set(COMPLETE)]);
            r.Some? && r.value.event.refs == 0 && r.value.reports == 1 && r.value.deleted == 0
  {
    var a, b := Register(Callback(0, [DoRelease])), Set(COMPLETE);
    assert Front([a]) == [] && Front([a, b]) == [a];
    assert OpsLegal(1, [DoRelease]) && AfterOps(1, [DoRelease]) == 0 by {
      assert [DoRelease][1..] == [];
    }
    var cb := Callback(0, [DoRelease]);
    assert CallbacksLegal(1, [cb]) && AfterCallbacks(1, [cb]) == 0 by {
      assert [cb][1..] == [];
    }
    var e := Event(1, SUBMITTED, [cb], []);
    assert Registered(Fresh(SUBMITTED), cb).callbacks == [] + [cb] == [cb];
    assert Exec(true, SUBMITTED, [a]) == Some(Run(e, 0, 0, false));
  }

  /** The application retains and releases a user event, sets its status and gives up its reference: the last
      call destroys and deletes the event. */
  lemma WholeLife()
    ensures var r := Exec(true, SUBMITTED, [Retain, Release, Set(COMPLETE), Release]);
            r == Some(Run(Event(0, COMPLETE, [], [Destroyed]), 1, 1, false))
  {
    var a := [Retain, Release, Set(COMPLETE), Release];
    assert Front([Retain]) == [] && Front([Retain, Release]) == [Retain];
    assert Front(a[..3]) == a[..2] == [Retain, Release] && Front(a) == a[..3];
    assert Exec(true, SUBMITTED, [Retain]) == Some(Run(Event(2, SUBMITTED, [], []), 0, 0, false));
    assert Exec(true, SUBMITTED, [Retain, Release]) == Some(Run(Event(1, SUBMITTED, [], []), 0, 0, false));
    assert [] + Calls([], COMPLETE) == [];
    assert Exec(true, SUBMITTED, a[..3]) == Some(Run(Event(1, COMPLETE, [], []), 0, 0, false));
    assert [] + [Destroyed] == [Destroyed];
  }

  /** A callback registered for an event that has failed is told success. */
  lemma ToldSuccess()
    ensures var r := Exec(false, QUEUED, [Set(-5), Register(Callback(0, []))]);
            r.Some? && r.value.event.status == -5 && Called(0, COMPLETE) in r.value.event.trace
  {
    var a, b := Set(-5), Register(Callback(0, []));
    assert Front([a]) == [] && Front([a, b]) == [a];
    assert [] + Calls([], -5) == [];
    assert Exec(false, QUEUED, [a]) == Some(Run(Event(1, -5, [], []), 0, 0, false));
    var e := Registered(Event(1, -5, [], []), Callback(0, []));
    assert e.trace[0] == Called(0, COMPLETE);
  }
}
