/**
 Commands on a compute node. A read, write, map or unmap that moves data is a chain of native events: map the
 buffer, copy between buffer and host, unmap the buffer. Callbacks of the native events drive the chain and
 tell the host about the end of the command.
 */
module CommandChains {
  import opened Seqs

  const SUBMITTED := 2
  const IO_ERROR := -2005

  // ---- the objects that the callbacks work on ----

  /** `sent`: the statuses sent to the host for one command. */
  class Host {
    var sent: seq<int>

    constructor ()
      ensures sent == []
    {
      sent := [];
    }
  }

  /** A native user event; setting it a second time is an error. */
  class UserEvent {
    var status: Option<int>

    constructor ()
      ensures status == None
    {
      status := None;
    }

    method SetStatus(s: int)
      requires status.None? && s <= 0
      modifies this
      ensures status == Some(s)
    {
      status := Some(s);
    }
  }

  /** What executing a copy command leads to: the messages sent, the status of the user event if it is set
      at once, and otherwise a transfer that will set it. */
  datatype Copied = Copied(sent: seq<int>, event: Option<int>)

  /** Which of the two operations fails with an I/O error: the message to the host, or starting the transfer. */
  datatype Io = Fine | MessageFails | TransferFails

  /** `message`: whether the host is told to start its side of the transfer. */
  function CopyOutcome(errcode: int, message: bool, io: Io): Copied {
    var sent := if message then [SUBMITTED] else [];
    if errcode < 0 then Copied([], Some(errcode))
    else match io
      case Fine => Copied(sent, None)
      case MessageFails => Copied([], Some(IO_ERROR))
      case TransferFails => Copied(sent, Some(IO_ERROR))
  }

  class CopyDataCommand {
    const host: Host
    const event: UserEvent
    /** A transfer has been started and has not ended. */
    var transferring: bool

    constructor (host: Host, event: UserEvent)
      ensures this.host == host && this.event == event && !transferring
    {
      this.host, this.event, transferring := host, event, false;
    }

    /** The object is where chain `c` is. */
    ghost predicate Shows(c: Chain)
      reads this, host, event
    {
      host.sent == c.sent && event.status == c.copy && transferring == c.transferring
    }

    /** The callback of the map operation. */
    method Execute(errcode: int, io: Io)
      requires errcode <= 0 && event.status.None? && !transferring
      modifies this, host, event
      ensures var o := CopyOutcome(errcode, true, io);
              host.sent == old(host.sent) + o.sent && event.status == o.event && transferring == o.event.None?
      ensures forall k, c ::
                old(Shows(c)) && !Synchronizes(k) && Enabled(k, c, Copy(io)) && c.mapped == Some(errcode) ==>
                Shows(Next(k, c, Copy(io)))
    {
      if errcode == 0 {
        if !io.MessageFails? {
          host.sent := host.sent + [SUBMITTED];
        }
        if io.Fine? {
          transferring := true;
        } else {
          event.SetStatus(IO_ERROR);
        }
      } else {
        event.SetStatus(errcode);
      }
    }

    /** The callback of the transfer. */
    method OnTransferred(status: int)
      requires status <= 0 && transferring && event.status.None?
      modifies this, event
      ensures event.status == Some(status) && !transferring
      ensures forall k, c :: old(Shows(c)) && Enabled(k, c, Transferred(status)) ==>
                Shows(Next(k, c, Transferred(status)))
    {
      transferring := false;
      event.SetStatus(status);
    }
  }

  /** `execAcquire` and `execRelease`: the callbacks of the map operations that synchronize a memory object. */
  class ExecData {
    const event: UserEvent
    var transferring: bool

    constructor (event: UserEvent)
      ensures this.event == event && !transferring
    {
      this.event, transferring := event, false;
    }

    method Execute(status: int, startFails: bool)
      requires status <= 0 && event.status.None? && !transferring
      modifies this, event
      ensures var o := CopyOutcome(status, false, if startFails then TransferFails else Fine);
              o.sent == [] && event.status == o.event && transferring == o.event.None?
    {
      if status == 0 {
        if startFails {
          event.SetStatus(IO_ERROR);
        } else {
          transferring := true;
        }
      } else {
        event.SetStatus(status);
      }
    }

    /** The transfer sets the user event itself. */
    method OnTransferred(status: int)
      requires status <= 0 && transferring && event.status.None?
      modifies this, event
      ensures event.status == Some(status) && !transferring
    {
      transferring := false;
      event.SetStatus(status);
    }
  }

  class SetCompleteCommand {
    const host: Host
    const event: UserEvent

    constructor (host: Host, event: UserEvent)
      ensures this.host == host && this.event == event
    {
      this.host, this.event := host, event;
    }

    /** One message, or none if it fails; the command's own event is set in any case. */
    method Execute(errcode: int, sendFails: bool)
      requires errcode <= 0 && event.status.None?
      modifies host, event
      ensures host.sent == old(host.sent) + if sendFails then [] else [errcode]
      ensures event.status == Some(if sendFails then IO_ERROR else errcode)
    {
      var status := errcode;
      if !sendFails {
        host.sent := host.sent + [errcode];
      } else {
        status := IO_ERROR;
      }
      event.SetStatus(status);
    }
  }

  // ---- the kinds of commands ----

  datatype Kind =
    | ReadBuffer | WriteBuffer | MapForReading | MapOther | UnmapAfterWriting | UnmapOther
    | CopyBuffer | NDRangeKernel | Marker | Barrier
    | Acquire | Release

  /** The chains that synchronize a memory object with another node. The host takes no notice of them. */
  predicate Synchronizes(k: Kind) {
    k.Acquire? || k.Release?
  }

  /** Data is moved between buffer and host. */
  predicate Transfers(k: Kind) {
    Synchronizes(k) || k.ReadBuffer? || k.WriteBuffer? || k.MapForReading? || k.UnmapAfterWriting?
  }

  /** The host itself finishes the command when it has received the data. */
  predicate FinishedByHost(k: Kind) {
    k.ReadBuffer? || k.MapForReading?
  }

  predicate IsSimple(k: Kind) {
    k.CopyBuffer? || k.NDRangeKernel? || k.Marker? || k.Barrier?
  }

  /** Callbacks of the last native event that are still to run: the one that tells the host that the command
      is complete, and the one of the event object. */
  datatype Todo = Todo(complete: bool, ofEvent: bool)

  datatype Callback = SetComplete | OfEvent

  /** What is registered when the command is enqueued. `event`: an event was requested. */
  function Registered(k: Kind, event: bool): Todo {
    if FinishedByHost(k) || Synchronizes(k) then Todo(false, false) else Todo(!IsSimple(k), event)
  }

  predicate Waits(t: Todo, cb: Callback) {
    if cb.SetComplete? then t.complete else t.ofEvent
  }

  /** The callback of a marker's event is registered by the constructor of a base class. Until the object is
      complete, the base class's reaction is the one that runs. */
  predicate BaseRegisters(k: Kind) {
    k.MapOther? || k.UnmapOther?
  }

  // ---- one command as a state machine ----

  /** `mapped`, `copy`, `last`: final statuses of the native events. `sets`: how often the copy event was set.
      `todo`: callbacks of the last event still to run. `built`: the event object is complete.
      `early`: its callback ran before. `submitted`: the host was told to start the transfer. `started`: the
      node's side of it was started. `sent`: all statuses sent to the host. */
  datatype Chain = Chain(mapped: Option<int>, executed: bool, transferring: bool, copy: Option<int>, sets: nat,
                         last: Option<int>, todo: Todo, built: bool, early: bool, submitted: bool, started: bool,
                         sent: seq<int>)

  function Start(k: Kind, event: bool): Chain {
    Chain(None, false, false, None, 0, None, Registered(k, event), !event, false, false, false, [])
  }

  datatype Action =
    | MapDone(status: int)
    | Copy(io: Io)
    | Transferred(status: int)
    | LastDone(status: int)
    | Built
    | Call(cb: Callback, sendFails: bool)

  /** The native runtime runs a command when the events it waits for are done; a failure is passed on. Each
      callback runs once, after its event, in any order. */
  predicate Enabled(k: Kind, c: Chain, a: Action) {
    match a
    case MapDone(status) => Transfers(k) && c.mapped.None? && status <= 0
    case Copy(io) => c.mapped.Some? && !c.executed && (Synchronizes(k) ==> !io.MessageFails?)
    case Transferred(status) => c.transferring && status <= 0
    case LastDone(status) =>
      c.last.None? && status <= 0 && (Transfers(k) ==> c.copy.Some? && (c.copy.value < 0 ==> status < 0))
    case Built => !c.built
    case Call(cb, _) => c.last.Some? && Waits(c.todo, cb)
  }

  function Next(k: Kind, c: Chain, a: Action): Chain
    requires Enabled(k, c, a)
  {
    match a
    case MapDone(status) => c.(mapped := Some(status))
    case Copy(io) =>
      var o := CopyOutcome(c.mapped.value, !Synchronizes(k), io);
      c.(executed := true, transferring := o.event.None?, copy := if o.event.Some? then o.event else c.copy,
         sets := c.sets + |Opt(o.event)|, submitted := o.sent != [], started := o.event.None?, sent := c.sent + o.sent)
    case Transferred(status) => c.(transferring := false, copy := Some(status), sets := c.sets + 1)
    case LastDone(status) => c.(last := Some(status))
    case Built => c.(built := true)
    case Call(cb, sendFails) =>
      var tells := TellsHost(k, c, cb);
      c.(todo := if cb.SetComplete? then c.todo.(complete := false) else c.todo.(ofEvent := false),
         early := c.early || (cb.OfEvent? && BaseRegisters(k) && !c.built),
         sent := c.sent + if tells && !sendFails then [c.last.value] else [])
  }

  /** The events of simple commands tell the host; those of the other commands tell other nodes only, unless
      the base class reacts. */
  predicate TellsHost(k: Kind, c: Chain, cb: Callback) {
    cb.SetComplete? || IsSimple(k) || (BaseRegisters(k) && !c.built)
  }

  function Exec(k: Kind, event: bool, run: seq<Action>): Option<Chain> {
    if run == [] then Some(Start(k, event)) else
    var c, a := Exec(k, event, run[..|run| - 1]), run[|run| - 1];
    if c.Some? && Enabled(k, c.value, a) then Some(Next(k, c.value, a)) else None
  }

  // ---- what holds in every state ----

  ghost predicate Ordered(k: Kind, c: Chain) {
    && (c.mapped.Some? ==> c.mapped.value <= 0) && (c.copy.Some? ==> c.copy.value <= 0)
    && (c.last.Some? ==> c.last.value <= 0)
    && (c.executed ==> c.mapped.Some?)
    && (c.executed <==> c.transferring || c.copy.Some?) && !(c.transferring && c.copy.Some?)
    && c.sets == |Opt(c.copy)|
    && (c.transferring ==> c.mapped == Some(0))
    && (c.copy.Some? && c.mapped.value < 0 ==> c.copy == c.mapped)
    && (Transfers(k) && c.last.Some? ==> c.copy.Some? && (c.copy.value < 0 ==> c.last.value < 0))
    && (!Transfers(k) ==> c.mapped.None?)
  }

  lemma {:induction false} RunOrdered(k: Kind, event: bool, run: seq<Action>)
    requires Exec(k, event, run).Some?
    ensures Ordered(k, Exec(k, event, run).value)
  {
    if run != [] {
      RunOrdered(k, event, run[..|run| - 1]);
      hide Ordered, Enabled, Next;
      OrderedStep(k, Exec(k, event, run[..|run| - 1]).value, run[|run| - 1]);
    }
  }

  lemma OrderedStep(k: Kind, c: Chain, a: Action)
    requires Ordered(k, c) && Enabled(k, c, a)
    ensures Ordered(k, Next(k, c, a))
  {
  }

  // ---- what the steps of a run tell ----

  /** How the copy event ended, told from the steps: with the error of the map, with an I/O error if the message
      or the start of the transfer failed, and otherwise with what the transfer reported. */
  ghost predicate CopyEnds(run: seq<Action>, x: int) {
    || (x < 0 && MapDone(x) in run && exists io :: Copy(io) in run)
    || (x == IO_ERROR && MapDone(0) in run && (Copy(MessageFails) in run || Copy(TransferFails) in run))
    || (MapDone(0) in run && Copy(Fine) in run && Transferred(x) in run)
  }

  ghost predicate Recounts(k: Kind, run: seq<Action>, c: Chain) {
    && (forall x :: c.mapped == Some(x) <==> MapDone(x) in run) && (c.executed <==> exists io :: Copy(io) in run)
    && (forall x :: c.last == Some(x) <==> LastDone(x) in run)
    && (c.started <==> MapDone(0) in run && Copy(Fine) in run)
    && (c.submitted <==>
        !Synchronizes(k) && MapDone(0) in run && (Copy(Fine) in run || Copy(TransferFails) in run))
    && (forall x :: c.copy == Some(x) <==> CopyEnds(run, x))
    && (forall x :: Transferred(x) in run ==> c.started && c.copy == Some(x))
    && (c.transferring ==> c.started)
  }

  lemma RecountsStep(k: Kind, run: seq<Action>, c: Chain, a: Action)
    requires Recounts(k, run, c) && Ordered(k, c) && Enabled(k, c, a)
    ensures Recounts(k, run + [a], Next(k, c, a))
  {
    hide Recounts, Ordered, Enabled, Next;
    if a.Copy? {
      CopyRecounts(k, run, c, a.io);
    } else if a.Transferred? {
      TransferRecounts(k, run, c, a.status);
    } else if a.MapDone? {
      MapRecounts(k, run, c, a.status);
    } else {
      SameEnds(run, a);
      hide CopyEnds;
      OtherRecounts(k, run, c, a);
    }
  }

  lemma MapRecounts(k: Kind, run: seq<Action>, c: Chain, status: int)
    requires Recounts(k, run, c) && Ordered(k, c) && Enabled(k, c, MapDone(status))
    ensures Recounts(k, run + [MapDone(status)], Next(k, c, MapDone(status)))
  {
  }

  lemma SameEnds(run: seq<Action>, a: Action)
    requires !a.MapDone? && !a.Copy? && !a.Transferred?
    ensures forall x :: CopyEnds(run + [a], x) <==> CopyEnds(run, x)
  {
  }

  lemma OtherRecounts(k: Kind, run: seq<Action>, c: Chain, a: Action)
    requires Recounts(k, run, c) && Enabled(k, c, a) && !a.MapDone? && !a.Copy? && !a.Transferred?
    requires forall x :: CopyEnds(run + [a], x) <==> CopyEnds(run, x)
    ensures Recounts(k, run + [a], Next(k, c, a))
  {
    hide CopyEnds;
  }

  lemma CopyRecounts(k: Kind, run: seq<Action>, c: Chain, io: Io)
    requires Recounts(k, run, c) && Ordered(k, c) && Enabled(k, c, Copy(io))
    ensures Recounts(k, run + [Copy(io)], Next(k, c, Copy(io)))
  {
  }

  lemma TransferRecounts(k: Kind, run: seq<Action>, c: Chain, status: int)
    requires Recounts(k, run, c) && Ordered(k, c) && Enabled(k, c, Transferred(status))
    ensures Recounts(k, run + [Transferred(status)], Next(k, c, Transferred(status)))
  {
  }

  /** Over every run: how the copy event and the last event ended, and whether the transfer was started and the
      host told of it. */
  lemma {:induction false} CopyIsReported(k: Kind, event: bool, run: seq<Action>)
    requires Exec(k, event, run).Some?
    ensures Recounts(k, run, Exec(k, event, run).value)
  {
    if run != [] {
      var front, a := run[..|run| - 1], run[|run| - 1];
      CopyIsReported(k, event, front);
      RunOrdered(k, event, front);
      hide Recounts, Ordered, Enabled, Next;
      assert run == front + [a];
      RecountsStep(k, front, Exec(k, event, front).value, a);
    }
  }

  predicate Quiet(k: Kind, c: Chain) {
    c.last.Some? && c.todo == Todo(false, false) && c.built
  }

  /** For every outcome of the map, the message and the transfer: the copy event is set at most once, and
      exactly once when the command is over; the unmap runs only after it and the copy only after the map;
      the command succeeds only if map and transfer do; a failure is what the host is told. */
  lemma CopiedOnce(k: Kind, event: bool, run: seq<Action>)
    requires Exec(k, event, run).Some? && Transfers(k)
    ensures var c := Exec(k, event, run).value;
            && c.sets <= 1 && (c.sets == 1 <==> c.copy.Some?)
            && (c.last.Some? ==> c.copy.Some?) && (c.copy.Some? ==> c.mapped.Some?)
            && (c.last == Some(0) ==> c.copy == Some(0) && c.mapped == Some(0))
            && (c.copy == Some(0) ==> c.mapped == Some(0))
            && (Quiet(k, c) ==> c.sets == 1)
    ensures var c := Exec(k, event, run).value;
            && (forall x :: c.copy == Some(x) <==> CopyEnds(run, x))
            && (c.copy == Some(0) <==> MapDone(0) in run && Copy(Fine) in run && Transferred(0) in run)
  {
    hide Exec;
    RunOrdered(k, event, run);
    CopyIsReported(k, event, run);
  }

  // ---- notices to the host ----

  /** No message about the end of the command fails. */
  predicate NoSendFails(run: seq<Action>) {
    forall i :: 0 <= i < |run| && run[i].Call? ==> !run[i].sendFails
  }

  /** Callbacks that are meant to tell the host. */
  function Telling(k: Kind, t: Todo): nat {
    (if t.complete then 1 else 0) + if t.ofEvent && IsSimple(k) then 1 else 0
  }

  /** One for every command with an event, except those that the host finishes; a write or a map that moves
      no data tells the host also without an event. */
  function Expected(k: Kind, event: bool): (n: nat)
    ensures n <= 1 && (event ==> (n == 0 <==> FinishedByHost(k) || Synchronizes(k)))
    ensures n == Telling(k, Registered(k, event))
  {
    if FinishedByHost(k) || Synchronizes(k) || (IsSimple(k) && !event) then 0 else 1
  }

  function Repeat(x: int, n: int): seq<int> {
    if n <= 0 then [] else Repeat(x, n - 1) + [x]
  }

  /** How many notices of the end have been sent. */
  function Notices(k: Kind, event: bool, c: Chain): int {
    Expected(k, event) - Telling(k, c.todo) + if c.early then 1 else 0
  }

  ghost predicate Told(k: Kind, event: bool, c: Chain) {
    && (c.todo.complete ==> Registered(k, event).complete) && (c.todo.ofEvent ==> Registered(k, event).ofEvent)
    && (c.last.None? ==> c.todo == Registered(k, event) && !c.early)
    && (c.early ==> !c.todo.ofEvent && BaseRegisters(k) && event)
    && (c.submitted ==> c.executed)
    && c.sent == (if c.submitted then [SUBMITTED] else [])
               + if c.last.Some? then Repeat(c.last.value, Notices(k, event, c)) else []
  }

  lemma ToldStep(k: Kind, event: bool, c: Chain, a: Action)
    requires Ordered(k, c) && Told(k, event, c) && Enabled(k, c, a) && (a.Call? ==> !a.sendFails)
    ensures Told(k, event, Next(k, c, a))
  {
    if a.Call? {
      CallTold(k, event, c, a.cb);
    }
  }

  lemma CallTold(k: Kind, event: bool, c: Chain, cb: Callback)
    requires Told(k, event, c) && Enabled(k, c, Call(cb, false))
    ensures Told(k, event, Next(k, c, Call(cb, false)))
  {
    var d := Next(k, c, Call(cb, false));
    var n := Notices(k, event, c);
    assert Notices(k, event, d) == n + if TellsHost(k, c, cb) then 1 else 0;
    assert n >= 0;
    var sub := if c.submitted then [SUBMITTED] else [];
    assert sub + (Repeat(c.last.value, n) + [c.last.value]) == sub + Repeat(c.last.value, n) + [c.last.value];
  }

  lemma {:induction false} RunTold(k: Kind, event: bool, run: seq<Action>)
    requires Exec(k, event, run).Some? && NoSendFails(run)
    ensures Told(k, event, Exec(k, event, run).value)
  {
    if run != [] {
      RunTold(k, event, run[..|run| - 1]);
      RunOrdered(k, event, run[..|run| - 1]);
      hide Ordered, Told, Enabled, Next;
      ToldStep(k, event, Exec(k, event, run[..|run| - 1]).value, run[|run| - 1]);
    }
  }

  /** When a command is over, the host has been sent its final status exactly as often as expected, once at
      most, and one more time exactly if the callback of its event ran while the object was still being
      constructed. The host is told to start the transfer before that. */
  lemma OneNotice(k: Kind, event: bool, run: seq<Action>)
    requires Exec(k, event, run).Some? && NoSendFails(run) && Quiet(k, Exec(k, event, run).value)
    ensures var c := Exec(k, event, run).value;
            && c.sent == (if c.submitted then [SUBMITTED] else [])
                       + Repeat(c.last.value, Expected(k, event) + if c.early then 1 else 0)
            && (c.early ==> event && BaseRegisters(k))
            && !(Registered(k, event).complete && Registered(k, event).ofEvent && IsSimple(k))
  {
    RunTold(k, event, run);
  }

  /** The second notice is possible. */
  lemma EarlyCallbackTellsTwice(k: Kind)
    requires BaseRegisters(k)
    ensures var run := [LastDone(0), Call(OfEvent, false), Built, Call(SetComplete, false)];
            && Exec(k, true, run).Some? && NoSendFails(run) && Quiet(k, Exec(k, true, run).value)
            && Exec(k, true, run).value.sent == [0, 0]
  {
    var run := [LastDone(0), Call(OfEvent, false), Built, Call(SetComplete, false)];
    hide Exec;
    EmptyRun(k);
    var one := [] + [LastDone(0)];
    var two := one + [Call(OfEvent, false)];
    var three := two + [Built];
    assert run == three + [Call(SetComplete, false)];
    OneMore(k, [], LastDone(0));
    OneMore(k, one, Call(OfEvent, false));
    OneMore(k, two, Built);
    OneMore(k, three, Call(SetComplete, false));
  }

  lemma EmptyRun(k: Kind)
    ensures Exec(k, true, []) == Some(Start(k, true))
  {
  }

  lemma OneMore(k: Kind, run: seq<Action>, a: Action)
    requires Exec(k, true, run).Some? && Enabled(k, Exec(k, true, run).value, a)
    ensures Exec(k, true, run + [a]) == Some(Next(k, Exec(k, true, run).value, a))
  {
    hide Enabled, Next;
    assert (run + [a])[..|run + [a]| - 1] == run;
  }

  // ---- every command comes to an end ----

  /** What is left to be done. */
  function Rank(c: Chain): nat {
    (if c.mapped.None? then 1 else 0) + (if !c.executed then 2 else 0) + (if c.transferring then 1 else 0)
    + (if c.last.None? then 1 else 0) + (if !c.built then 1 else 0)
    + (if c.todo.complete then 1 else 0) + (if c.todo.ofEvent then 1 else 0)
  }

  /** However map, messages and transfer turn out, a command takes at most seven steps and is never stuck
      before it is over. */
  lemma {:induction false} ComesToAnEnd(k: Kind, event: bool, run: seq<Action>)
    requires Exec(k, event, run).Some?
    ensures |run| + Rank(Exec(k, event, run).value) <= 7
    ensures var c := Exec(k, event, run).value; Quiet(k, c) || exists a :: Enabled(k, c, a)
  {
    RunOrdered(k, event, run);
    NotStuck(k, Exec(k, event, run).value);
    if run != [] {
      hide Ordered, Enabled, Next, Rank;
      ComesToAnEnd(k, event, run[..|run| - 1]);
      RankFalls(k, Exec(k, event, run[..|run| - 1]).value, run[|run| - 1]);
    }
  }

  lemma RankFalls(k: Kind, c: Chain, a: Action)
    requires Enabled(k, c, a)
    ensures Rank(Next(k, c, a)) < Rank(c)
  {
  }

  lemma NotStuck(k: Kind, c: Chain)
    requires Ordered(k, c)
    ensures Quiet(k, c) || exists a :: Enabled(k, c, a)
  {
    if !Quiet(k, c) {
      assert Enabled(k, c, Built) || Enabled(k, c, Call(SetComplete, false)) || Enabled(k, c, Call(OfEvent, false))
          || Enabled(k, c, LastDone(-1)) || Enabled(k, c, Transferred(0)) || Enabled(k, c, Copy(Fine))
          || Enabled(k, c, MapDone(0));
    }
  }
}
