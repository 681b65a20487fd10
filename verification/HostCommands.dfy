/**
 Commands on the host. A command object waits for the statuses that the compute node sends; told that its
 command is submitted, it starts its side of the transfer. A read and a map for reading end with the receipt
 of their data, all other commands with the status that the node sends. This is proved over all runs of the
 node's chain of native events together with the host's command.
 */
module HostCommands {
  import opened Seqs
  import Chains = CommandChains

  type Kind = Chains.Kind

  const QUEUED := 3
  const RUNNING := 1

  function Min(a: int, b: int): int {
    if a <= b then a else b
  }

  // ---- the command object ----

  class Command {
    const kind: Kind
    var status: int
    /** A receive is posted and has not ended. */
    var receiving: bool

    constructor (kind: Kind)
      ensures this.kind == kind && status == QUEUED && !receiving
    {
      this.kind, status, receiving := kind, QUEUED, false;
    }

    /** The callback of the receipt runs later, also if it has ended already. */
    method Submit() returns (next: int)
      modifies this`receiving
      ensures next == RUNNING && receiving == (old(receiving) || Chains.FinishedByHost(kind))
    {
      if kind.ReadBuffer? || kind.MapForReading? {
        receiving := true;
      }
      next := RUNNING;
    }

    /** The status never rises: a status that is overtaken by a lower one is not stored. A submitted command
        is a running one. */
    method OnExecutionStatusChanged(executionStatus: int)
      modifies this
      ensures (status, receiving) == AfterMessage(kind, old(status), old(receiving), executionStatus)
    {
      var next := executionStatus;
      if executionStatus == Chains.SUBMITTED {
        next := Submit();
      }
      if next < status {
        status := next;
      }
    }
  }

  function Reported(m: int): int {
    if m == Chains.SUBMITTED then RUNNING else m
  }

  /** Status of a command, and whether it receives, after a message. */
  function AfterMessage(k: Kind, status: int, receiving: bool, m: int): (int, bool) {
    (Min(status, Reported(m)), receiving || (m == Chains.SUBMITTED && Chains.FinishedByHost(k)))
  }

  function AfterMessages(k: Kind, status: int, receiving: bool, ms: seq<int>): (int, bool) {
    if ms == [] then (status, receiving) else
    var before := AfterMessages(k, status, receiving, ms[..|ms| - 1]);
    AfterMessage(k, before.0, before.1, ms[|ms| - 1])
  }

  // ---- node and host together ----

  /** `told`: how many of the node's messages were taken. `storing`: a status that the thread of the messages
      is about to store. `got`: how the receipt ended. */
  datatype Host = Host(status: int, told: nat, storing: Option<int>, receiving: bool, got: Option<int>)

  datatype World = World(chain: Chains.Chain, host: Host)

  function Start(k: Kind, event: bool): World {
    World(Chains.Start(k, event), Host(QUEUED, 0, None, false, None))
  }

  /** A step of the node; on the host, the next message up to the point where its status is stored, storing
      it, and the callback of the receipt, which another thread runs. */
  datatype Action = Node(a: Chains.Action) | Told | Store | Received(status: int)

  /** Data arrives only if the node sends it; the receipt also ends if the connection is lost. */
  predicate Enabled(k: Kind, w: World, a: Action) {
    match a
    case Node(b) => Chains.Enabled(k, w.chain, b)
    case Told => w.host.storing.None? && w.host.told < |w.chain.sent|
    case Store => w.host.storing.Some?
    case Received(status) => w.host.receiving && status <= 0 && (status == 0 ==> w.chain.started)
  }

  function Next(k: Kind, w: World, a: Action): World
    requires Enabled(k, w, a)
  {
    var h := w.host;
    match a
    case Node(b) => w.(chain := Chains.Next(k, w.chain, b))
    case Told =>
      var m := w.chain.sent[h.told];
      w.(host := h.(told := h.told + 1, storing := Some(Reported(m)),
                    receiving := h.receiving || (m == Chains.SUBMITTED && Chains.FinishedByHost(k))))
    case Store => w.(host := h.(status := Min(h.status, h.storing.value), storing := None))
    case Received(status) =>
      w.(host := h.(status := Min(h.status, status), receiving := false, got := Some(status)))
  }

  function Exec(k: Kind, event: bool, run: seq<Action>): Option<World> {
    if run == [] then Some(Start(k, event)) else
    var w, a := Exec(k, event, run[..|run| - 1]), run[|run| - 1];
    if w.Some? && Enabled(k, w.value, a) then Some(Next(k, w.value, a)) else None
  }

  /** The steps that take `n` messages, one after the other. */
  function Taking(n: nat): seq<Action> {
    if n == 0 then [] else Taking(n - 1) + [Told, Store]
  }

  /** The host after `n` more messages. */
  function AfterTelling(k: Kind, h: Host, sent: seq<int>, n: nat): (after: Host)
    requires h.told + n <= |sent|
    ensures after.storing == h.storing && after.told == h.told + n
  {
    var after := AfterMessages(k, h.status, h.receiving, sent[h.told..h.told + n]);
    h.(told := h.told + n, status := after.0, receiving := after.1)
  }

  /** Messages that the command object is told one after the other, with nothing in between, are a run of the
      host with the same effect; its other runs interleave the messages with the receipt. */
  lemma {:induction false} UninterruptedMessages(k: Kind, event: bool, run: seq<Action>, w: World, n: nat)
    requires Exec(k, event, run) == Some(w) && w.host.storing.None? && w.host.told + n <= |w.chain.sent|
    ensures Exec(k, event, run + Taking(n)) == Some(w.(host := AfterTelling(k, w.host, w.chain.sent, n)))
  {
    if n == 0 {
      assert run + [] == run;
      assert w.chain.sent[w.host.told..w.host.told + n] == [];
    } else {
      UninterruptedMessages(k, event, run, w, n - 1);
      LastMessage(k, event, run, w, n);
    }
  }

  lemma LastMessage(k: Kind, event: bool, run: seq<Action>, w: World, n: nat)
    requires n > 0 && w.host.storing.None? && w.host.told + n <= |w.chain.sent|
    requires Exec(k, event, run + Taking(n - 1)) == Some(w.(host := AfterTelling(k, w.host, w.chain.sent, n - 1)))
    ensures Exec(k, event, run + Taking(n)) == Some(w.(host := AfterTelling(k, w.host, w.chain.sent, n)))
  {
    hide Exec, AfterMessage, AfterTelling, Taking;
    OneTaken(k, event, run + Taking(n - 1), w.(host := AfterTelling(k, w.host, w.chain.sent, n - 1)));
    OneMessageMore(k, w.host, w.chain.sent, n);
    TakingMore(run, n);
  }

  lemma TakingMore(run: seq<Action>, n: nat)
    requires n > 0
    ensures run + Taking(n) == run + Taking(n - 1) + [Told, Store]
  {
  }

  lemma OneMessageMore(k: Kind, h: Host, sent: seq<int>, n: nat)
    requires n > 0 && h.told + n <= |sent|
    ensures var before := AfterTelling(k, h, sent, n - 1);
            var after := AfterMessage(k, before.status, before.receiving, sent[h.told + n - 1]);
            AfterTelling(k, h, sent, n) == before.(told := h.told + n, status := after.0, receiving := after.1)
  {
    assert sent[h.told..h.told + n][..n - 1] == sent[h.told..h.told + n - 1];
  }

  lemma OneTaken(k: Kind, event: bool, run: seq<Action>, w: World)
    requires Exec(k, event, run) == Some(w) && w.host.storing.None? && w.host.told < |w.chain.sent|
    ensures var h := w.host; var after := AfterMessage(k, h.status, h.receiving, w.chain.sent[h.told]);
            Exec(k, event, run + [Told, Store])
              == Some(w.(host := h.(told := h.told + 1, status := after.0, receiving := after.1)))
  {
    hide Exec;
    Then(k, event, run, Told);
    Then(k, event, run + [Told], Store);
    assert run + [Told] + [Store] == run + [Told, Store];
  }

  lemma Then(k: Kind, event: bool, run: seq<Action>, a: Action)
    requires Exec(k, event, run).Some? && Enabled(k, Exec(k, event, run).value, a)
    ensures Exec(k, event, run + [a]) == Some(Next(k, Exec(k, event, run).value, a))
  {
    hide Enabled, Next;
    assert (run + [a])[..|run|] == run;
  }

  // ---- the node's part of a run ----

  function NodeRun(run: seq<Action>): seq<Chains.Action> {
    if run == [] then [] else
    NodeRun(run[..|run| - 1]) + if run[|run| - 1].Node? then [run[|run| - 1].a] else []
  }

  lemma {:induction false} NodePart(k: Kind, event: bool, run: seq<Action>)
    requires Exec(k, event, run).Some?
    ensures Chains.Exec(k, event, NodeRun(run)) == Some(Exec(k, event, run).value.chain)
  {
    if run != [] {
      var before, a := run[..|run| - 1], run[|run| - 1];
      NodePart(k, event, before);
      var w := Exec(k, event, before).value;
      if a.Node? {
        OneMore(k, event, NodeRun(before), a.a, w.chain);
      } else {
        OtherStep(k, w, a);
        assert NodeRun(run) == NodeRun(before);
      }
    }
  }

  lemma OneMore(k: Kind, event: bool, run: seq<Chains.Action>, a: Chains.Action, c: Chains.Chain)
    requires Chains.Exec(k, event, run) == Some(c) && Chains.Enabled(k, c, a)
    ensures Chains.Exec(k, event, run + [a]) == Some(Chains.Next(k, c, a))
  {
    hide Chains.Enabled, Chains.Next;
    assert (run + [a])[..|run + [a]| - 1] == run;
  }

  lemma OtherStep(k: Kind, w: World, a: Action)
    requires Enabled(k, w, a) && !a.Node?
    ensures Next(k, w, a).chain == w.chain
  {
  }

  lemma {:induction false} NodeSteps(run: seq<Action>, b: Chains.Action)
    ensures b in NodeRun(run) <==> Node(b) in run
  {
    if run != [] {
      NodeSteps(run[..|run| - 1], b);
      assert run == run[..|run| - 1] + [run[|run| - 1]];
    }
  }

  /** What the steps of a chain tell about its state. */
  ghost predicate Explained(run: seq<Chains.Action>, c: Chains.Chain) {
    && (c.mapped == Some(0) <==> Chains.MapDone(0) in run)
    && (c.started <==> c.mapped == Some(0) && Chains.Copy(Chains.Fine) in run)
    && (c.submitted <==> c.mapped == Some(0)
                         && (Chains.Copy(Chains.Fine) in run || Chains.Copy(Chains.TransferFails) in run))
    && (c.mapped.None? ==> forall b :: b in run ==> !b.MapDone? && !b.Copy?)
    && (!c.executed ==> !c.started && !c.submitted && forall b :: b in run ==> !b.Copy?)
  }

  lemma ChainExplained(k: Kind, event: bool, run: seq<Chains.Action>)
    requires Chains.Exec(k, event, run).Some? && !Chains.Synchronizes(k)
    ensures Explained(run, Chains.Exec(k, event, run).value)
  {
    Chains.CopyIsReported(k, event, run);
    Chains.RunOrdered(k, event, run);
  }

  /** Nothing is left to do on either side, except that the connection might be lost. */
  predicate Over(k: Kind, w: World) {
    && Chains.Quiet(k, w.chain)
    && w.host.told == |w.chain.sent| && w.host.storing.None?
    && !(w.host.receiving && w.chain.started)
  }

  // ---- commands that the host finishes ----

  ghost predicate ByReceipt(w: World) {
    var c, h := w.chain, w.host;
    && c.todo == Chains.Todo(false, false)
    && c.sent == (if c.submitted then [Chains.SUBMITTED] else [])
    && (c.started ==> c.submitted) && (c.submitted ==> c.executed)
    && h.told <= |c.sent|
    && (h.told == 0 ==> h == Host(QUEUED, 0, None, false, None))
    && (h.told > 0 ==> (h.receiving <==> h.got.None?) && (h.storing.None? || h.storing == Some(RUNNING)))
    && (h.got.Some? ==> h.status == h.got.value <= 0 && (h.got == Some(0) ==> c.started))
    && (h.told > 0 && h.got.None? ==> h.status == if h.storing.Some? then QUEUED else RUNNING)
  }

  lemma ByReceiptStep(k: Kind, w: World, a: Action)
    requires ByReceipt(w) && Enabled(k, w, a) && Chains.FinishedByHost(k)
    ensures ByReceipt(Next(k, w, a))
  {
  }

  lemma {:induction false} RunByReceipt(k: Kind, event: bool, run: seq<Action>)
    requires Exec(k, event, run).Some? && Chains.FinishedByHost(k)
    ensures ByReceipt(Exec(k, event, run).value)
  {
    if run != [] {
      RunByReceipt(k, event, run[..|run| - 1]);
      hide ByReceipt, Enabled, Next;
      ByReceiptStep(k, Exec(k, event, run[..|run| - 1]).value, run[|run| - 1]);
    }
  }

  lemma {:induction false} GotIsReceived(k: Kind, event: bool, run: seq<Action>, status: int)
    requires Exec(k, event, run).Some? && Chains.FinishedByHost(k)
    ensures Received(status) in run <==> Exec(k, event, run).value.host.got == Some(status)
  {
    if run != [] {
      var before, a := run[..|run| - 1], run[|run| - 1];
      GotIsReceived(k, event, before, status);
      RunByReceipt(k, event, before);
      hide ByReceipt, Enabled, Next;
      GotStep(k, Exec(k, event, before).value, a, status);
      assert run == before + [a];
    }
  }

  lemma GotStep(k: Kind, w: World, a: Action, status: int)
    requires ByReceipt(w) && Enabled(k, w, a) && Chains.FinishedByHost(k)
    ensures Next(k, w, a).host.got == Some(status) <==> w.host.got == Some(status) || a == Received(status)
  {
    hide Chains.Next, Chains.Enabled;
  }

  /** The map succeeded and the node's message went out. */
  ghost predicate Submits(run: seq<Action>) {
    && Node(Chains.MapDone(0)) in run
    && (Node(Chains.Copy(Chains.Fine)) in run || Node(Chains.Copy(Chains.TransferFails)) in run)
  }

  /** The node sent the data. */
  ghost predicate Sends(run: seq<Action>) {
    Node(Chains.MapDone(0)) in run && Node(Chains.Copy(Chains.Fine)) in run
  }

  ghost predicate Loses(run: seq<Action>) {
    exists status :: status < 0 && Received(status) in run
  }

  lemma Said(k: Kind, event: bool, run: seq<Action>)
    requires Exec(k, event, run).Some? && !Chains.Synchronizes(k)
    ensures var c := Exec(k, event, run).value.chain; (c.submitted <==> Submits(run)) && (c.started <==> Sends(run))
  {
    hide Exec, Chains.Exec;
    NodePart(k, event, run);
    ChainExplained(k, event, NodeRun(run));
    NodeSteps(run, Chains.MapDone(0));
    NodeSteps(run, Chains.Copy(Chains.Fine));
    NodeSteps(run, Chains.Copy(Chains.TransferFails));
  }

  /** A read or a map for reading ends on the host only with its receipt, and succeeds only if the node sent
      the data. Once nothing is left to do, it has ended if and only if the map succeeded, the node's message
      went out, and either the data was sent or the connection was lost. Otherwise it stays as it is, queued
      if the map or the message failed and running if the node could not start its transfer. */
  lemma ReceiptDecides(k: Kind, event: bool, run: seq<Action>)
    requires Exec(k, event, run).Some? && Chains.FinishedByHost(k)
    ensures var w := Exec(k, event, run).value;
            && (w.host.status <= 0 ==> Received(w.host.status) in run && Submits(run))
            && (w.host.status == 0 ==> Sends(run))
            && (Over(k, w) ==> (w.host.status <= 0 <==> Submits(run) && (Sends(run) || Loses(run))))
            && (Over(k, w) && w.host.status > 0 ==> w.host.status == if Submits(run) then RUNNING else QUEUED)
  {
    var w := Exec(k, event, run).value;
    RunByReceipt(k, event, run);
    Said(k, event, run);
    hide Exec, Submits, Sends;
    forall status ensures Received(status) in run <==> w.host.got == Some(status) {
      GotIsReceived(k, event, run, status);
    }
  }

  lemma Append(k: Kind, run: seq<Action>, w: World, a: Action) returns (longer: seq<Action>, v: World)
    requires Exec(k, true, run) == Some(w) && Enabled(k, w, a)
    ensures longer == run + [a] && v == Next(k, w, a) && Exec(k, true, longer) == Some(v)
  {
    hide Enabled, Next;
    longer, v := run + [a], Next(k, w, a);
    assert longer[..|longer| - 1] == run;
  }

  /** After a failed map the run is over and the host's command is still queued. */
  lemma FailedMapNeverEnds(k: Kind) returns (run: seq<Action>, w: World)
    requires Chains.FinishedByHost(k)
    ensures Exec(k, true, run) == Some(w) && Over(k, w) && w.host.status == QUEUED
    ensures forall a :: !Enabled(k, w, a)
  {
    run, w := [], Start(k, true);
    assert Exec(k, true, run) == Some(w);
    hide Exec;
    run, w := Append(k, run, w, Node(Chains.MapDone(-5)));
    run, w := Append(k, run, w, Node(Chains.Copy(Chains.Fine)));
    run, w := Append(k, run, w, Node(Chains.LastDone(-5)));
    run, w := Append(k, run, w, Node(Chains.Built));
  }

  /** After a failed start of the transfer the host waits for data that nobody sends. */
  lemma FailedStartNeverEnds(k: Kind) returns (run: seq<Action>, w: World)
    requires Chains.FinishedByHost(k)
    ensures Exec(k, true, run) == Some(w) && Over(k, w) && w.host.status == RUNNING
    ensures forall a :: Enabled(k, w, a) ==> a.Received? && a.status < 0
  {
    run, w := [], Start(k, true);
    assert Exec(k, true, run) == Some(w);
    hide Exec;
    run, w := Append(k, run, w, Node(Chains.MapDone(0)));
    run, w := Append(k, run, w, Node(Chains.Copy(Chains.TransferFails)));
    run, w := Append(k, run, w, Node(Chains.LastDone(Chains.IO_ERROR)));
    run, w := Append(k, run, w, Node(Chains.Built));
    run, w := Append(k, run, w, Told);
    run, w := Append(k, run, w, Store);
  }

  // ---- commands that the node finishes ----

  /** The status, or the one about to be stored if that is lower. */
  function Pending(h: Host): int {
    if h.storing.Some? then Min(h.status, h.storing.value) else h.status
  }

  ghost predicate ByNotice(w: World) {
    var c, h := w.chain, w.host;
    && h.told <= |c.sent| && !h.receiving
    && (c.last.Some? ==> c.last.value <= 0)
    && (forall m :: m in c.sent ==> m == Chains.SUBMITTED || c.last == Some(m))
    && (Pending(h) <= 0 ==> c.last == Some(Pending(h)))
    && (Pending(h) <= 0 <==> c.last.Some? && c.last.value in c.sent[..h.told])
  }

  lemma ByNoticeHost(k: Kind, w: World, a: Action)
    requires ByNotice(w) && Enabled(k, w, a) && !a.Node? && !Chains.FinishedByHost(k)
    ensures ByNotice(Next(k, w, a))
  {
    if a.Told? {
      var n := w.host.told;
      assert w.chain.sent[..n + 1] == w.chain.sent[..n] + [w.chain.sent[n]];
      assert w.chain.sent[n] in w.chain.sent;
    }
  }

  lemma ByNoticeNode(k: Kind, w: World, b: Chains.Action)
    requires ByNotice(w) && Chains.Enabled(k, w.chain, b)
    ensures ByNotice(Next(k, w, Node(b)))
  {
    var d := Chains.Next(k, w.chain, b);
    assert w.chain.sent <= d.sent;
    assert d.sent[..w.host.told] == w.chain.sent[..w.host.told];
    assert forall m :: m in w.chain.sent[..w.host.told] ==> m in w.chain.sent;
  }

  lemma {:induction false} RunByNotice(k: Kind, event: bool, run: seq<Action>)
    requires Exec(k, event, run).Some? && !Chains.FinishedByHost(k)
    ensures ByNotice(Exec(k, event, run).value)
  {
    if run != [] {
      RunByNotice(k, event, run[..|run| - 1]);
      hide ByNotice, Enabled, Next;
      var w, a := Exec(k, event, run[..|run| - 1]).value, run[|run| - 1];
      if a.Node? {
        NodeEnabled(k, w, a.a);
        ByNoticeNode(k, w, a.a);
      } else {
        ByNoticeHost(k, w, a);
      }
    }
  }

  lemma NodeEnabled(k: Kind, w: World, b: Chains.Action)
    ensures Enabled(k, w, Node(b)) <==> Chains.Enabled(k, w.chain, b)
  {
  }

  /** Any other command of the host ends if and only if a notice of the node went out, with the status of the
      node's last event. Without failing notices it always ends. */
  lemma NoticeDecides(k: Kind, event: bool, run: seq<Action>)
    requires Exec(k, event, run).Some? && !Chains.FinishedByHost(k) && Over(k, Exec(k, event, run).value)
    ensures var w := Exec(k, event, run).value;
            && (w.host.status <= 0 <==> w.chain.last.value in w.chain.sent)
            && (w.host.status <= 0 ==> w.host.status == w.chain.last.value)
            && (Chains.NoSendFails(NodeRun(run)) && Chains.Expected(k, event) == 1
                ==> w.host.status == w.chain.last.value)
  {
    var w := Exec(k, event, run).value;
    RunByNotice(k, event, run);
    hide Exec, Chains.Exec;
    assert w.chain.sent[..w.host.told] == w.chain.sent;
    if Chains.NoSendFails(NodeRun(run)) && Chains.Expected(k, event) == 1 {
      NodePart(k, event, run);
      Chains.OneNotice(k, event, NodeRun(run));
      var n := 1 + if w.chain.early then 1 else 0;
      assert w.chain.last.value in Chains.Repeat(w.chain.last.value, n);
    }
  }

  // ---- node and host come to an end ----

  function Rank(w: World): nat
    requires w.host.told <= |w.chain.sent|
  {
    4 * Chains.Rank(w.chain) + 3 * (|w.chain.sent| - w.host.told)
    + (if w.host.storing.Some? then 1 else 0) + (if w.host.receiving then 1 else 0)
  }

  lemma RankFalls(k: Kind, w: World, a: Action)
    requires w.host.told <= |w.chain.sent| && Enabled(k, w, a)
    ensures var v := Next(k, w, a); v.host.told <= |v.chain.sent| && Rank(v) < Rank(w)
  {
    if a.Node? {
      hide Chains.Rank;
      Chains.RankFalls(k, w.chain, a.a);
      OneMessage(k, w.chain, a.a);
      hide Chains.Next, Chains.Enabled;
    }
  }

  lemma OneMessage(k: Kind, c: Chains.Chain, b: Chains.Action)
    requires Chains.Enabled(k, c, b)
    ensures |c.sent| <= |Chains.Next(k, c, b).sent| <= |c.sent| + 1
  {
  }

  /** Every run ends, after at most 28 steps, and it is not stuck before nothing is left to do. */
  lemma {:induction false} ComesToAnEnd(k: Kind, event: bool, run: seq<Action>)
    requires Exec(k, event, run).Some?
    ensures var w := Exec(k, event, run).value;
            && w.host.told <= |w.chain.sent| && |run| + Rank(w) <= 28
            && (Over(k, w) || exists a :: Enabled(k, w, a) && (a.Received? ==> a.status == 0))
  {
    var w := Exec(k, event, run).value;
    if run != [] {
      hide Enabled, Next, Rank, Over;
      ComesToAnEnd(k, event, run[..|run| - 1]);
      RankFalls(k, Exec(k, event, run[..|run| - 1]).value, run[|run| - 1]);
    }
    NodePart(k, event, run);
    Chains.ComesToAnEnd(k, event, NodeRun(run));
    NotStuck(k, w);
  }

  lemma NotStuck(k: Kind, w: World)
    requires w.host.told <= |w.chain.sent|
    requires Chains.Quiet(k, w.chain) || exists b :: Chains.Enabled(k, w.chain, b)
    ensures Over(k, w) || exists a :: Enabled(k, w, a) && (a.Received? ==> a.status == 0)
  {
    if !Chains.Quiet(k, w.chain) {
      var b :| Chains.Enabled(k, w.chain, b);
      assert Enabled(k, w, Node(b));
    } else if !Over(k, w) {
      assert Enabled(k, w, Told) || Enabled(k, w, Store) || Enabled(k, w, Received(0));
    }
  }
}
