/**
 The tables of connected processes on a compute node, and the sessions of its daemon. Connections are
 approved and registered by one dispatcher thread, one after the other.
 */
module Connections {

  /** `others`: what connection listeners other than the daemon answer. */
  datatype Event =
    | HostConnects(pid: nat, others: seq<bool>)
    | NodeConnects(pid: nat, others: seq<bool>)
    | Disconnects(pid: nat)

  // ---- the tables as values ----

  datatype Tables = Tables(hosts: set<nat>, nodes: set<nat>)

  /** A process identifier must not be in use. The daemon accepts every host and no compute node. */
  function After(t: Tables, e: Event): Tables {
    match e
    case HostConnects(p, _) => if p in t.hosts + t.nodes then t else t.(hosts := t.hosts + {p})
    case NodeConnects(p, others) => if p in t.hosts + t.nodes || true !in others then t else t.(nodes := t.nodes + {p})
    case Disconnects(p) => Tables(t.hosts - {p}, t.nodes - {p})
  }

  function Final(events: seq<Event>): Tables {
    if events == [] then Tables({}, {}) else After(Final(events[..|events| - 1]), events[|events| - 1])
  }

  /** No process is both host and compute node. */
  lemma {:induction false} NeverBoth(events: seq<Event>)
    ensures Final(events).hosts !! Final(events).nodes
  {
    if events != [] {
      NeverBoth(events[..|events| - 1]);
    }
  }

  predicate DaemonOnly(events: seq<Event>) {
    forall i :: 0 <= i < |events| && !events[i].Disconnects? ==> events[i].others == []
  }

  /** A host has connected and has not disconnected since. */
  ghost predicate Present(events: seq<Event>, p: nat) {
    exists i: nat :: PresentAt(events, p, i)
  }

  predicate PresentAt(events: seq<Event>, p: nat, i: int) {
    0 <= i < |events| && events[i].HostConnects? && events[i].pid == p && Disconnects(p) !in events[i + 1..]
  }

  lemma PresentAtStep(events: seq<Event>, e: Event, p: nat, i: nat)
    ensures PresentAt(events + [e], p, i) <==>
              if i == |events| then e.HostConnects? && e.pid == p else PresentAt(events, p, i) && e != Disconnects(p)
  {
    var all := events + [e];
    if i < |events| {
      assert all[i] == events[i] && all[i + 1..] == events[i + 1..] + [e];
    } else if i == |events| {
      assert all[i] == e && all[i + 1..] == [];
    }
  }

  lemma PresentStep(events: seq<Event>, e: Event, p: nat)
    ensures Present(events + [e], p) <==> (e.HostConnects? && e.pid == p) || (Present(events, p) && e != Disconnects(p))
  {
    forall i: nat
      ensures PresentAt(events + [e], p, i) <==>
                if i == |events| then e.HostConnects? && e.pid == p else PresentAt(events, p, i) && e != Disconnects(p)
    {
      PresentAtStep(events, e, p, i);
    }
    assert !PresentAt(events, p, |events|);
    hide PresentAt;
    assert PresentAt(events + [e], p, |events|) <==> e.HostConnects? && e.pid == p;
  }

  /** With the daemon as the only listener, the registered hosts are exactly those that are present, and no
      compute node is ever registered. */
  lemma {:induction false} HostsArePresent(events: seq<Event>, p: nat)
    requires DaemonOnly(events)
    ensures (p in Final(events).hosts <==> Present(events, p)) && Final(events).nodes == {}
  {
    if events != [] {
      var front, e := events[..|events| - 1], events[|events| - 1];
      HostsArePresent(front, p);
      assert events == front + [e];
      PresentStep(front, e, p);
      hide Present;
      assert events[|events| - 1] == e;
    }
  }

  /** A connection that would be accepted if the identifier were not in use: any host's, and that of a compute
      node which a listener accepts. */
  predicate Acceptable(e: Event, p: nat) {
    match e
    case HostConnects(q, _) => q == p
    case NodeConnects(q, others) => q == p && true in others
    case Disconnects(_) => false
  }

  /** Before event `n` the process has disconnected after every acceptable connection. */
  predicate Gone(events: seq<Event>, p: nat, n: nat)
    requires n <= |events|
  {
    forall j :: 0 <= j < n && Acceptable(events[j], p) ==> Disconnects(p) in events[j + 1..n]
  }

  /** The connection that the process is registered with: the first acceptable one since it has disconnected. */
  predicate RegisteredAt(events: seq<Event>, p: nat, i: nat) {
    i < |events| && Acceptable(events[i], p) && Disconnects(p) !in events[i + 1..] && Gone(events, p, i)
  }

  ghost predicate RegisteredAs(events: seq<Event>, p: nat, host: bool) {
    exists i: nat :: RegisteredAt(events, p, i) && events[i].HostConnects? == host
  }

  lemma GoneSame(events: seq<Event>, e: Event, p: nat, n: nat)
    requires n <= |events|
    ensures Gone(events + [e], p, n) <==> Gone(events, p, n)
  {
    forall j | 0 <= j < n ensures (events + [e])[j] == events[j] && (events + [e])[j + 1..n] == events[j + 1..n] {
    }
  }

  lemma GoneStep(events: seq<Event>, e: Event, p: nat)
    ensures Gone(events + [e], p, |events| + 1) <==>
              !Acceptable(e, p) && (e == Disconnects(p) || Gone(events, p, |events|))
  {
    var all := events + [e];
    assert all[|events| + 1..|events| + 1] == [] && all[|events|] == e;
    forall j | 0 <= j < |events| ensures all[j] == events[j] && all[j + 1..|all|] == events[j + 1..|events|] + [e] {
    }
  }

  lemma RegisteredStep(events: seq<Event>, e: Event, p: nat, i: nat)
    ensures RegisteredAt(events + [e], p, i) <==>
              if i == |events| then Acceptable(e, p) && Gone(events, p, |events|)
              else RegisteredAt(events, p, i) && e != Disconnects(p)
  {
    var all := events + [e];
    if i < |events| {
      assert all[i] == events[i] && all[i + 1..] == events[i + 1..] + [e];
      GoneSame(events, e, p, i);
    } else if i == |events| {
      assert all[i] == e && all[i + 1..] == [];
      GoneSame(events, e, p, i);
    }
  }

  lemma RegisteredAsStep(events: seq<Event>, e: Event, p: nat, host: bool)
    ensures RegisteredAs(events + [e], p, host) <==>
              || (RegisteredAs(events, p, host) && e != Disconnects(p))
              || (Acceptable(e, p) && e.HostConnects? == host && Gone(events, p, |events|))
  {
    var all := events + [e];
    hide RegisteredAt, Acceptable, Gone;
    forall i: nat
      ensures RegisteredAt(all, p, i) <==>
                if i == |events| then Acceptable(e, p) && Gone(events, p, |events|)
                else RegisteredAt(events, p, i) && e != Disconnects(p)
    {
      RegisteredStep(events, e, p, i);
    }
    NeverLater(events, p);
    assert RegisteredAt(all, p, |events|) <==> Acceptable(e, p) && Gone(events, p, |events|);
    if i: nat :| RegisteredAt(events, p, i) && events[i].HostConnects? == host {
      assert all[i] == events[i];
    }
    if i: nat :| RegisteredAt(all, p, i) && all[i].HostConnects? == host {
      assert i < |events| ==> all[i] == events[i];
    }
  }

  lemma NeverLater(events: seq<Event>, p: nat)
    ensures forall i: nat :: RegisteredAt(events, p, i) ==> i < |events|
  {
  }

  /** Whatever the listeners answer: a process is registered as a host, or as a compute node, exactly if the first
      acceptable connection since it has disconnected is of that kind; and as nothing exactly if there is none. */
  lemma {:induction false} RegisteredIsExact(events: seq<Event>, p: nat)
    ensures p in Final(events).hosts <==> RegisteredAs(events, p, true)
    ensures p in Final(events).nodes <==> RegisteredAs(events, p, false)
    ensures Gone(events, p, |events|) <==> p !in Final(events).hosts + Final(events).nodes
  {
    if events != [] {
      var front, e := events[..|events| - 1], events[|events| - 1];
      RegisteredIsExact(front, p);
      assert events == front + [e];
      hide RegisteredAs, Gone;
      RegisteredAsStep(front, e, p, true);
      RegisteredAsStep(front, e, p, false);
      GoneStep(front, e, p);
      hide Final, Acceptable, After;
      FinalLast(events);
      AfterIs(Final(front), e, p);
    }
  }

  lemma AfterIs(t: Tables, e: Event, p: nat)
    ensures p in After(t, e).hosts <==>
              || (p in t.hosts && e != Disconnects(p))
              || (Acceptable(e, p) && e.HostConnects? && p !in t.hosts + t.nodes)
    ensures p in After(t, e).nodes <==>
              || (p in t.nodes && e != Disconnects(p))
              || (Acceptable(e, p) && !e.HostConnects? && p !in t.hosts + t.nodes)
  {
  }

  lemma FinalLast(events: seq<Event>)
    requires events != []
    ensures Final(events) == After(Final(events[..|events| - 1]), events[|events| - 1])
  {
  }

  // ---- the objects ----

  class HostImpl {
    const pid: nat
    constructor (pid: nat) ensures this.pid == pid { this.pid := pid; }
  }

  class ComputeNodeImpl {
    const pid: nat
    constructor (pid: nat) ensures this.pid == pid { this.pid := pid; }
  }

  class Session {
    constructor () {}
  }

  class Daemon {
    var sessions: map<HostImpl, Session>

    constructor ()
      ensures sessions == map[]
    {
      sessions := map[];
    }

    /** A new session for a host that has none. */
    method HostConnected(host: HostImpl) returns (accepted: bool)
      modifies this
      ensures accepted && sessions.Keys == old(sessions.Keys) + {host}
      ensures forall h :: h in old(sessions) ==> sessions[h] == old(sessions)[h]
      ensures host !in old(sessions) ==> fresh(sessions[host])
    {
      accepted := true;
      if host !in sessions {
        var session := new Session();
        sessions := sessions[host := session];
      }
    }

    method NodeConnected(node: ComputeNodeImpl) returns (accepted: bool)
      ensures !accepted
    {
      accepted := false;
    }

    method HostDisconnected(host: HostImpl)
      modifies this
      ensures sessions == old(sessions) - {host}
    {
      sessions := sessions - {host};
    }
  }

  /** Asks all listeners, also when one has already accepted. */
  method AskOthers(accepted: bool, others: seq<bool>) returns (r: bool, asked: nat)
    ensures r == (accepted || true in others) && asked == |others|
  {
    r, asked := accepted, 0;
    while asked < |others|
      invariant 0 <= asked <= |others| && r == (accepted || true in others[..asked])
    {
      assert others[..asked + 1] == others[..asked] + [others[asked]];
      r := others[asked] || r;
      asked := asked + 1;
    }
    assert others[..asked] == others;
  }

  class Manager {
    const daemon: Daemon
    var hosts: map<nat, HostImpl>
    var nodes: map<nat, ComputeNodeImpl>

    constructor ()
      ensures Valid() && State() == Tables({}, {}) && fresh(daemon)
    {
      daemon := new Daemon();
      hosts, nodes := map[], map[];
    }

    function State(): Tables
      reads this
    {
      Tables(hosts.Keys, nodes.Keys)
    }

    /** Every table entry is under its own identifier, and the daemon holds a session for exactly the
        registered hosts. */
    ghost predicate Valid()
      reads this, daemon
    {
      && hosts.Keys !! nodes.Keys
      && (forall p :: p in hosts ==> hosts[p].pid == p) && (forall p :: p in nodes ==> nodes[p].pid == p)
      && daemon.sessions.Keys == Hosts()
    }

    ghost function Hosts(): set<HostImpl>
      reads this
    {
      set p | p in hosts :: hosts[p]
    }

    predicate ApproveMessageQueue(pid: nat)
      reads this
    {
      pid !in hosts && pid !in nodes
    }

    method Handle(e: Event)
      requires Valid()
      modifies this, daemon
      ensures Valid() && State() == After(old(State()), e)
      ensures forall p :: p in hosts && p in old(hosts) ==> hosts[p] == old(hosts)[p]
      ensures forall h ::
                h in daemon.sessions && h in old(daemon.sessions) ==> daemon.sessions[h] == old(daemon.sessions)[h]
    {
      match e
      case HostConnects(pid, others) =>
        if ApproveMessageQueue(pid) {
          HostConnected(pid, others);
        }
      case NodeConnects(pid, others) =>
        if ApproveMessageQueue(pid) {
          NodeConnected(pid, others);
        }
      case Disconnects(pid) =>
        Disconnected(pid);
    }

    method HostConnected(pid: nat, others: seq<bool>)
      requires Valid() && ApproveMessageQueue(pid)
      modifies this`hosts, daemon
      ensures Valid() && hosts.Keys == old(hosts.Keys) + {pid} && fresh(hosts[pid])
      ensures forall p :: p in old(hosts) ==> hosts[p] == old(hosts)[p]
      ensures forall h ::
                h in old(daemon.sessions) ==> h in daemon.sessions && daemon.sessions[h] == old(daemon.sessions)[h]
    {
      ghost var before := Hosts();
      var host := new HostImpl(pid);
      var accepted := daemon.HostConnected(host);
      var asked;
      accepted, asked := AskOthers(accepted, others);
      if accepted {
        hosts := hosts[pid := host];
      }
      assert Hosts() == before + {host} by {
        assert hosts[pid] == host;
        assert forall p :: p in old(hosts) ==> hosts[p] == old(hosts)[p];
      }
    }

    method NodeConnected(pid: nat, others: seq<bool>)
      requires Valid() && ApproveMessageQueue(pid)
      modifies this`nodes
      ensures Valid() && nodes.Keys == old(nodes.Keys) + if true in others then {pid} else {}
    {
      var node := new ComputeNodeImpl(pid);
      var accepted := daemon.NodeConnected(node);
      var asked;
      accepted, asked := AskOthers(accepted, others);
      if accepted {
        nodes := nodes[pid := node];
      }
    }

    /** The session goes with the host. */
    method Disconnected(pid: nat)
      requires Valid()
      modifies this, daemon
      ensures Valid() && hosts == old(hosts) - {pid} && nodes == old(nodes) - {pid}
      ensures forall h ::
                h in daemon.sessions ==> h in old(daemon.sessions) && daemon.sessions[h] == old(daemon.sessions)[h]
    {
      ghost var before, table := Hosts(), hosts;
      if pid in hosts {
        daemon.HostDisconnected(hosts[pid]);
      }
      hosts, nodes := hosts - {pid}, nodes - {pid};
      assert Hosts() == if pid in table then before - {table[pid]} else before by {
        assert forall p :: p in table && p != pid ==> hosts[p] == table[p];
      }
    }

    /** Any run of connections and disconnections. */
    method Run(events: seq<Event>)
      requires Valid() && State() == Tables({}, {})
      modifies this, daemon
      ensures Valid() && State() == Final(events)
    {
      var i := 0;
      while i < |events|
        invariant 0 <= i <= |events| && Valid() && State() == Final(events[..i])
      {
        assert events[..i + 1][..i] == events[..i];
        Handle(events[i]);
        i := i + 1;
      }
      assert events[..i] == events;
    }
  }
}
