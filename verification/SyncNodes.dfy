/**
 Several waiting nodes. Each has its own queues and its own streams; the owners and the host are common to all,
 and the host has one copy of each buffer. A step of this protocol is a step of the protocol of one waiting node,
 taken on that node's view of the whole. What is forwarded to the nodes is what was received for them if and
 only if no two rounds, of whatever nodes, share an object, and nothing else writes to the objects of rounds.
 */
module SyncNodes {
  import opened Seqs
  import opened Links
  import opened SyncProtocol
  import opened SyncContents
  import opened SyncExact
  import opened SyncPhases
  import opened SyncLandings
  import opened SyncFailures

  /** `node[r]`: the node that waits for round `r`. */
  datatype Net = Net(cfg: Config, node: seq<nat>)

  /** `sends`, `w`: for each waiting node, all sends to it ever posted, and the node. */
  datatype World = World(
    o: map<nat, Owner>, h: HostState, sends: map<nat, seq<Send>>, w: map<nat, Waiter>,
    events: set<nat>, replicas: set<nat>, released: map<Label, Bytes>)

  function NodeOf(net: Net, r: nat): nat {
    if r < |net.node| then net.node[r] else 0
  }

  ghost function Nodes(net: Net): set<nat> {
    set r | 0 <= r < |net.node| :: net.node[r]
  }

  ghost predicate Well(net: Net) {
    WellFormed(net.cfg) && !net.cfg.apart && |net.node| == |net.cfg.rounds|
  }

  /** What one waiting node has to do with. */
  function View(s: World, k: nat): State
    requires k in s.sends && k in s.w
  {
    State(s.o, s.h.(sends := s.sends[k]), s.w[k], s.events, s.replicas, s.released)
  }

  function With(s: World, k: nat, t: State): World {
    World(t.o, t.h.(sends := []), s.sends[k := t.h.sends], s.w[k := t.w], t.events, t.replicas, t.released)
  }

  /** A node requests its own rounds, and receives are forwarded to the node of their round. */
  predicate Routed(net: Net, k: nat, a: Action, h: HostState) {
    match a
    case WSync(r) => NodeOf(net, r) == k
    case HSetCallback => h.posting.Some? ==> NodeOf(net, RoundOf(h.posting.value)) == k
    case HTrigger => h.trigger.Some? ==> NodeOf(net, RoundOf(h.trigger.value)) == k
    case _ => true
  }

  ghost predicate CanStep(net: Net, k: nat, a: Action, s: World) {
    k in s.sends && k in s.w && Enabled(net.cfg, a, View(s, k)) && Routed(net, k, a, s.h)
  }

  ghost function Step(net: Net, k: nat, a: Action, s: World): World
    requires CanStep(net, k, a, s)
  {
    With(s, k, Apply(net.cfg, a, View(s, k)))
  }

  ghost function Start(net: Net, mems: map<nat, map<Obj, Bytes>>, waiters: map<nat, map<Obj, Bytes>>): World {
    var s := Init(mems, map[]);
    World(s.o, s.h, map k | k in waiters :: [], map k | k in waiters :: Init(mems, waiters[k]).w, {}, {}, map[])
  }

  ghost function Run(net: Net, from: World, run: seq<(nat, Action)>): Option<World>
    decreases |run|
  {
    if run == [] then Some(from) else
    var s, a := Run(net, from, run[..|run| - 1]), run[|run| - 1];
    if s.Some? && CanStep(net, a.0, a.1, s.value) then Some(Step(net, a.0, a.1, s.value)) else None
  }

  /** A run from some memories of the owners and of the waiting nodes. */
  ghost predicate Comes(net: Net, run: seq<(nat, Action)>, s: World) {
    exists mems, waiters :: Memory(net.cfg, mems) && Run(net, Start(net, mems, waiters), run) == Some(s)
  }

  // ---- runs of one node are runs of all ----

  /** The label of a round of node `k`. */
  predicate Mine(net: Net, k: nat, l: Label) {
    l.Item? && NodeOf(net, l.round) == k
  }

  /** The host is busy with rounds of node `k` only. */
  predicate HostIsMine(net: Net, k: nat, h: HostState) {
    && (forall l :: l in h.loop ==> Mine(net, k, l))
    && (h.posting.Some? ==> Mine(net, k, h.posting.value)) && (h.trigger.Some? ==> Mine(net, k, h.trigger.value))
  }

  ghost predicate OwnersAreMine(net: Net, k: nat, o: map<nat, Owner>) {
    forall n, l :: n in o && l in Tail(o[n].link) && l.Item? ==> Mine(net, k, l)
  }

  predicate AskedAreMine(net: Net, k: nat, log: seq<nat>) {
    forall r :: r in log ==> NodeOf(net, r) == k
  }

  ghost predicate AllMine(net: Net, k: nat, s: State) {
    HostIsMine(net, k, s.h) && OwnersAreMine(net, k, s.o) && AskedAreMine(net, k, s.w.asked.log)
  }

  /** Steps that the host's copies have nothing to do with. */
  predicate FarFromHost(a: Action) {
    !a.HReceive? && !a.HSync? && !a.HPost? && !a.HSetCallback? && !a.HTrigger? && !a.HostStores? && !a.Allocates?
  }

  lemma SameHost(cfg: Config, a: Action, s: State)
    requires Enabled(cfg, a, s) && FarFromHost(a)
    ensures Apply(cfg, a, s).h == s.h.(sends := Apply(cfg, a, s).h.sends)
  {
    hide Received, Transmitted, Items, GetRound, Outgoing, MayRead, MayStart, Payload, PartOf, Patched;
  }

  lemma HostStaysMine(net: Net, k: nat, a: Action, s: State)
    requires AllMine(net, k, s) && Enabled(net.cfg, a, s)
    ensures HostIsMine(net, k, Apply(net.cfg, a, s).h)
  {
    if FarFromHost(a) {
      hide Enabled, Apply, Mine, OwnersAreMine, AskedAreMine;
      SameHost(net.cfg, a, s);
    } else if a.HSync? {
      ItemsOfRound(net.cfg, s.w.asked.log[s.w.asked.seen]);
      assert s.w.asked.log[s.w.asked.seen] in s.w.asked.log;
      hide Items;
    } else if a.HReceive? {
      var link := s.o[a.n].link;
      assert Tail(link)[0] == link.posted[|link.got|];
      hide OwnersAreMine;
    } else {
      hide OwnersAreMine, AskedAreMine, Mine, Items, GetRound;
    }
  }

  /** Only the host posts receives for rounds. */
  lemma TailFrom(cfg: Config, a: Action, s: State, n: nat, l: Label)
    requires Enabled(cfg, a, s) && n in Apply(cfg, a, s).o && l in Tail(Apply(cfg, a, s).o[n].link) && l.Item?
    ensures n in s.o && (l in Tail(s.o[n].link) || (s.h.loop != [] && l == s.h.loop[0] && a.HPost?))
  {
    if FarFromOwners(a) {
      hide Enabled, Apply, Tail;
      SameOwners(cfg, a, s);
    } else {
      StreamAfter(cfg, a, s, n);
      hide Enabled, Apply, Tail;
      var link, link' := s.o[n].link, Apply(cfg, a, s).o[n].link;
      GrownTail(link, link', l, if a.HPost? then s.h.loop[0] else if link'.posted == link.posted then l else a.tag);
    }
  }

  lemma StreamAfter(cfg: Config, a: Action, s: State, n: nat)
    requires Enabled(cfg, a, s) && n in Apply(cfg, a, s).o && !FarFromOwners(a)
    ensures n in s.o && (a.HPost? ==> s.h.loop != []) && |s.o[n].link.got| <= |Apply(cfg, a, s).o[n].link.got|
    ensures var posted, posted' := s.o[n].link.posted, Apply(cfg, a, s).o[n].link.posted;
            || posted' == posted
            || (a.HPost? && posted' == posted + [s.h.loop[0]])
            || ((a.ReadPost? || a.ReadPostAfter?) && a.tag.Other? && posted' == posted + [a.tag])
  {
    hide MayRead, Payload, Landed, Items;
  }

  lemma GrownTail(link: Link, link': Link, l: Label, x: Label)
    requires (link'.posted == link.posted || link'.posted == link.posted + [x]) && |link.got| <= |link'.got|
    requires l in Tail(link')
    ensures l in Tail(link) || (l == x && link'.posted != link.posted)
  {
    var i :| 0 <= i < |Tail(link')| && Tail(link')[i] == l;
    assert link'.posted[|link'.got| + i] == l;
    if |link'.got| + i < |link.posted| {
      assert Tail(link)[|link'.got| + i - |link.got|] == l;
    }
  }

  lemma StaysMine(net: Net, k: nat, a: Action, s: State)
    requires AllMine(net, k, s) && Enabled(net.cfg, a, s)
    requires AskedAreMine(net, k, Apply(net.cfg, a, s).w.asked.log)
    ensures AllMine(net, k, Apply(net.cfg, a, s)) && Routed(net, k, a, s.h)
  {
    HostStaysMine(net, k, a, s);
    var t := Apply(net.cfg, a, s);
    if a.WSync? {
      assert t.w.asked.log[|s.w.asked.log|] == a.r;
    }
    hide Enabled, Apply;
    forall n, l | n in t.o && l in Tail(t.o[n].link) && l.Item? ensures Mine(net, k, l) {
      TailFrom(net.cfg, a, s, n, l);
    }
  }

  function Lifted(k: nat, run: seq<Action>): (steps: seq<(nat, Action)>)
    ensures |steps| == |run|
  {
    seq(|run|, i requires 0 <= i < |run| => (k, run[i]))
  }

  lemma AskedGrows(cfg: Config, a: Action, s: State)
    requires Enabled(cfg, a, s)
    ensures var log, log' := s.w.asked.log, Apply(cfg, a, s).w.asked.log;
            log <= log' && (log' == log || (a.WSync? && log' == log + [a.r]))
  {
    if a.WSync? {
      hide MayStart, Items;
    } else {
      hide Enabled, Apply;
      SameAsked(cfg, a, s);
    }
  }

  lemma SameAsked(cfg: Config, a: Action, s: State)
    requires Enabled(cfg, a, s) && !a.WSync?
    ensures Apply(cfg, a, s).w.asked.log == s.w.asked.log
  {
    if OfWaiter(a) {
      hide Received, Overlay, CanReceive, Head, Unmapped, Enqueued, Posted, LaneOf;
    } else {
      hide Enabled, Received, Landed, Transmitted, Outgoing, WaiterReceived, Items, GetRound;
    }
  }

  /** A run of one node that requests its own rounds only, while the host is busy with no others, is a run. */
  lemma {:induction false} Lifts(net: Net, s: World, k: nat, run: seq<Action>, t: State)
    requires k in s.sends && k in s.w && s.h.sends == [] && AllMine(net, k, View(s, k))
    requires Leads(net.cfg, View(s, k), run, t) && AskedAreMine(net, k, t.w.asked.log)
    ensures Run(net, s, Lifted(k, run)) == Some(With(s, k, t)) && AllMine(net, k, t)
    decreases |run|
  {
    if run == [] {
      assert s.sends[k := s.sends[k]] == s.sends && s.w[k := s.w[k]] == s.w;
    } else {
      hide Enabled, Apply, AllMine, Routed;
      var front, a := run[..|run| - 1], run[|run| - 1];
      var u := Exec(net.cfg, View(s, k), front).value;
      AskedGrows(net.cfg, a, u);
      Lifts(net, s, k, front, u);
      StaysMine(net, k, a, u);
      OneLifted(net, s, k, u, a);
      assert Lifted(k, run)[..|run| - 1] == Lifted(k, front);
    }
  }

  lemma OneLifted(net: Net, s: World, k: nat, u: State, a: Action)
    requires k in s.sends && k in s.w && Enabled(net.cfg, a, u) && Routed(net, k, a, u.h)
    ensures CanStep(net, k, a, With(s, k, u)) && Step(net, k, a, With(s, k, u)) == With(s, k, Apply(net.cfg, a, u))
  {
    hide Enabled, Apply;
    var w := With(s, k, u);
    assert View(w, k) == u;
    var t := Apply(net.cfg, a, u);
    assert s.sends[k := u.h.sends][k := t.h.sends] == s.sends[k := t.h.sends];
    assert s.w[k := u.w][k := t.w] == s.w[k := t.w];
  }

  lemma {:induction false} RunOn(net: Net, s: World, run: seq<(nat, Action)>, t: World, more: seq<(nat, Action)>)
    requires Run(net, s, run) == Some(t)
    ensures Run(net, s, run + more) == Run(net, t, more)
    decreases |more|
  {
    if more == [] {
      assert run + more == run;
    } else {
      hide CanStep, Step;
      RunOn(net, s, run, t, more[..|more| - 1]);
      assert (run + more)[..|run + more| - 1] == run + more[..|more| - 1];
    }
  }

  // ---- two rounds on one object ----

  /** Nothing has happened yet, and all objects are full of zeros on their owners. */
  ghost function Blanks(net: Net): World {
    Start(net, Zeros(net.cfg), map k | k in Nodes(net) :: map[])
  }

  lemma BlanksCome(net: Net, run: seq<(nat, Action)>, s: World)
    requires Run(net, Blanks(net), run) == Some(s)
    ensures Comes(net, run, s)
  {
    hide Run, Start;
    var waiters := map k | k in Nodes(net) :: map[];
    assert Memory(net.cfg, Zeros(net.cfg)) && Run(net, Start(net, Zeros(net.cfg), waiters), run) == Some(s);
  }

  lemma BlanksAre(net: Net, k: nat)
    requires k in Nodes(net)
    ensures k in Blanks(net).sends && k in Blanks(net).w && View(Blanks(net), k) == Blank(net.cfg)
    ensures Blanks(net).h.sends == [] && AllMine(net, k, Blank(net.cfg))
  {
  }

  lemma IsNode(net: Net, r: nat)
    requires r < |net.node|
    ensures NodeOf(net, r) in Nodes(net)
  {
  }

  /** Nothing under way is anybody's. */
  lemma RestIsMine(net: Net, k: nat, s: State)
    requires HostRests(s.h) && (forall n :: n in s.o ==> Rested(s.o[n])) && AskedAreMine(net, k, s.w.asked.log)
    ensures AllMine(net, k, s)
  {
    forall n | n in s.o ensures Tail(s.o[n].link) == [] {
      assert Rested(s.o[n]);
    }
  }

  /** The first round lands. */
  lemma FirstLands(net: Net, a: nat) returns (run: seq<(nat, Action)>, u: State)
    requires Well(net) && a < |net.node|
    ensures Run(net, Blanks(net), run) == Some(With(Blanks(net), NodeOf(net, a), u)) && OnlyLanded(net.cfg, u, a)
  {
    hide Leads, OnlyLanded, AllMine, Run, Blanks, ToForward;
    IsNode(net, a);
    BlanksAre(net, NodeOf(net, a));
    var steps: seq<Action>;
    steps, u := OneLanded(net.cfg, a);
    OnlyAsked(net.cfg, u, a);
    Lifts(net, Blanks(net), NodeOf(net, a), steps, u);
    run := Lifted(NodeOf(net, a), steps);
  }

  lemma OnlyAsked(cfg: Config, u: State, a: nat)
    requires OnlyLanded(cfg, u, a)
    ensures u.w.asked.log == [a]
  {
  }

  lemma BlankAsks(cfg: Config)
    ensures Blank(cfg).w.asked == Mail([], 0) && Blank(cfg).w.loop == []
  {
  }

  /** Then the second one can be requested, from the same node or from another one. */
  lemma SecondMayLand(net: Net, a: nat, b: nat, u: State)
    requires Well(net) && a < |net.node| && b < |net.node| && a != b && OnlyLanded(net.cfg, u, a)
    ensures var s, k := With(Blanks(net), NodeOf(net, a), u), NodeOf(net, b);
            && k in s.sends && k in s.w && MayLand(net.cfg, View(s, k), b) && AllMine(net, k, View(s, k))
            && AskedAreMine(net, k, View(s, k).w.asked.log)
  {
    IsNode(net, b);
    BlanksAre(net, NodeOf(net, b));
    OwnerIsThere(net.cfg, b);
    var s, k := With(Blanks(net), NodeOf(net, a), u), NodeOf(net, b);
    hide ToForward, Blank, Blanks, Owners, Rested, AllMine;
    assert Blank(net.cfg).w.asked == Mail([], 0) && Blank(net.cfg).w.loop == [] by {
      BlankAsks(net.cfg);
    }
    RestIsMine(net, k, View(s, k));
  }

  /** The second round overwrites the common objects of the first one, which is still to be forwarded. */
  lemma SecondOverwrites(net: Net, a: nat, b: nat, s: World, t: State)
    requires var k, n := NodeOf(net, a), NodeOf(net, b);
             && k in s.sends && k in s.w && n in s.sends && n in s.w && a != b
             && ToForward(net.cfg, View(s, k), a) && RoundHasLanded(net.cfg, View(s, n), t, b, 1)
    ensures var k, n := NodeOf(net, a), NodeOf(net, b);
            ToForward(net.cfg, View(With(s, n, t), k), a)
    ensures forall l :: l in Items(net.cfg, AtHost, a) && Concerns(Items(net.cfg, AtHost, b), ObjectOf(l)) ==>
              FullCopy(net.cfg, View(With(s, NodeOf(net, b), t), NodeOf(net, a)).h, l)
  {
    var k, n := NodeOf(net, a), NodeOf(net, b);
    if k == n {
      SecondHasLanded(net.cfg, View(s, k), t, a, b);
      assert View(With(s, n, t), k) == t;
    } else {
      SecondCopies(net.cfg, View(s, n).h, t.h, a, b);
      ItemsOfRound(net.cfg, a);
      ItemsOfRound(net.cfg, b);
      hide HostHas, Items, GetRound, List, LaneOf, Concerns;
    }
  }

  /** What the host received for the first round is still known. */
  lemma StillLanded(cfg: Config, s: State, t: State, a: nat, b: nat)
    requires a != b && RoundHasLanded(cfg, s, t, b, 1)
    requires forall l :: l in Items(cfg, AtHost, a) ==>
               l in s.h.landed && s.h.landed[l] == Fill(cfg.size(ObjectOf(l)), 0)
    ensures forall l :: l in Items(cfg, AtHost, a) ==>
              l in t.h.landed && t.h.landed[l] == Fill(cfg.size(ObjectOf(l)), 0)
  {
    ItemsOfRound(cfg, a);
    ItemsOfRound(cfg, b);
    hide Items, Concerns;
  }

  lemma BothLand(net: Net, a: nat, b: nat) returns (run: seq<(nat, Action)>, s: World)
    requires Well(net) && a < |net.node| && b < |net.node| && a != b
    ensures Run(net, Blanks(net), run) == Some(s) && s.h.sends == []
    ensures var k := NodeOf(net, a);
            && k in s.sends && k in s.w && ToForward(net.cfg, View(s, k), a) && AllMine(net, k, View(s, k))
    ensures forall l :: l in Items(net.cfg, AtHost, a) && Concerns(Items(net.cfg, AtHost, b), ObjectOf(l)) ==>
              FullCopy(net.cfg, View(s, NodeOf(net, a)).h, l)
    ensures forall l :: l in Items(net.cfg, AtHost, a) ==>
              l in s.h.landed && s.h.landed[l] == Fill(net.cfg.size(ObjectOf(l)), 0)
  {
    hide Leads, AllMine, Run, Blanks, ToForward, Concerns, FullCopy, Items, RoundHasLanded, MayLand, WellFormed,
      OnlyLanded;
    var k, n := NodeOf(net, a), NodeOf(net, b);
    var u: State;
    run, u := FirstLands(net, a);
    SecondMayLand(net, a, b, u);
    var w := With(Blanks(net), k, u);
    Begin(net.cfg, View(w, n));
    var steps, t := LandsWritten(net.cfg, View(w, n), [], View(w, n), b);
    SecondAsked(net, View(w, n), t, b);
    Lifts(net, w, n, steps, t);
    s := With(w, n, t);
    RunOn(net, Blanks(net), run, w, Lifted(n, steps));
    run := run + Lifted(n, steps);
    FirstForwards(net, u, a);
    SecondOverwrites(net, a, b, w, t);
    StillLanded(net.cfg, View(w, n), t, a, b);
    AfterBoth(net, a, b, u, t);
  }

  lemma SecondAsked(net: Net, s: State, t: State, b: nat)
    requires RoundHasLanded(net.cfg, s, t, b, 1) && AskedAreMine(net, NodeOf(net, b), s.w.asked.log)
    ensures AskedAreMine(net, NodeOf(net, b), t.w.asked.log)
  {
  }

  lemma FirstForwards(net: Net, u: State, a: nat)
    requires OnlyLanded(net.cfg, u, a) && a < |net.node|
    ensures var s, k := With(Blanks(net), NodeOf(net, a), u), NodeOf(net, a);
            && k in s.sends && k in s.w && ToForward(net.cfg, View(s, k), a) && HostRests(s.h)
            && View(s, k) == u
    ensures forall l :: l in Items(net.cfg, AtHost, a) ==>
              l in u.h.landed && u.h.landed[l] == Fill(net.cfg.size(ObjectOf(l)), 0)
  {
  }

  lemma AfterBoth(net: Net, a: nat, b: nat, u: State, t: State)
    requires Well(net) && a < |net.node| && b < |net.node| && a != b && OnlyLanded(net.cfg, u, a)
    requires var w, n := With(Blanks(net), NodeOf(net, a), u), NodeOf(net, b);
             n in w.sends && n in w.w && RoundHasLanded(net.cfg, View(w, n), t, b, 1)
    ensures var w, k, n := With(Blanks(net), NodeOf(net, a), u), NodeOf(net, a), NodeOf(net, b);
            AllMine(net, k, View(With(w, n, t), k))
  {
    hide ToForward, Items, Owners, Rested;
    var w, k, n := With(Blanks(net), NodeOf(net, a), u), NodeOf(net, a), NodeOf(net, b);
    RestIsMine(net, k, View(With(w, n, t), k));
  }

  /** Two rounds on one object, of the same node or of two: some run acquires for the first one what was not
      released for it. */
  lemma CommonObjectGoesWrong(net: Net, a: nat, b: nat) returns (run: seq<(nat, Action)>, s: World, c: Chunk)
    requires Well(net) && a < |net.node| && b < |net.node| && a != b
    requires !(Set(List(net.cfg, AtHost, a)) !! Set(List(net.cfg, AtHost, b)))
    ensures var k := NodeOf(net, a);
            Comes(net, run, s) && k in s.sends && k in s.w && c in s.w[k].installed && !Right(View(s, k), c)
  {
    hide Leads, AllMine, Run, Blanks, ToForward, Concerns, FullCopy, Items, List, WellFormed, Right;
    var w: World;
    run, w := BothLand(net, a, b);
    var k := NodeOf(net, a);
    var l := CommonObject(net.cfg, a, b);
    Begin(net.cfg, View(w, k));
    var steps, t, d := CopyGoesWrong(net.cfg, View(w, k), [], View(w, k), a, l);
    AskedMine(net, k, View(w, k));
    Lifts(net, w, k, steps, t);
    RunOn(net, Blanks(net), run, w, Lifted(k, steps));
    run, s, c := run + Lifted(k, steps), With(w, k, t), d;
    assert View(s, k) == t;
    BlanksCome(net, run, s);
  }

  lemma AskedMine(net: Net, k: nat, s: State)
    requires AllMine(net, k, s)
    ensures AskedAreMine(net, k, s.w.asked.log)
  {
  }

  // ---- what is forwarded ----

  /** The host's copy of an object is what it received for `l`. */
  predicate Own(h: HostState, l: Label) {
    l.Item? && l in h.landed && l.obj in h.cache && h.cache[l.obj] == h.landed[l]
  }

  /** Every send that is posted and not written yet would be written with the bytes received for it. */
  ghost predicate ForwardsOwn(s: World) {
    forall k, i :: k in s.sends && k in s.w && |s.w[k].link.sent| <= i < |s.sends[k]| && s.sends[k][i].Cached? ==>
      Own(s.h, s.sends[k][i].tag)
  }

  ghost predicate AlwaysForwardsOwn(net: Net) {
    forall run, s :: Comes(net, run, s) ==> ForwardsOwn(s)
  }

  /** No two rounds share an object of the host, and nothing else writes to one. */
  ghost predicate Separate(cfg: Config) {
    && (forall a, b :: 0 <= a < |cfg.rounds| && 0 <= b < |cfg.rounds| && a != b ==>
          Set(List(cfg, AtHost, a)) !! Set(List(cfg, AtHost, b)))
    && forall r, x :: 0 <= r < |cfg.rounds| && x in List(cfg, AtHost, r) ==> OnlySynchronized(cfg, x)
  }

  ghost predicate OnlySynchronized(cfg: Config, x: Obj) {
    x !in cfg.stored && forall n :: (n, x) !in cfg.maps
  }

  /** A send of an object that was overwritten. */
  lemma NotOwn(net: Net, s: World, k: nat, a: nat, l: Label)
    requires WellFormed(net.cfg) && k in s.sends && k in s.w && ToForward(net.cfg, View(s, k), a)
    requires l in Items(net.cfg, AtHost, a) && FullCopy(net.cfg, View(s, k).h, l)
    requires l in s.h.landed && s.h.landed[l] == Fill(net.cfg.size(ObjectOf(l)), 0)
    ensures !ForwardsOwn(s)
  {
    var ls := Items(net.cfg, AtHost, a);
    var i :| 0 <= i < |ls| && ls[i] == l;
    assert CachedAll(ls)[i] == Cached(l);
    assert s.sends[k][i] == Cached(l);
    assert net.cfg.size(l.obj) > 0;
    assert s.h.cache[l.obj][0] == 1 && s.h.landed[l][0] == 0;
    assert !Own(s.h, s.sends[k][i].tag);
  }

  lemma CommonIsLost(net: Net, a: nat, b: nat) returns (run: seq<(nat, Action)>, s: World)
    requires Well(net) && a < |net.node| && b < |net.node| && a != b
    requires !(Set(List(net.cfg, AtHost, a)) !! Set(List(net.cfg, AtHost, b)))
    ensures Comes(net, run, s) && !ForwardsOwn(s)
  {
    hide AllMine, Run, Blanks, ToForward, Concerns, FullCopy, Items, List, WellFormed, ForwardsOwn;
    run, s := BothLand(net, a, b);
    var l := CommonObject(net.cfg, a, b);
    NotOwn(net, s, NodeOf(net, a), a, l);
    BlanksCome(net, run, s);
  }

  /** The application stores to an object of a round, or maps it. */
  lemma Overwrites(cfg: Config, run: seq<Action>, u: State, r: nat, x: Obj)
    returns (more: seq<Action>, v: State)
    requires WellFormed(cfg) && !cfg.apart && Leads(cfg, Blank(cfg), run, u) && OnlyLanded(cfg, u, r)
    requires x in List(cfg, AtHost, r) && !OnlySynchronized(cfg, x)
    ensures Leads(cfg, Blank(cfg), more, v)
    ensures v == u.(o := v.o, h := u.h.(cache := u.h.cache[x := Fill(cfg.size(x), 1)]))
  {
    assert cfg.size(x) > 0;
    hide Leads, WellFormed, Owners, ToForward, Blank;
    OnlyLandedIs(cfg, u, r);
    InTheCache(cfg, u, r, x);
    if x in cfg.stored {
      var a := HostStores(x, Fill(cfg.size(x), 1));
      Then(cfg, Blank(cfg), run, u, a);
      more, v := run + [a], Apply(cfg, a, u);
    } else {
      var n :| (n, x) in cfg.maps;
      IsOwner(cfg, n, x);
      more, v := MapArrives(cfg, Blank(cfg), run, u, n, x);
    }
  }

  lemma OnlyLandedIs(cfg: Config, u: State, r: nat)
    requires OnlyLanded(cfg, u, r)
    ensures ToForward(cfg, u, r) && HostRests(u.h) && u.o.Keys == Owners(cfg) && forall n :: n in u.o ==> Rested(u.o[n])
    ensures forall l :: l in Items(cfg, AtHost, r) ==>
              l in u.h.landed && u.h.landed[l] == Fill(cfg.size(ObjectOf(l)), 0)
  {
  }

  lemma TouchedIsLost(net: Net, r: nat, x: Obj) returns (run: seq<(nat, Action)>, s: World)
    requires Well(net) && r < |net.node| && x in List(net.cfg, AtHost, r) && !OnlySynchronized(net.cfg, x)
    ensures Comes(net, run, s) && !ForwardsOwn(s)
  {
    hide Leads, OnlyLanded, AllMine, Run, Blanks, Blank, ToForward, Items, List, WellFormed, ForwardsOwn, FullCopy,
      OnlySynchronized;
    var k := NodeOf(net, r);
    IsNode(net, r);
    BlanksAre(net, k);
    var steps, u := OneLanded(net.cfg, r);
    OnlyAsked(net.cfg, u, r);
    OnlyLandedIs(net.cfg, u, r);
    var more, v := Overwrites(net.cfg, steps, u, r, x);
    var l := Overwritten(net.cfg, u, v, r, x);
    Lifts(net, Blanks(net), k, more, v);
    run, s := Lifted(k, more), With(Blanks(net), k, v);
    assert View(s, k) == v;
    NotOwn(net, s, k, r, l);
    BlanksCome(net, run, s);
  }

  // ---- who gets what ----

  /** Every copy that is forwarded to a node is for a round that this node waits for, and nodes request only
      such rounds. */
  ghost predicate Addressed(net: Net, s: World) {
    && (forall k, i :: k in s.sends && 0 <= i < |s.sends[k]| && s.sends[k][i].Cached? ==>
          NodeOf(net, RoundOf(s.sends[k][i].tag)) == k)
    && forall k :: k in s.w ==> AskedAreMine(net, k, s.w[k].asked.log)
  }

  lemma LandedSends(h: HostState, c: Chunk)
    ensures Landed(h, c).sends == h.sends
  {
  }

  /** Where a copy that is to be forwarded comes from. */
  lemma CachedFrom(cfg: Config, a: Action, s: State, i: nat)
    requires Enabled(cfg, a, s) && i < |Apply(cfg, a, s).h.sends| && Apply(cfg, a, s).h.sends[i].Cached?
    ensures var x := Apply(cfg, a, s).h.sends[i];
            || (i < |s.h.sends| && s.h.sends[i] == x)
            || (a.HSetCallback? && s.h.posting == Some(x.tag)) || (a.HTrigger? && s.h.trigger == Some(x.tag))
  {
    if a.HReceive? {
      LandedSends(s.h, Next(cfg.size, s.o[a.n].link));
      hide Landed, Received;
    } else {
      hide Received, Landed, Transmitted, Items, GetRound, MayRead, MayStart, MayWrite, Payload, PartOf, Patched,
        Unused, FreshDown, FreshUp, Posted, Sent, PutLane, WaiterReceived, Enqueued, Unmapped, Head, LaneOf;
    }
  }

  lemma StepAddressed(net: Net, k: nat, a: Action, s: World)
    requires Addressed(net, s) && CanStep(net, k, a, s)
    ensures Addressed(net, Step(net, k, a, s))
  {
    hide Enabled, Apply;
    var t := Step(net, k, a, s);
    forall m, i | m in t.sends && 0 <= i < |t.sends[m]| && t.sends[m][i].Cached?
      ensures NodeOf(net, RoundOf(t.sends[m][i].tag)) == m
    {
      if m == k {
        CachedFrom(net.cfg, a, View(s, k), i);
      }
    }
    AskedGrows(net.cfg, a, View(s, k));
  }

  /** Over every run of any number of nodes. */
  lemma {:induction false} RunAddressed(net: Net, mems: map<nat, map<Obj, Bytes>>, waiters: map<nat, map<Obj, Bytes>>,
                                        run: seq<(nat, Action)>)
    requires Run(net, Start(net, mems, waiters), run).Some?
    ensures Addressed(net, Run(net, Start(net, mems, waiters), run).value)
    decreases |run|
  {
    hide CanStep, Step;
    if run != [] {
      hide Addressed, Start;
      var front, a := run[..|run| - 1], run[|run| - 1];
      RunAddressed(net, mems, waiters, front);
      StepAddressed(net, a.0, a.1, Run(net, Start(net, mems, waiters), front).value);
    }
  }
}
