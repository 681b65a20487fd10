/**
 Runs that go wrong. The streams carry no names, so that a receive takes the bytes of whatever was sent first;
 and the host has one copy of each object. Every way in which an application can fail to keep transfers apart
 has a run in which an acquire installs what was not released for it.
 */
module SyncFailures {
  import opened Seqs
  import opened Links
  import opened SyncProtocol
  import opened SyncLists
  import opened SyncExact
  import opened SyncApart
  import opened SyncPhases
  import opened SyncLandings

  // ---- sizes ----

  /** The size of the object that the waiting node acquires first. */
  function FirstSize(cfg: Config, r: nat): nat {
    if GetRound(cfg, r).wait == [] then 0 else cfg.size(GetRound(cfg, r).wait[0])
  }

  function RoundSize(cfg: Config, r: nat): nat {
    Total(cfg.size, Items(cfg, AtHost, r))
  }

  lemma FirstFits(cfg: Config, r: nat)
    requires WellFormed(cfg) && r < |cfg.rounds|
    ensures FirstSize(cfg, r) <= RoundSize(cfg, r)
  {
    SameTotal(cfg, r, AtHost, AtWaiter);
    var xs := GetRound(cfg, r).wait;
    if xs != [] {
      var l := Item(r, xs[0]);
      assert Items(cfg, AtWaiter, r)[0] == l;
      TotalOne(cfg.size, l);
      PrefixTotal(cfg.size, [l], Items(cfg, AtWaiter, r));
    }
  }

  // ---- what has arrived is forwarded ----

  lemma AllCopied(cfg: Config, s: State, t: State, n: nat, ls: seq<Label>, b: byte)
    requires HasReceived(cfg, s, t, n, ls, b) && forall l :: l in ls ==> l.Item?
    ensures forall l :: l in ls ==> HasCopy(cfg, t.h, l)
  {
  }

  /** The host receives the objects of `ls` from owner `n` and sends them on. */
  lemma PassesOn(cfg: Config, from: State, run: seq<Action>, s: State, n: nat, ls: seq<Label>, b: byte)
    returns (more: seq<Action>, t: State)
    requires Leads(cfg, from, run, s) && n in s.o && s.h.trigger == None && s.h.posting == None
    requires s.o[n].link.got == [] && ls <= s.o[n].link.posted && |s.w.link.sent| == |s.h.sends|
    requires (forall l :: l in ls ==> l.Item?) && Fill(Total(cfg.size, ls), b) <= s.o[n].link.wire
    ensures Leads(cfg, from, more, t) && t.released == s.released && t.replicas == s.replicas
    ensures t.w == s.w.(link := s.w.link.(sent := t.w.link.sent, wire := t.w.link.wire))
    ensures |t.w.link.wire| == |s.w.link.wire| + Total(cfg.size, ls)
  {
    hide Leads, Total, Fill;
    var u: State;
    assert s.o[n].link.posted[0..] == s.o[n].link.posted;
    more, u := ReceivesMany(cfg, from, run, s, n, ls, b);
    AllCopied(cfg, s, u, n, ls, b);
    assert u.h.sends[|u.w.link.sent|..] == CachedAll(ls);
    more, t := TransmitsMany(cfg, from, more, u, ls);
    CopiesLength(cfg, u.h, ls);
  }

  // ---- other commands ----

  /** A round that is requested, and whose request the host has taken up. */
  lemma OneRequest(cfg: Config, r: nat) returns (run: seq<Action>, s: State)
    requires WellFormed(cfg) && !cfg.apart && r < |cfg.rounds|
    ensures Leads(cfg, Blank(cfg), run, s) && s.released == map[] && r in s.events && r in s.replicas
            && ZeroAt(cfg, s.o, r)
    ensures Fresh(s.o[GetRound(cfg, r).owner], [r])
    ensures s.o[GetRound(cfg, r).owner].link.posted == Items(cfg, AtHost, r)
    ensures forall n :: n in Owners(cfg) && n != GetRound(cfg, r).owner ==> n in s.o && s.o[n].link == EMPTY
    ensures s.h == HostState([], None, s.h.postingLanded, None, [], map[], map[])
    ensures s.w.link == EMPTY && s.w.installed == [] && s.w.loop == []
    ensures LaneOf(s.w, GetRound(cfg, r).queue) == Lane(Items(cfg, AtWaiter, r), 0, Idle, [])
    ensures GetRound(cfg, r).wait != [] && Items(cfg, AtWaiter, r)[0] == Item(r, GetRound(cfg, r).wait[0])
  {
    FirstItem(cfg, r);
    AtFirst(cfg, r);
    AllAtFirst(cfg);
    hide Leads, Zeros, GetRound, List, WellFormed, Owners;
    run, s := [], Blank(cfg);
    Begin(cfg, s);
    run, s := Completes(cfg, Blank(cfg), run, s, r);
    run, s := Asks(cfg, Blank(cfg), run, s, r);
    NothingBefore(Items(cfg, AtWaiter, r));
    NothingBefore(Items(cfg, AtHost, r));
    run, s := Forwards(cfg, Blank(cfg), run, s);
    assert [] + [r] == [r];
  }

  lemma AllAtFirst(cfg: Config)
    ensures forall n :: n in Owners(cfg) ==>
              n in Blank(cfg).o && Blank(cfg).o[n].link == EMPTY
  {
  }

  lemma FirstItem(cfg: Config, r: nat)
    ensures GetRound(cfg, r).wait != [] ==> Items(cfg, AtWaiter, r)[0] == Item(r, GetRound(cfg, r).wait[0])
  {
  }

  /** A label for another transfer that is not among `ls`. */
  lemma {:induction false} NewLabel(ls: seq<Label>, len: nat, place: Place, mapped: bool) returns (tag: Label)
    ensures tag.Other? && tag.len == len && tag.place == place && tag.mapped == mapped
    ensures tag !in ls && forall l :: l in ls && l.Other? ==> l.id < tag.id
  {
    if ls == [] {
      tag := Other(0, len, place, mapped);
    } else {
      var l := ls[|ls| - 1];
      tag := NewLabel(ls[..|ls| - 1], len, place, mapped);
      assert forall k :: k in ls ==> k in ls[..|ls| - 1] || k == l;
      if l.Other? && tag.id <= l.id {
        tag := Other(l.id + 1, len, place, mapped);
      }
    }
  }

  /** The host has its copy of a buffer, which it allocates if need be. */
  lemma Allocated(cfg: Config, from: State, run: seq<Action>, s: State, y: Obj) returns (more: seq<Action>, t: State)
    requires Leads(cfg, from, run, s)
    ensures Leads(cfg, from, more, t) && t == s.(h := s.h.(cache := t.h.cache)) && y in t.h.cache
  {
    hide Leads;
    more, t := run, s;
    if y !in s.h.cache {
      var a := Allocates(y, Fill(cfg.size(y), 0));
      Then(cfg, from, run, s, a);
      more, t := run + [a], Apply(cfg, a, s);
    }
  }

  /** A byte that the application reads or maps is sent by node `n`. */
  lemma ReadsOne(cfg: Config, from: State, run: seq<Action>, s: State, n: nat, y: Obj, mapped: bool)
    returns (more: seq<Action>, t: State)
    requires Leads(cfg, from, run, s) && !cfg.apart && cfg.size(y) > 0 && n in s.o && (mapped ==> y in s.h.cache)
    requires (n, y) in (if mapped then cfg.maps else cfg.readFrom)
    ensures Leads(cfg, from, more, t) && n in t.o
    ensures t == Put(s, n, s.o[n].(segs := t.o[n].segs,
                     link := s.o[n].link.(sent := t.o[n].link.sent, wire := s.o[n].link.wire + [1])))
  {
    hide Leads;
    var tag := NewLabel(s.o[n].link.posted + Labels(s.o[n].link.sent), 1, Place(y, 0), mapped);
    var a := ReadSend(n, tag, [1]);
    Then(cfg, from, run, s, a);
    more, t := run + [a], Apply(cfg, a, s);
  }

  lemma {:induction false} ReadsMany(cfg: Config, from: State, run: seq<Action>, s: State, n: nat, y: Obj,
          mapped: bool, k: nat)
    returns (more: seq<Action>, t: State)
    requires Leads(cfg, from, run, s) && !cfg.apart && cfg.size(y) > 0 && n in s.o && (mapped ==> y in s.h.cache)
    requires (n, y) in (if mapped then cfg.maps else cfg.readFrom)
    ensures Leads(cfg, from, more, t) && n in t.o
    ensures t == Put(s, n, s.o[n].(segs := t.o[n].segs,
                     link := s.o[n].link.(sent := t.o[n].link.sent, wire := s.o[n].link.wire + Fill(k, 1))))
  {
    hide Leads;
    if k == 0 {
      more, t := run, s;
      assert s.o[n].link.wire + Fill(0, 1) == s.o[n].link.wire && s.o[n := s.o[n]] == s.o;
    } else {
      var u: State;
      more, u := ReadsMany(cfg, from, run, s, n, y, mapped, k - 1);
      more, t := ReadsOne(cfg, from, more, u, n, y, mapped);
      assert s.o[n].link.wire + Fill(k - 1, 1) + [1] == s.o[n].link.wire + Fill(k, 1);
      assert s.o[n := u.o[n]][n := t.o[n]] == s.o[n := t.o[n]];
    }
  }

  /** If the application reads or maps anything from the owner of a round, some run acquires what it read. */
  lemma ReadGoesWrong(cfg: Config, r: nat, y: Obj, mapped: bool) returns (run: seq<Action>, s: State, c: Chunk)
    requires WellFormed(cfg) && !cfg.apart && r < |cfg.rounds|
    requires (cfg.rounds[r].owner, y) in (if mapped then cfg.maps else cfg.readFrom)
    ensures Leads(cfg, Blank(cfg), run, s) && c in s.w.installed && c.tag.Item? && c.tag !in s.released
  {
    assert cfg.size(y) > 0;
    SomeBytes(cfg, r);
    FirstFits(cfg, r);
    hide Leads, Total, WellFormed, ZeroAt, Owners, LaneOf, Items, RoundSize;
    var n, q := GetRound(cfg, r).owner, GetRound(cfg, r).queue;
    run, s := OneRequest(cfg, r);
    run, s := Allocated(cfg, Blank(cfg), run, s, y);
    run, s := ReadsMany(cfg, Blank(cfg), run, s, n, y, mapped, RoundSize(cfg, r));
    assert s.o[n].link.wire == [] + Fill(RoundSize(cfg, r), 1) == Fill(RoundSize(cfg, r), 1);
    RoundItemsAll(cfg, r);
    var u := s;
    run, s := PassesOn(cfg, Blank(cfg), run, s, n, Items(cfg, AtHost, r), 1);
    SameLane(u.w, s.w, q);
    run, s, c := TakesFirst(cfg, Blank(cfg), run, s, r);
  }

  /** The first chain of a round takes whatever has arrived. */
  lemma TakesFirst(cfg: Config, from: State, run: seq<Action>, s: State, r: nat)
    returns (more: seq<Action>, t: State, c: Chunk)
    requires Leads(cfg, from, run, s) && GetRound(cfg, r).wait != [] && r in s.replicas
             && |s.w.link.wire| >= FirstSize(cfg, r)
    requires AtLane(LaneOf(s.w, GetRound(cfg, r).queue), Items(cfg, AtWaiter, r))
    requires |s.w.link.got| == |s.w.link.posted|
    ensures Leads(cfg, from, more, t) && t.released == s.released && c in t.w.installed
    ensures c.tag == Item(r, GetRound(cfg, r).wait[0])
  {
    hide Leads, LaneOf;
    FirstItem(cfg, r);
    more, t := Takes(cfg, from, run, s, GetRound(cfg, r).queue);
    c := t.w.installed[|s.w.installed|];
  }

  lemma SomeBytes(cfg: Config, r: nat)
    requires WellFormed(cfg) && r < |cfg.rounds|
    ensures FirstSize(cfg, r) > 0
  {
    AtFirst(cfg, r);
  }

  /** A byte that the application writes or unmaps is sent to the waiting node. */
  lemma WritesOne(cfg: Config, from: State, run: seq<Action>, s: State, y: Obj, mapped: bool)
    returns (more: seq<Action>, t: State)
    requires Leads(cfg, from, run, s) && !cfg.apart && cfg.size(y) > 0 && (mapped ==> y in s.h.cache)
    requires y in (if mapped then cfg.unmaps else cfg.writes) && |s.w.link.sent| == |s.h.sends|
    ensures Leads(cfg, from, more, t) && |t.w.link.sent| == |t.h.sends| && |t.w.link.wire| == |s.w.link.wire| + 1
    ensures t == s.(h := s.h.(sends := t.h.sends),
                    w := s.w.(segs := t.w.segs,
                              link := s.w.link.(sent := t.w.link.sent, wire := t.w.link.wire)))
  {
    hide Leads, Enabled, Apply, FreshDown, Transmitted, Sent;
    var tag := NewLabel(s.w.link.posted + SendTags(s.h.sends), 1, Place(y, 0), mapped);
    var a := WriteSend(tag, if mapped then [] else [1]);
    IsFreshDown(cfg, s, tag);
    WriteEnabled(cfg, s, tag);
    Then(cfg, from, run, s, a);
    var u := Apply(cfg, a, s);
    more, t := Transmits(cfg, from, run + [a], u);
    ByteSent(cfg, u.h, s.w.link, tag);
  }

  lemma IsFreshDown(cfg: Config, s: State, tag: Label)
    requires PartOf(cfg, s.h, tag) && tag.place.obj in (if tag.mapped then cfg.unmaps else cfg.writes)
    requires tag !in s.w.link.posted + SendTags(s.h.sends)
    ensures FreshDown(cfg, s, tag)
  {
  }

  lemma WriteEnabled(cfg: Config, s: State, tag: Label)
    requires !cfg.apart && FreshDown(cfg, s, tag) && tag.Other? && tag.len == 1
    ensures var a := WriteSend(tag, if tag.mapped then [] else [1]);
            && Enabled(cfg, a, s)
            && Apply(cfg, a, s) == s.(h := s.h.(sends := s.h.sends + [Outgoing(tag, a.data)]),
                                      w := s.w.(segs := s.w.segs + [Apart(tag)]))
  {
    hide FreshDown;
  }

  lemma ByteSent(cfg: Config, h: HostState, link: Link, tag: Label)
    requires tag.Other? && tag.len == 1
    ensures var x := Outgoing(tag, if tag.mapped then [] else [1]);
            Ready(h, x) && var l := Sent(link, Transmitted(h, x));
            && l == link.(sent := l.sent, wire := l.wire) && |l.sent| == |link.sent| + 1
            && |l.wire| == |link.wire| + 1
  {
  }

  lemma {:induction false} WritesMany(cfg: Config, from: State, run: seq<Action>, s: State, y: Obj, mapped: bool,
          k: nat)
    returns (more: seq<Action>, t: State)
    requires Leads(cfg, from, run, s) && !cfg.apart && cfg.size(y) > 0 && (mapped ==> y in s.h.cache)
    requires y in (if mapped then cfg.unmaps else cfg.writes) && |s.w.link.sent| == |s.h.sends|
    ensures Leads(cfg, from, more, t) && |t.w.link.sent| == |t.h.sends| && |t.w.link.wire| == |s.w.link.wire| + k
    ensures t == s.(h := s.h.(sends := t.h.sends),
                    w := s.w.(segs := t.w.segs,
                              link := s.w.link.(sent := t.w.link.sent, wire := t.w.link.wire)))
  {
    hide Leads;
    more, t := run, s;
    if k > 0 {
      more, t := WritesMany(cfg, from, run, s, y, mapped, k - 1);
      more, t := WritesOne(cfg, from, more, t, y, mapped);
    }
  }

  /** If it writes, creates or unmaps a buffer on the waiting node, some run acquires what it wrote. */
  lemma WriteGoesWrong(cfg: Config, r: nat, y: Obj, mapped: bool) returns (run: seq<Action>, s: State, c: Chunk)
    requires WellFormed(cfg) && !cfg.apart && r < |cfg.rounds| && y in (if mapped then cfg.unmaps else cfg.writes)
    ensures Leads(cfg, Blank(cfg), run, s) && c in s.w.installed && c.tag.Item? && c.tag !in s.released
  {
    assert cfg.size(y) > 0;
    hide Leads, WellFormed, ZeroAt, Owners, LaneOf, Items, FirstSize;
    run, s := OneRequest(cfg, r);
    run, s := Allocated(cfg, Blank(cfg), run, s, y);
    var u, q := s, GetRound(cfg, r).queue;
    run, s := WritesMany(cfg, Blank(cfg), run, s, y, mapped, FirstSize(cfg, r));
    SameLane(u.w, s.w, q);
    run, s, c := TakesFirst(cfg, Blank(cfg), run, s, r);
  }

  // ---- two rounds ----

  /** What two owners, or the one owner of two rounds, have to do. */
  ghost predicate AtOwners(cfg: Config, o: map<nat, Owner>, a: nat, b: nat) {
    var m, n := GetRound(cfg, a).owner, GetRound(cfg, b).owner;
    && ZeroAt(cfg, o, a) && ZeroAt(cfg, o, b)
    && (m != n ==> Fresh(o[m], [a]) && Fresh(o[n], [b])
                   && o[m].link.posted == Items(cfg, AtHost, a) && o[n].link.posted == Items(cfg, AtHost, b))
    && (m == n ==> Fresh(o[m], [a, b]) && o[m].link.posted == Items(cfg, AtHost, a) + Items(cfg, AtHost, b))
  }

  ghost predicate AtWaiterLanes(cfg: Config, w: Waiter, a: nat, b: nat) {
    var p, q := GetRound(cfg, a).queue, GetRound(cfg, b).queue;
    && (p != q ==> LaneOf(w, p) == Lane(Items(cfg, AtWaiter, a), 0, Idle, [])
                   && LaneOf(w, q) == Lane(Items(cfg, AtWaiter, b), 0, Idle, []))
    && (p == q ==> LaneOf(w, p) == Lane(Items(cfg, AtWaiter, a) + Items(cfg, AtWaiter, b), 0, Idle, []))
  }

  /** Round `a` and then round `b` are requested. */
  lemma BothAsked(cfg: Config, a: nat, b: nat) returns (run: seq<Action>, s: State)
    requires WellFormed(cfg) && !cfg.apart && a < |cfg.rounds| && b < |cfg.rounds| && a != b
    ensures Leads(cfg, Blank(cfg), run, s) && AtWaiterLanes(cfg, s.w, a, b) && s.w.asked == Mail([a, b], 0)
    ensures s.o == Blank(cfg).o && s.h == HostState([], None, false, None, [], map[], map[])
    ensures s.w.link == EMPTY && s.w.installed == [] && s.released == map[]
    ensures {a, b} <= s.events && {a, b} <= s.replicas
  {
    hide Leads, Zeros, GetRound, List, WellFormed, LaneOf;
    run, s := [], Blank(cfg);
    Begin(cfg, s);
    AtFirst(cfg, a);
    run, s := Completes(cfg, Blank(cfg), run, s, a);
    run, s := Completes(cfg, Blank(cfg), run, s, b);
    run, s := Asks(cfg, Blank(cfg), run, s, a);
    run, s := Asks(cfg, Blank(cfg), run, s, b);
    NothingBefore(Items(cfg, AtWaiter, a));
    NothingBefore(Items(cfg, AtWaiter, b));
    assert [] + [a] + [b] == [a, b];
  }

  lemma OwnersAtFirst(cfg: Config, a: nat, b: nat)
    requires WellFormed(cfg) && a < |cfg.rounds| && b < |cfg.rounds|
    ensures var o, m, n := Blank(cfg).o, GetRound(cfg, a).owner, GetRound(cfg, b).owner;
            && ZeroAt(cfg, o, a) && ZeroAt(cfg, o, b) && Fresh(o[m], []) && Fresh(o[n], [])
            && o[m].link.posted == o[n].link.posted == []
  {
    AtFirst(cfg, a);
    AtFirst(cfg, b);
  }

  /** The host takes up both requests. */
  lemma TwoRequests(cfg: Config, a: nat, b: nat) returns (run: seq<Action>, s: State)
    requires WellFormed(cfg) && !cfg.apart && a < |cfg.rounds| && b < |cfg.rounds| && a != b
    ensures Leads(cfg, Blank(cfg), run, s) && AtOwners(cfg, s.o, a, b) && AtWaiterLanes(cfg, s.w, a, b)
    ensures s.h == HostState([], None, s.h.postingLanded, None, [], map[], map[])
    ensures s.w.link == EMPTY && s.w.installed == [] && s.released == map[]
    ensures {a, b} <= s.events && {a, b} <= s.replicas
  {
    hide Leads, Zeros, GetRound, Init, ZeroAt;
    run, s := BothAsked(cfg, a, b);
    OwnersAtFirst(cfg, a, b);
    var o := s.o;
    ZeroOwner(cfg, o, a);
    run, s := Forwards(cfg, Blank(cfg), run, s);
    FirstTaken(cfg, o, s.o, a, b);
    var u := s.o;
    ZeroOwner(cfg, u, b);
    run, s := Forwards(cfg, Blank(cfg), run, s);
    SecondTaken(cfg, u, s.o, a, b);
  }

  lemma ZeroOwner(cfg: Config, o: map<nat, Owner>, r: nat)
    requires ZeroAt(cfg, o, r)
    ensures GetRound(cfg, r).owner in o
  {
  }

  /** After the first request. */
  ghost predicate FirstIsTaken(cfg: Config, o: map<nat, Owner>, a: nat, b: nat) {
    var m, n := GetRound(cfg, a).owner, GetRound(cfg, b).owner;
    && ZeroAt(cfg, o, a) && ZeroAt(cfg, o, b) && Fresh(o[m], [a]) && o[m].link.posted == Items(cfg, AtHost, a)
    && (m != n ==> Fresh(o[n], []) && o[n].link.posted == [])
  }

  lemma FirstTaken(cfg: Config, o: map<nat, Owner>, o': map<nat, Owner>, a: nat, b: nat)
    requires var m, n := GetRound(cfg, a).owner, GetRound(cfg, b).owner;
             && ZeroAt(cfg, o, a) && ZeroAt(cfg, o, b) && Fresh(o[m], []) && Fresh(o[n], [])
             && o[m].link.posted == o[n].link.posted == []
    requires var m := GetRound(cfg, a).owner;
             m in o' && o' == o[m := o[m].(orders := Mail([] + [a], 0), segs := o'[m].segs,
                                           link := o[m].link.(posted := [] + Items(cfg, AtHost, a)))]
    ensures FirstIsTaken(cfg, o', a, b)
  {
    hide GetRound, List;
    assert [] + Items(cfg, AtHost, a) == Items(cfg, AtHost, a);
  }

  lemma SecondTaken(cfg: Config, o: map<nat, Owner>, o': map<nat, Owner>, a: nat, b: nat)
    requires FirstIsTaken(cfg, o, a, b)
    requires var n := GetRound(cfg, b).owner;
             n in o' && o' == o[n := o[n].(orders := o[n].orders.(log := o[n].orders.log + [b]), segs := o'[n].segs,
                                           link := o[n].link.(posted := o[n].link.posted + Items(cfg, AtHost, b)))]
    ensures AtOwners(cfg, o', a, b)
  {
    hide GetRound, List;
    assert [] + Items(cfg, AtHost, b) == Items(cfg, AtHost, b);
    assert [a] + [b] == [a, b];
  }

  /** The chains at the heads of the two queues. */
  lemma FirstChains(cfg: Config, w: Waiter, a: nat, b: nat)
    requires WellFormed(cfg) && a < |cfg.rounds| && b < |cfg.rounds| && AtWaiterLanes(cfg, w, a, b)
    ensures var p, q := GetRound(cfg, a).queue, GetRound(cfg, b).queue;
            && GetRound(cfg, a).wait != [] && GetRound(cfg, b).wait != []
            && AtStage(LaneOf(w, p), Idle) && Head(LaneOf(w, p)) == Item(a, GetRound(cfg, a).wait[0])
            && (p != q ==> AtStage(LaneOf(w, q), Idle) && Head(LaneOf(w, q)) == Item(b, GetRound(cfg, b).wait[0]))
  {
    hide Zeros;
    AtFirst(cfg, a);
    AtFirst(cfg, b);
    assert Items(cfg, AtWaiter, a)[0] == Item(a, GetRound(cfg, a).wait[0]);
    assert Items(cfg, AtWaiter, b)[0] == Item(b, GetRound(cfg, b).wait[0]);
  }

  lemma ItemsMovable(cfg: Config, s: State, r: nat)
    requires ZeroAt(cfg, s.o, r) && r in s.events
    ensures forall l :: l in Items(cfg, AtOwner, r) ==> Movable(cfg, s, GetRound(cfg, r).owner, l, 0)
  {
    forall l | l in Items(cfg, AtOwner, r) ensures Movable(cfg, s, GetRound(cfg, r).owner, l, 0) {
      assert l.obj in List(cfg, AtOwner, r);
    }
  }

  /** The owner sends the objects of its first round. */
  lemma RoundSent(cfg: Config, from: State, run: seq<Action>, s: State, n: nat, r: nat, rs: seq<nat>)
    returns (more: seq<Action>, t: State)
    requires WellFormed(cfg) && r < |cfg.rounds| && n == GetRound(cfg, r).owner
    requires Leads(cfg, from, run, s) && ZeroAt(cfg, s.o, r) && Fresh(s.o[n], rs) && rs != [] && rs[0] == r
             && r in s.events
    requires s.released == map[]
    ensures Leads(cfg, from, more, t) && n in t.o && t == s.(o := s.o[n := t.o[n]], released := t.released)
    ensures t.o[n].link == s.o[n].link.(sent := t.o[n].link.sent, wire := Fill(RoundSize(cfg, r), 0))
    ensures forall l :: l in t.released <==> l in Items(cfg, AtOwner, r)
    ensures forall l :: l in Items(cfg, AtOwner, r) ==> t.released[l] == Fill(cfg.size(ObjectOf(l)), 0)
  {
    hide Leads, Total, WellFormed, GetRound, List;
    var ls, u := Items(cfg, AtOwner, r), s;
    more, u := Orders(cfg, from, run, s, n);
    NothingBefore(ls);
    assert u.o[n].lane.log[0..] == ls && ZeroAt(cfg, u.o, r);
    ItemsMovable(cfg, u, r);
    more, t := SendsMany(cfg, from, more, u, n, ls, 0);
    SameTotal(cfg, r, AtOwner, AtHost);
    assert t.o[n].link.wire == [] + Fill(RoundSize(cfg, r), 0) == Fill(RoundSize(cfg, r), 0);
    assert s.o[n := u.o[n]][n := t.o[n]] == s.o[n := t.o[n]];
  }

  /** The owner sends the objects of its first round, and the host forwards them. */
  lemma RoundForwarded(cfg: Config, from: State, run: seq<Action>, s: State, n: nat, r: nat, rs: seq<nat>)
    returns (more: seq<Action>, t: State)
    requires WellFormed(cfg) && r < |cfg.rounds| && n == GetRound(cfg, r).owner
    requires Leads(cfg, from, run, s) && ZeroAt(cfg, s.o, r) && Fresh(s.o[n], rs) && rs != [] && rs[0] == r
             && r in s.events
    requires Items(cfg, AtHost, r) <= s.o[n].link.posted && s.w.link == EMPTY && s.released == map[]
    requires s.h == HostState([], None, s.h.postingLanded, None, [], map[], map[])
    ensures Leads(cfg, from, more, t) && t.replicas == s.replicas
    ensures t.w == s.w.(link := t.w.link) && t.w.link.got == [] && t.w.link.posted == []
    ensures |t.w.link.wire| == RoundSize(cfg, r)
    ensures forall l :: l in t.released ==> l.Item? && l.round == r
  {
    hide Leads, Total, WellFormed, GetRound, List;
    var v: State;
    more, v := RoundSent(cfg, from, run, s, n, r, rs);
    more, t := PassesOn(cfg, from, more, v, n, Items(cfg, AtHost, r), 0);
  }

  /** Two owners: the first chain takes the bytes of the other round. */
  lemma OwnersGoWrong(cfg: Config, a: nat, b: nat) returns (run: seq<Action>, s: State, c: Chunk)
    requires WellFormed(cfg) && !cfg.apart && a < |cfg.rounds| && b < |cfg.rounds| && a != b
    requires GetRound(cfg, a).owner != GetRound(cfg, b).owner && FirstSize(cfg, a) <= RoundSize(cfg, b)
    ensures Leads(cfg, Blank(cfg), run, s) && c in s.w.installed && c.tag.Item? && c.tag !in s.released
  {
    hide Leads, Total, ZeroAt;
    run, s := TwoRequests(cfg, a, b);
    FirstChains(cfg, s.w, a, b);
    run, s := RoundForwarded(cfg, Blank(cfg), run, s, GetRound(cfg, b).owner, b, [b]);
    run, s := Takes(cfg, Blank(cfg), run, s, GetRound(cfg, a).queue);
    c := s.w.installed[0];
  }

  /** Two queues: the chain of the other round is first and takes the bytes of the first round. */
  lemma QueuesGoWrong(cfg: Config, a: nat, b: nat) returns (run: seq<Action>, s: State, c: Chunk)
    requires WellFormed(cfg) && !cfg.apart && a < |cfg.rounds| && b < |cfg.rounds| && a != b
    requires GetRound(cfg, a).owner == GetRound(cfg, b).owner && GetRound(cfg, a).queue != GetRound(cfg, b).queue
    requires FirstSize(cfg, b) <= RoundSize(cfg, a)
    ensures Leads(cfg, Blank(cfg), run, s) && c in s.w.installed && c.tag.Item? && c.tag !in s.released
  {
    hide Leads, Total, ZeroAt;
    run, s := TwoRequests(cfg, a, b);
    FirstChains(cfg, s.w, a, b);
    run, s := RoundForwarded(cfg, Blank(cfg), run, s, GetRound(cfg, a).owner, a, [a, b]);
    run, s := Takes(cfg, Blank(cfg), run, s, GetRound(cfg, b).queue);
    c := s.w.installed[0];
  }

  /** A common object of the host's lists. */
  lemma CommonObject(cfg: Config, a: nat, b: nat) returns (l: Label)
    requires !(Set(List(cfg, AtHost, a)) !! Set(List(cfg, AtHost, b)))
    ensures l.Item? && l in Items(cfg, AtHost, a) && Concerns(Items(cfg, AtHost, b), ObjectOf(l))
  {
    var x :| x in Set(List(cfg, AtHost, a)) && x in Set(List(cfg, AtHost, b));
    var i :| 0 <= i < |List(cfg, AtHost, a)| && List(cfg, AtHost, a)[i] == x;
    var j :| 0 <= j < |List(cfg, AtHost, b)| && List(cfg, AtHost, b)[j] == x;
    l := Item(a, x);
    assert Items(cfg, AtHost, a)[i] == l && Items(cfg, AtHost, b)[j] == Item(b, x);
    assert Item(b, x) in Items(cfg, AtHost, b) && ObjectOf(Item(b, x)) == ObjectOf(l);
  }

  /** Two rounds on one object: the host forwards the object as it was received for the second round. */
  lemma OverlapGoesWrong(cfg: Config, a: nat, b: nat) returns (run: seq<Action>, s: State, c: Chunk)
    requires WellFormed(cfg) && !cfg.apart && a < |cfg.rounds| && b < |cfg.rounds| && a != b
    requires !(Set(List(cfg, AtHost, a)) !! Set(List(cfg, AtHost, b)))
    ensures Leads(cfg, Blank(cfg), run, s) && c in s.w.installed && !Right(s, c)
  {
    hide Leads, Right, RoundHasLanded, WellFormed, ToForward, Owners, Rested, Concerns, FullCopy, Items;
    var u, v: State;
    run, u := OneLanded(cfg, a);
    OwnerIsThere(cfg, b);
    run, v := LandsWritten(cfg, Blank(cfg), run, u, b);
    SecondHasLanded(cfg, u, v, a, b);
    var l := CommonObject(cfg, a, b);
    run, s, c := CopyGoesWrong(cfg, Blank(cfg), run, v, a, l);
  }

  lemma OwnerIsThere(cfg: Config, r: nat)
    requires r < |cfg.rounds|
    ensures GetRound(cfg, r).owner in Owners(cfg)
  {
  }

  // ---- other writers of the host's copy ----

  lemma RoundItemsAll(cfg: Config, r: nat)
    ensures forall l :: l in Items(cfg, AtHost, r) || l in Items(cfg, AtOwner, r) ==> l.Item? && l.round == r
  {
  }

  /** The host's copy of one object of the round is overwritten with ones. */
  lemma Overwritten(cfg: Config, s: State, t: State, r: nat, x: Obj) returns (l: Label)
    requires ToForward(cfg, s, r) && x in List(cfg, AtHost, r) && t.w == s.w && t.released == s.released
    requires t.replicas == s.replicas && t.h.sends == s.h.sends && t.h.cache == s.h.cache[x := Fill(cfg.size(x), 1)]
    ensures l in Items(cfg, AtHost, r) && FullCopy(cfg, t.h, l)
    ensures ToForward(cfg, t, r)
  {
    var i :| 0 <= i < |List(cfg, AtHost, r)| && List(cfg, AtHost, r)[i] == x;
    l := Item(r, x);
    assert Items(cfg, AtHost, r)[i] == l;
  }

  /** If the application itself stores to an object of a round, some run forwards what it stored. */
  lemma StoreGoesWrong(cfg: Config, r: nat, x: Obj) returns (run: seq<Action>, s: State, c: Chunk)
    requires WellFormed(cfg) && !cfg.apart && r < |cfg.rounds| && x in cfg.rounds[r].host && x in cfg.stored
    ensures Leads(cfg, Blank(cfg), run, s) && c in s.w.installed && !Right(s, c)
  {
    hide Leads, WellFormed, LaneOf, CachedAll, Owners, Right, ToForward;
    var u: State;
    run, u := OneLanded(cfg, r);
    InTheCache(cfg, u, r, x);
    var a := HostStores(x, Fill(cfg.size(x), 1));
    Then(cfg, Blank(cfg), run, u, a);
    var v := Apply(cfg, a, u);
    var l := Overwritten(cfg, u, v, r, x);
    run, s, c := CopyGoesWrong(cfg, Blank(cfg), run + [a], v, r, l);
  }

  lemma InTheCache(cfg: Config, s: State, r: nat, x: Obj)
    requires ToForward(cfg, s, r) && x in List(cfg, AtHost, r)
    ensures x in s.h.cache && |s.h.cache[x]| == cfg.size(x)
  {
    var i :| 0 <= i < |List(cfg, AtHost, r)| && List(cfg, AtHost, r)[i] == x;
    assert Items(cfg, AtHost, r)[i] == Item(r, x);
    assert HasCopy(cfg, s.h, Item(r, x));
  }

  /** A whole buffer that is mapped arrives in the host's copy. */
  lemma MapArrives(cfg: Config, from: State, run: seq<Action>, s: State, n: nat, x: Obj)
    returns (more: seq<Action>, t: State)
    requires Leads(cfg, from, run, s) && !cfg.apart && cfg.size(x) > 0 && n in s.o && Rested(s.o[n]) && HostRests(s.h)
    requires (n, x) in cfg.maps && x in s.h.cache && |s.h.cache[x]| == cfg.size(x)
    ensures Leads(cfg, from, more, t)
    ensures t == s.(o := t.o, h := s.h.(cache := s.h.cache[x := Fill(cfg.size(x), 1)]))
  {
    hide Leads;
    var tag := NewLabel(s.o[n].link.posted + Labels(s.o[n].link.sent), cfg.size(x), Place(x, 0), true);
    var data := Fill(cfg.size(x), 1);
    var a, b := ReadSend(n, tag, data), ReadPostAfter(n, tag);
    Then(cfg, from, run, s, a);
    var u := Apply(cfg, a, s);
    assert u.o[n].link.wire == [] + data == data;
    assert Labels(u.o[n].link.sent)[|s.o[n].link.sent|] == tag;
    Then(cfg, from, run + [a], u, b);
    var v := Apply(cfg, b, u);
    assert v.o[n].link.posted[|v.o[n].link.got|] == tag;
    assert v.o[n].link.wire[..|data|] == data;
    Then(cfg, from, run + [a] + [b], v, HReceive(n));
    more, t := run + [a] + [b] + [HReceive(n)], Apply(cfg, HReceive(n), v);
    assert Patched(s.h.cache[x], 0, data) == data;
  }

  /** If it maps an object of a round from any node, some run forwards what the map brought. */
  lemma MapGoesWrong(cfg: Config, r: nat, n: nat, x: Obj) returns (run: seq<Action>, s: State, c: Chunk)
    requires WellFormed(cfg) && !cfg.apart && r < |cfg.rounds| && x in cfg.rounds[r].host && (n, x) in cfg.maps
    ensures Leads(cfg, Blank(cfg), run, s) && c in s.w.installed && !Right(s, c)
  {
    assert cfg.size(x) > 0;
    IsOwner(cfg, n, x);
    hide Leads, WellFormed, LaneOf, CachedAll, Owners, Right, ToForward;
    var u, v: State;
    run, u := OneLanded(cfg, r);
    InTheCache(cfg, u, r, x);
    run, v := MapArrives(cfg, Blank(cfg), run, u, n, x);
    var l := Overwritten(cfg, u, v, r, x);
    run, s, c := CopyGoesWrong(cfg, Blank(cfg), run, v, r, l);
  }

  lemma IsOwner(cfg: Config, n: nat, x: Obj)
    requires (n, x) in cfg.maps
    ensures n in Owners(cfg)
  {
    assert (n, x) in cfg.readFrom + cfg.maps;
  }

  // ---- exactly which applications are safe ----

  /** Two rounds that may be under way together and are not compatible have a run that goes wrong. */
  lemma PairGoesWrong(cfg: Config, a: nat, b: nat) returns (run: seq<Action>, s: State, c: Chunk)
    requires WellFormed(cfg) && !cfg.apart && a < |cfg.rounds| && b < |cfg.rounds| && a != b && !Compatible(cfg, a, b)
    ensures Leads(cfg, Blank(cfg), run, s) && c in s.w.installed && !Right(s, c)
  {
    hide Leads, Total;
    FirstFits(cfg, a);
    FirstFits(cfg, b);
    if GetRound(cfg, a).owner != GetRound(cfg, b).owner {
      if FirstSize(cfg, a) <= RoundSize(cfg, b) {
        run, s, c := OwnersGoWrong(cfg, a, b);
      } else {
        run, s, c := OwnersGoWrong(cfg, b, a);
      }
    } else if GetRound(cfg, a).queue != GetRound(cfg, b).queue {
      if FirstSize(cfg, b) <= RoundSize(cfg, a) {
        run, s, c := QueuesGoWrong(cfg, a, b);
      } else {
        run, s, c := QueuesGoWrong(cfg, b, a);
      }
    } else {
      run, s, c := OverlapGoesWrong(cfg, a, b);
    }
  }

  /** An application that is not peaceful has a run in which an acquire installs what was not released. */
  lemma UnrestGoesWrong(cfg: Config) returns (run: seq<Action>, s: State, c: Chunk)
    requires WellFormed(cfg) && !cfg.apart && !Peaceful(cfg)
    ensures Leads(cfg, Blank(cfg), run, s) && c in s.w.installed && !Right(s, c)
  {
    hide Leads, Compatible;
    if a, b :| 0 <= a < |cfg.rounds| && 0 <= b < |cfg.rounds| && a != b && !Compatible(cfg, a, b) {
      run, s, c := PairGoesWrong(cfg, a, b);
    } else if y :| y in cfg.writes {
      run, s, c := WriteGoesWrong(cfg, 0, y, false);
    } else if y :| y in cfg.unmaps {
      run, s, c := WriteGoesWrong(cfg, 0, y, true);
    } else {
      var r :| 0 <= r < |cfg.rounds| && !Undisturbed(cfg, cfg.rounds[r]);
      run, s, c := DisturbedGoesWrong(cfg, r);
    }
  }

  lemma DisturbedGoesWrong(cfg: Config, r: nat) returns (run: seq<Action>, s: State, c: Chunk)
    requires WellFormed(cfg) && !cfg.apart && r < |cfg.rounds| && !Undisturbed(cfg, cfg.rounds[r])
    ensures Leads(cfg, Blank(cfg), run, s) && c in s.w.installed && !Right(s, c)
  {
    hide Leads;
    var q := cfg.rounds[r];
    if y :| (q.owner, y) in cfg.readFrom {
      run, s, c := ReadGoesWrong(cfg, r, y, false);
    } else if y :| (q.owner, y) in cfg.maps {
      run, s, c := ReadGoesWrong(cfg, r, y, true);
    } else if x :| x in q.host && x in cfg.stored {
      run, s, c := StoreGoesWrong(cfg, r, x);
    } else {
      var x, n :| x in q.host && (n, x) in cfg.maps;
      run, s, c := MapGoesWrong(cfg, r, n, x);
    }
  }

  /** A run that keeps apart is a run. */
  lemma {:induction false} ApartIsARun(cfg: Config, from: State, run: seq<Action>)
    requires !cfg.apart && Exec(KeptApart(cfg), from, run).Some?
    ensures Exec(cfg, from, run) == Exec(KeptApart(cfg), from, run)
    decreases |run|
  {
    hide Enabled, Apply;
    if run != [] {
      var front, a := run[..|run| - 1], run[|run| - 1];
      ApartIsARun(cfg, from, front);
      ApartIsEnabled(cfg, a, Exec(cfg, from, front).value);
      SameApply(cfg, a, Exec(cfg, from, front).value);
    }
  }

  lemma ApartIsEnabled(cfg: Config, a: Action, s: State)
    requires !cfg.apart && Enabled(KeptApart(cfg), a, s)
    ensures Enabled(cfg, a, s)
  {
    SameLists(cfg);
    hide MayStart, MayRead, MayWrite, GetRound, List, CanReceive, Ready, Payload;
  }

  /** For applications that start rounds, reads, writes, maps and unmaps at any time, with objects of any sizes
      and lists in any orders: every run delivers to every object its own contents if and only if owner and
      waiting node list the objects of every round alike, no two rounds share an object of the host or have
      different owners or queues, nothing is read or mapped from the owner or written or unmapped to the waiting
      node, and no object of a round is mapped from any node or stored to by the application itself. */
  lemma SafetyIsExact(cfg: Config)
    requires WellFormed(cfg) && !cfg.apart
    ensures AlwaysRight(cfg) <==> Peaceful(cfg) && OneOrder(cfg)
  {
    hide Peaceful, Right, Reaches;
    if !Peaceful(cfg) {
      var run, s, c := UnrestGoesWrong(cfg);
      BlankReaches(cfg, run, s);
    } else if r: nat :| r < |cfg.rounds| && cfg.rounds[r].own != cfg.rounds[r].wait {
      var run, s, c := DisorderGoesWrong(cfg, r);
    } else {
      forall run, s, c | Reaches(cfg, run, s) && c in s.w.installed ensures Right(s, c) {
        PeaceIsRight(cfg, run, s, c);
      }
    }
  }

  lemma DisorderGoesWrong(cfg: Config, r: nat) returns (run: seq<Action>, s: State, c: Chunk)
    requires WellFormed(cfg) && !cfg.apart && r < |cfg.rounds| && cfg.rounds[r].own != cfg.rounds[r].wait
    ensures Reaches(cfg, run, s) && c in s.w.installed && !Right(s, c)
  {
    hide Right, Exec, Init, Memory, Final;
    SameForms(cfg);
    run, s, c := OrderMatters(KeptApart(cfg), r);
    var mems, wm :| Memory(KeptApart(cfg), mems) && Exec(KeptApart(cfg), Init(mems, wm), run) == Some(s);
    ApartIsARun(cfg, Init(mems, wm), run);
    SameMemories(cfg, mems);
    assert Memory(cfg, mems) && Exec(cfg, Init(mems, wm), run) == Some(s);
  }

  lemma SameForms(cfg: Config)
    requires WellFormed(cfg)
    ensures WellFormed(KeptApart(cfg))
  {
  }

  lemma SameMemories(cfg: Config, mems: map<nat, map<Obj, Bytes>>)
    requires Memory(KeptApart(cfg), mems)
    ensures Memory(cfg, mems)
  {
  }
}
