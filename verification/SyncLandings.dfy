/**
 Runs in which the objects of a round reach the host and wait there to be forwarded. If its copy of one of them
 is overwritten before, what the waiting node acquires is not what was released.
 */
module SyncLandings {
  import opened Seqs
  import opened Links
  import opened SyncProtocol
  import opened SyncLists
  import opened SyncExact
  import opened SyncPhases

  lemma SameTotal(cfg: Config, r: nat, a: Side, b: Side)
    requires WellFormed(cfg) && r < |cfg.rounds|
    ensures Total(cfg.size, Items(cfg, a, r)) == Total(cfg.size, Items(cfg, b, r))
  {
    TotalSeg(cfg, a, b, Sync(r));
  }

  lemma RoundItems(cfg: Config, side: Side, r: nat, l: Label)
    requires l in Items(cfg, side, r)
    ensures l.Item? && l.round == r
  {
  }

  lemma NothingBefore(ls: seq<Label>)
    ensures [] + ls == ls
  {
  }

  lemma NoBytesBefore(x: Bytes)
    ensures [] + x == x
  {
  }

  // ---- a round reaches the host ----

  /** An owner at rest: all its chains are complete, and nothing is under way from it. */
  predicate Rested(o: Owner) {
    && o.loop == [] && o.orders.seen == |o.orders.log| && o.lane.pos == |o.lane.log| && o.lane.stage == Idle
    && o.link.wire == [] && |o.link.got| == |o.link.posted|
  }

  predicate HostRests(h: HostState) {
    h.loop == [] && h.posting == None && h.trigger == None
  }

  /** Nothing is left of earlier requests, and round `r` is not requested. */
  predicate MayLand(cfg: Config, s: State, r: nat) {
    && r !in s.events && r !in s.replicas && r !in s.w.asked.log && s.w.asked.seen == |s.w.asked.log|
    && s.w.loop == [] && HostRests(s.h) && GetRound(cfg, r).owner in s.o && Rested(s.o[GetRound(cfg, r).owner])
  }

  /** The objects of a round are full of `b` on its owner. */
  predicate FilledAt(cfg: Config, o: map<nat, Owner>, r: nat, b: byte) {
    var n := GetRound(cfg, r).owner;
    n in o && forall x :: x in List(cfg, AtOwner, r) ==> x in o[n].mem && o[n].mem[x] == Fill(cfg.size(x), b)
  }

  /** What the landing does on the host. */
  ghost predicate HostHas(cfg: Config, h: HostState, h': HostState, r: nat, b: byte) {
    HostRests(h') && HostAfter(cfg.size, h.(postingLanded := h'.postingLanded), h', Items(cfg, AtHost, r), b)
  }

  /** On the waiting node only the chains have been enqueued. */
  ghost predicate WaiterAsked(cfg: Config, w: Waiter, w': Waiter, r: nat) {
    var q := GetRound(cfg, r).queue;
    && w' == w.(asked := Mail(w.asked.log + [r], |w.asked.log| + 1), lanes := w'.lanes, segs := w'.segs)
    && LaneOf(w', q) == LaneOf(w, q).(log := LaneOf(w, q).log + Items(cfg, AtWaiter, r))
    && forall p :: p != q ==> LaneOf(w', p) == LaneOf(w, p)
  }

  ghost predicate ReleasedMore(cfg: Config, released: map<Label, Bytes>, released': map<Label, Bytes>, r: nat, b: byte)
  {
    && (forall l :: l in released' <==> l in released || l in Items(cfg, AtOwner, r))
    && (forall l :: l in Items(cfg, AtOwner, r) ==> released'[l] == Fill(cfg.size(ObjectOf(l)), b))
    && (forall l :: l in released && l !in Items(cfg, AtOwner, r) ==> released'[l] == released[l])
  }

  /** `t` is `s` after round `r` has been requested and its objects, all full of `b`, have reached the host. */
  ghost predicate RoundHasLanded(cfg: Config, s: State, t: State, r: nat, b: byte) {
    var n := GetRound(cfg, r).owner;
    && t.events == s.events + {r} && t.replicas == s.replicas + {r}
    && n in t.o && t.o == s.o[n := t.o[n]] && Rested(t.o[n])
    && HostHas(cfg, s.h, t.h, r, b) && WaiterAsked(cfg, s.w, t.w, r) && ReleasedMore(cfg, s.released, t.released, r, b)
  }

  /** The event of the round completes, and the request reaches the owner. */
  lemma RoundRequested(cfg: Config, from: State, run: seq<Action>, s: State, r: nat)
    returns (more: seq<Action>, t: State)
    requires !cfg.apart && r < |cfg.rounds| && Leads(cfg, from, run, s) && MayLand(cfg, s, r)
    ensures Leads(cfg, from, more, t) && t.released == s.released
    ensures t.events == s.events + {r} && t.replicas == s.replicas + {r} && WaiterAsked(cfg, s.w, t.w, r)
    ensures var n := GetRound(cfg, r).owner; var o := s.o[n];
            && n in t.o && t.o == s.o[n := o.(orders := o.orders.(log := o.orders.log + [r]), segs := t.o[n].segs,
                                              link := o.link.(posted := o.link.posted + Items(cfg, AtHost, r)))]
    ensures t.h == s.h.(postingLanded := t.h.postingLanded)
  {
    hide Leads, GetRound, List, Items;
    more, t := Completes(cfg, from, run, s, r);
    more, t := Asks(cfg, from, more, t, r);
    more, t := Forwards(cfg, from, more, t);
  }

  /** The owner sends the objects, and the host receives them. */
  lemma RoundMoves(cfg: Config, from: State, run: seq<Action>, s: State, r: nat, b: byte, posted: seq<Label>)
    returns (more: seq<Action>, t: State)
    requires WellFormed(cfg) && r < |cfg.rounds| && Leads(cfg, from, run, s) && HostRests(s.h)
    requires r in s.events && FilledAt(cfg, s.o, r, b)
    requires var o := s.o[GetRound(cfg, r).owner];
             && o.orders.seen + 1 == |o.orders.log| && o.orders.log[o.orders.seen] == r
             && o.link.posted == posted + Items(cfg, AtHost, r)
             && Rested(o.(orders := o.orders.(seen := o.orders.seen + 1), link := o.link.(posted := posted)))
    ensures Leads(cfg, from, more, t)
    ensures var n := GetRound(cfg, r).owner;
            && n in t.o && t == s.(o := s.o[n := t.o[n]], h := t.h, released := t.released) && Rested(t.o[n])
    ensures HostHas(cfg, s.h, t.h, r, b) && ReleasedMore(cfg, s.released, t.released, r, b)
  {
    hide Leads, GetRound, List, Total, WellFormed, Fill, Items, Concerns, CachedAll;
    var n, x, y := GetRound(cfg, r).owner, Items(cfg, AtOwner, r), Items(cfg, AtHost, r);
    var u, v: State;
    more, u := Orders(cfg, from, run, s, n);
    assert u.o[n].lane.log[u.o[n].lane.pos..] == x;
    AllMovable(cfg, u, r, b);
    more, v := SendsMany(cfg, from, more, u, n, x, b);
    SameTotal(cfg, r, AtOwner, AtHost);
    NoBytesBefore(Fill(Total(cfg.size, y), b));
    assert v.o[n].link.posted[|v.o[n].link.got|..] == y;
    ItemsOfRound(cfg, r);
    more, t := ReceivesMany(cfg, from, more, v, n, y, b);
    assert s.o[n := u.o[n]][n := v.o[n]][n := t.o[n]] == s.o[n := t.o[n]];
  }

  lemma AllMovable(cfg: Config, s: State, r: nat, b: byte)
    requires FilledAt(cfg, s.o, r, b) && r in s.events
    ensures forall l :: l in Items(cfg, AtOwner, r) ==> Movable(cfg, s, GetRound(cfg, r).owner, l, b)
  {
    forall l | l in Items(cfg, AtOwner, r) ensures Movable(cfg, s, GetRound(cfg, r).owner, l, b) {
      assert l.obj in List(cfg, AtOwner, r);
    }
  }

  lemma ItemsOfRound(cfg: Config, r: nat)
    ensures forall side, l :: l in Items(cfg, side, r) ==> l.Item? && l.round == r
  {
  }

  lemma RoundLands(cfg: Config, from: State, run: seq<Action>, s: State, r: nat, b: byte)
    returns (more: seq<Action>, t: State)
    requires WellFormed(cfg) && !cfg.apart && r < |cfg.rounds| && Leads(cfg, from, run, s) && MayLand(cfg, s, r)
    requires FilledAt(cfg, s.o, r, b)
    ensures Leads(cfg, from, more, t) && RoundHasLanded(cfg, s, t, r, b)
  {
    hide Leads, GetRound, List, WellFormed, Items, WaiterAsked, HostAfter, ReleasedMore;
    var n, u := GetRound(cfg, r).owner, s;
    more, u := RoundRequested(cfg, from, run, s, r);
    more, t := RoundMoves(cfg, from, more, u, r, b, s.o[n].link.posted);
    assert s.o[n := u.o[n]][n := t.o[n]] == s.o[n := t.o[n]];
  }

  /** Other commands fill the objects of `ls` with ones. */
  lemma {:induction false} WritesAll(cfg: Config, from: State, run: seq<Action>, s: State, n: nat, ls: seq<Label>)
    returns (more: seq<Action>, t: State)
    requires Leads(cfg, from, run, s) && n in s.o && forall l :: l in ls ==> l.Item?
    ensures Leads(cfg, from, more, t) && n in t.o && t == s.(o := s.o[n := s.o[n].(mem := t.o[n].mem)])
    ensures forall l :: l in ls ==>
              ObjectOf(l) in t.o[n].mem && t.o[n].mem[ObjectOf(l)] == Fill(cfg.size(ObjectOf(l)), 1)
  {
    hide Leads;
    if ls == [] {
      more, t := run, s;
      assert s.o[n := s.o[n]] == s.o;
    } else {
      var l := ls[|ls| - 1];
      var a := OwnerWrites(n, l.obj, Fill(cfg.size(l.obj), 1));
      var u: State;
      more, u := WritesAll(cfg, from, run, s, n, ls[..|ls| - 1]);
      Then(cfg, from, more, u, a);
      more, t := more + [a], Apply(cfg, a, u);
      assert ls == ls[..|ls| - 1] + [l];
      assert t.o == s.o[n := s.o[n].(mem := t.o[n].mem)];
    }
  }

  /** Other commands fill the objects of a round with ones before it is requested. */
  lemma LandsWritten(cfg: Config, from: State, run: seq<Action>, s: State, r: nat)
    returns (more: seq<Action>, t: State)
    requires WellFormed(cfg) && !cfg.apart && r < |cfg.rounds| && Leads(cfg, from, run, s) && MayLand(cfg, s, r)
    ensures Leads(cfg, from, more, t) && RoundHasLanded(cfg, s, t, r, 1)
  {
    hide Leads, List, WellFormed, Items, WaiterAsked, HostHas, ReleasedMore;
    var n, u := GetRound(cfg, r).owner, s;
    ItemsOfRound(cfg, r);
    more, u := WritesAll(cfg, from, run, s, n, Items(cfg, AtOwner, r));
    AllFilled(cfg, u.o, r);
    more, t := RoundLands(cfg, from, more, u, r, 1);
    assert s.o[n := u.o[n]][n := t.o[n]] == s.o[n := t.o[n]];
  }

  lemma AllFilled(cfg: Config, o: map<nat, Owner>, r: nat)
    requires GetRound(cfg, r).owner in o
    requires var mem := o[GetRound(cfg, r).owner].mem;
             forall l :: l in Items(cfg, AtOwner, r) ==>
               ObjectOf(l) in mem && mem[ObjectOf(l)] == Fill(cfg.size(ObjectOf(l)), 1)
    ensures FilledAt(cfg, o, r, 1)
  {
    forall x | x in List(cfg, AtOwner, r)
      ensures x in o[GetRound(cfg, r).owner].mem && o[GetRound(cfg, r).owner].mem[x] == Fill(cfg.size(x), 1)
    {
      var i :| 0 <= i < |List(cfg, AtOwner, r)| && List(cfg, AtOwner, r)[i] == x;
      assert Items(cfg, AtOwner, r)[i] == Item(r, x);
      assert Item(r, x) in Items(cfg, AtOwner, r);
    }
  }

  /** The chains of `ls` are the first of a queue. */
  predicate AtLane(lane: Lane, ls: seq<Label>) {
    ls <= lane.log && lane.pos == 0 && lane.stage == Idle
  }

  /** The host's copy of an object is full of ones. */
  predicate FullCopy(cfg: Config, h: HostState, l: Label) {
    HasCopy(cfg, h, l) && h.cache[l.obj] == Fill(cfg.size(l.obj), 1)
  }

  // ---- the contents that are acquired ----

  predicate AllZero(data: Bytes) {
    forall i :: 0 <= i < |data| ==> data[i] == 0
  }

  lemma {:induction false} CopiesHold(cfg: Config, h: HostState, ls: seq<Label>, l: Label)
    requires l in ls && FullCopy(cfg, h, l) && cfg.size(l.obj) > 0
    ensures !AllZero(Copies(h.cache, ls))
  {
    var front, last := ls[..|ls| - 1], ls[|ls| - 1];
    var data := Copies(h.cache, ls);
    if last == l {
      assert data[|Copies(h.cache, front)|] == 1;
    } else {
      CopiesHold(cfg, h, front, l);
      var i :| 0 <= i < |Copies(h.cache, front)| && Copies(h.cache, front)[i] != 0;
      assert data[i] != 0;
    }
  }

  lemma {:induction false} ZeroData(cs: seq<Chunk>)
    requires forall c :: c in cs ==> AllZero(c.bytes)
    ensures AllZero(Data(cs))
  {
    if cs != [] {
      ZeroData(cs[..|cs| - 1]);
      assert cs[|cs| - 1] in cs;
    }
  }

  /** If all chunks of round `a` held what was released, there would be nothing but zeros. */
  lemma RightIsZero(cfg: Config, s: State, a: nat, cs: seq<Chunk>)
    requires WellFormed(cfg) && a < |cfg.rounds| && Labels(cs) == Items(cfg, AtWaiter, a)
    requires forall l :: l in Items(cfg, AtOwner, a) ==>
               l in s.released && s.released[l] == Fill(cfg.size(ObjectOf(l)), 0)
    requires forall c :: c in cs ==> Right(s, c)
    ensures AllZero(Data(cs))
  {
    forall c | c in cs ensures AllZero(c.bytes) {
      var k :| 0 <= k < |cs| && cs[k] == c;
      assert Labels(cs)[k] == c.tag;
      assert c.tag in Items(cfg, AtWaiter, a) && c.tag.obj in List(cfg, AtWaiter, a);
      assert WellFormedRound(cfg.rounds[a]);
      assert c.tag.obj in Set(List(cfg, AtWaiter, a));
      assert c.tag.obj in Set(List(cfg, AtOwner, a));
      var j :| 0 <= j < |List(cfg, AtOwner, a)| && List(cfg, AtOwner, a)[j] == c.tag.obj;
      assert Items(cfg, AtOwner, a)[j] == c.tag;
    }
    ZeroData(cs);
  }

  /** The host sends the objects of the first round, and the waiting node acquires them. */
  lemma FirstAcquired(cfg: Config, from: State, run: seq<Action>, s: State, a: nat)
    returns (more: seq<Action>, t: State, cs: seq<Chunk>)
    requires WellFormed(cfg) && a < |cfg.rounds| && Leads(cfg, from, run, s) && s.w.link == EMPTY && s.w.installed == []
    requires CachedAll(Items(cfg, AtHost, a)) <= s.h.sends && a in s.replicas
    requires forall l :: l in Items(cfg, AtHost, a) ==> HasCopy(cfg, s.h, l)
    requires AtLane(LaneOf(s.w, GetRound(cfg, a).queue), Items(cfg, AtWaiter, a))
    ensures Leads(cfg, from, more, t) && t.released == s.released && t.w.installed == cs && t.w.asked == s.w.asked
    ensures Labels(cs) == Items(cfg, AtWaiter, a) && Data(cs) == Copies(s.h.cache, Items(cfg, AtHost, a))
  {
    hide Leads, GetRound, List, Total, WellFormed, LaneOf, Tagged, CachedAll, Copies, Data, Labels;
    var x, y, q := Items(cfg, AtHost, a), Items(cfg, AtWaiter, a), GetRound(cfg, a).queue;
    var u: State;
    assert s.h.sends[0..] == s.h.sends;
    more, u := TransmitsMany(cfg, from, run, s, x);
    CopiesLength(cfg, s.h, x);
    SameTotal(cfg, a, AtHost, AtWaiter);
    NoBytesBefore(Copies(s.h.cache, x));
    forall l | l in y ensures Takable(cfg, u, q, l) {
      RoundItems(cfg, AtWaiter, a, l);
    }
    SameLane(s.w, u.w, q);
    assert LaneOf(u.w, q).log[0..] == LaneOf(u.w, q).log;
    more, t, cs := TakesMany(cfg, from, more, u, q, y);
    WholeOf(u.w.link.wire, Total(cfg.size, y));
    assert [] + cs == cs;
  }

  lemma WholeOf(x: Bytes, k: nat)
    requires k == |x|
    ensures x[..k] == x
  {
  }

  lemma SameLane(w: Waiter, w': Waiter, q: nat)
    requires w'.lanes == w.lanes
    ensures LaneOf(w', q) == LaneOf(w, q)
  {
  }

  // ---- the first round of a run ----

  /** The objects of a round have reached the host, which has sent nothing, and the waiting node is ready for
      them; zeros were released for all of them. */
  ghost predicate ToForward(cfg: Config, s: State, r: nat) {
    && CachedAll(Items(cfg, AtHost, r)) <= s.h.sends
    && (forall l :: l in Items(cfg, AtHost, r) ==> HasCopy(cfg, s.h, l))
    && s.w.link == EMPTY && s.w.installed == [] && r in s.replicas
    && AtLane(LaneOf(s.w, GetRound(cfg, r).queue), Items(cfg, AtWaiter, r))
    && forall l :: l in Items(cfg, AtOwner, r) ==> l in s.released && s.released[l] == Fill(cfg.size(ObjectOf(l)), 0)
  }

  /** If the host forwards an object full of ones, the zeros that were released for it are not what is acquired. */
  lemma CopyGoesWrong(cfg: Config, from: State, run: seq<Action>, u: State, a: nat, l: Label)
    returns (more: seq<Action>, s: State, c: Chunk)
    requires WellFormed(cfg) && a < |cfg.rounds| && Leads(cfg, from, run, u) && ToForward(cfg, u, a)
    requires l in Items(cfg, AtHost, a) && FullCopy(cfg, u.h, l)
    ensures Leads(cfg, from, more, s) && c in s.w.installed && !Right(s, c) && s.w.asked == u.w.asked
  {
    assert cfg.size(l.obj) > 0;
    hide Leads, GetRound, List, LaneOf, CachedAll, Copies, Data, Labels, Fill, FullCopy, AllZero, Items, Right,
      WellFormed;
    var cs: seq<Chunk>;
    more, s, cs := FirstAcquired(cfg, from, run, u, a);
    CopiesHold(cfg, u.h, Items(cfg, AtHost, a), l);
    if forall c :: c in cs ==> Right(s, c) {
      RightIsZero(cfg, s, a, cs);
    }
    c :| c in cs && !Right(s, c);
  }

  /** Nothing else has happened. */
  ghost predicate OnlyLanded(cfg: Config, s: State, r: nat) {
    && ToForward(cfg, s, r) && HostRests(s.h) && s.events == s.replicas == {r} && s.w.asked == Mail([r], 1)
    && s.w.loop == [] && s.o.Keys == Owners(cfg) && (forall n :: n in s.o ==> Rested(s.o[n]))
    && forall l :: l in Items(cfg, AtHost, r) ==> l in s.h.landed && s.h.landed[l] == Fill(cfg.size(ObjectOf(l)), 0)
  }

  lemma BlankIsReady(cfg: Config, r: nat)
    requires WellFormed(cfg) && r < |cfg.rounds|
    ensures MayLand(cfg, Blank(cfg), r) && FilledAt(cfg, Blank(cfg).o, r, 0)
    ensures Blank(cfg).o.Keys == Owners(cfg) && forall n :: n in Owners(cfg) ==> Rested(Blank(cfg).o[n])
    ensures forall q :: LaneOf(Blank(cfg).w, q) == NEW_LANE
  {
    AtFirst(cfg, r);
  }

  lemma OneLanded(cfg: Config, r: nat) returns (run: seq<Action>, s: State)
    requires WellFormed(cfg) && !cfg.apart && r < |cfg.rounds|
    ensures Leads(cfg, Blank(cfg), run, s) && OnlyLanded(cfg, s, r)
  {
    hide Leads, WellFormed, MayLand, FilledAt, RoundHasLanded, OnlyLanded, Owners;
    BlankIsReady(cfg, r);
    Begin(cfg, Blank(cfg));
    run, s := RoundLands(cfg, Blank(cfg), [], Blank(cfg), r, 0);
    FirstHasLanded(cfg, s, r);
  }

  lemma FirstHasLanded(cfg: Config, t: State, r: nat)
    requires WellFormed(cfg) && r < |cfg.rounds| && RoundHasLanded(cfg, Blank(cfg), t, r, 0)
    ensures OnlyLanded(cfg, t, r)
  {
    var s := Blank(cfg);
    BlankIsReady(cfg, r);
    FirstHost(cfg, s.h, t.h, r);
    FirstLane(cfg, s.w, t.w, r);
    assert [] + [r] == [r];
    hide HostHas, Zeros, Owners, GetRound, List, LaneOf, Items;
  }

  lemma FirstHost(cfg: Config, h: HostState, h': HostState, r: nat)
    requires h.sends == [] && HostHas(cfg, h, h', r, 0)
    ensures CachedAll(Items(cfg, AtHost, r)) <= h'.sends
    ensures forall l :: l in Items(cfg, AtHost, r) ==> HasCopy(cfg, h', l)
    ensures forall l :: l in Items(cfg, AtHost, r) ==> l in h'.landed && h'.landed[l] == Fill(cfg.size(ObjectOf(l)), 0)
  {
    ItemsOfRound(cfg, r);
    assert [] + CachedAll(Items(cfg, AtHost, r)) == CachedAll(Items(cfg, AtHost, r));
  }

  lemma FirstLane(cfg: Config, w: Waiter, w': Waiter, r: nat)
    requires WaiterAsked(cfg, w, w', r) && LaneOf(w, GetRound(cfg, r).queue) == NEW_LANE
    ensures AtLane(LaneOf(w', GetRound(cfg, r).queue), Items(cfg, AtWaiter, r))
  {
    hide LaneOf, Items;
    NothingBefore(Items(cfg, AtWaiter, r));
  }

  /** A second round leaves what the first one needs; but the common objects are overwritten. */
  lemma SecondHasLanded(cfg: Config, s: State, t: State, a: nat, b: nat)
    requires a != b && ToForward(cfg, s, a) && RoundHasLanded(cfg, s, t, b, 1)
    ensures ToForward(cfg, t, a)
    ensures forall l :: l in Items(cfg, AtHost, a) && Concerns(Items(cfg, AtHost, b), ObjectOf(l)) ==>
              FullCopy(cfg, t.h, l)
  {
    SecondCopies(cfg, s.h, t.h, a, b);
    SecondSends(cfg, s.h, t.h, a, b);
    ItemsOfRound(cfg, a);
    ItemsOfRound(cfg, b);
    hide HostHas, Items, GetRound, List, LaneOf, Concerns;
  }

  lemma SecondSends(cfg: Config, h: HostState, h': HostState, a: nat, b: nat)
    requires CachedAll(Items(cfg, AtHost, a)) <= h.sends && HostHas(cfg, h, h', b, 1)
    ensures CachedAll(Items(cfg, AtHost, a)) <= h'.sends
  {
  }

  lemma SecondCopies(cfg: Config, h: HostState, h': HostState, a: nat, b: nat)
    requires HostHas(cfg, h, h', b, 1) && forall l :: l in Items(cfg, AtHost, a) ==> HasCopy(cfg, h, l)
    ensures forall l :: l in Items(cfg, AtHost, a) ==> HasCopy(cfg, h', l)
    ensures forall l :: l in Items(cfg, AtHost, a) && Concerns(Items(cfg, AtHost, b), ObjectOf(l)) ==>
              FullCopy(cfg, h', l)
  {
    forall l | l in Items(cfg, AtHost, a)
      ensures HasCopy(cfg, h', l) && (Concerns(Items(cfg, AtHost, b), ObjectOf(l)) ==> FullCopy(cfg, h', l))
    {
      if Concerns(Items(cfg, AtHost, b), l.obj) {
        var k :| k in Items(cfg, AtHost, b) && ObjectOf(k) == l.obj;
      }
    }
  }
}
