/**
 Runs, built phase by phase: requests, release chains of an owner, receives and sends of the host, acquire
 chains of the waiting node.
 */
module SyncPhases {
  import opened Seqs
  import opened Links
  import opened SyncProtocol
  import opened SyncLists
  import opened SyncExact

  // ---- beginning ----

  /** A run from one state to another. */
  ghost predicate Leads(cfg: Config, from: State, run: seq<Action>, s: State) {
    Exec(cfg, from, run) == Some(s)
  }

  lemma Begin(cfg: Config, s: State)
    ensures Leads(cfg, s, [], s)
  {
  }

  lemma Then(cfg: Config, from: State, run: seq<Action>, s: State, a: Action)
    requires Leads(cfg, from, run, s) && Enabled(cfg, a, s)
    ensures Leads(cfg, from, run + [a], Apply(cfg, a, s))
  {
    hide Enabled, Apply;
    assert (run + [a])[..|run|] == run;
  }

  /** Every object is full of zeros. */
  ghost function Zeros(cfg: Config): map<nat, map<Obj, Bytes>> {
    map n | n in Owners(cfg) :: map x | x in Objects(cfg) :: Fill(cfg.size(x), 0)
  }

  /** The objects of a round are full of zeros on its owner. */
  ghost predicate ZeroAt(cfg: Config, o: map<nat, Owner>, r: nat) {
    var n := GetRound(cfg, r).owner;
    n in o && forall x :: x in List(cfg, AtOwner, r) ==> x in o[n].mem && o[n].mem[x] == Fill(cfg.size(x), 0)
  }

  /** Nothing has happened yet. */
  ghost function Blank(cfg: Config): State {
    Init(Zeros(cfg), map[])
  }

  lemma BlankReaches(cfg: Config, run: seq<Action>, s: State)
    requires Leads(cfg, Blank(cfg), run, s)
    ensures Reaches(cfg, run, s)
  {
    assert Memory(cfg, Zeros(cfg)) && Exec(cfg, Init(Zeros(cfg), map[]), run) == Some(s);
  }

  lemma AtFirst(cfg: Config, r: nat)
    requires WellFormed(cfg) && r < |cfg.rounds|
    ensures var s := Blank(cfg);
            ZeroAt(cfg, s.o, r) && Fresh(s.o[GetRound(cfg, r).owner], []) && forall q :: LaneOf(s.w, q) == NEW_LANE
    ensures GetRound(cfg, r).own != [] && GetRound(cfg, r).wait != [] && GetRound(cfg, r).host != []
  {
    var q := cfg.rounds[r];
    assert WellFormedRound(q);
    NoObjects(q.own);
    NoObjects(q.host);
    NoObjects(q.wait);
  }

  /** An owner that has been told of `rs` and has done nothing yet. */
  predicate Fresh(o: Owner, rs: seq<nat>) {
    o.lane == NEW_LANE && o.loop == [] && o.link == EMPTY.(posted := o.link.posted) && o.orders == Mail(rs, 0)
  }

  /** The event of a round completes, and the waiting node hears of it. */
  lemma Completes(cfg: Config, from: State, run: seq<Action>, s: State, r: nat) returns (more: seq<Action>, t: State)
    requires Leads(cfg, from, run, s) && r < |cfg.rounds| && r !in s.events && r !in s.replicas
    ensures Leads(cfg, from, more, t) && t == s.(events := s.events + {r}, replicas := s.replicas + {r})
  {
    hide Leads;
    Then(cfg, from, run, s, EventCompletes(r));
    var u := Apply(cfg, EventCompletes(r), s);
    Then(cfg, from, run + [EventCompletes(r)], u, ReplicaCompletes(r));
    more, t := run + [EventCompletes(r)] + [ReplicaCompletes(r)], Apply(cfg, ReplicaCompletes(r), u);
  }

  // ---- the waiting node requests a round ----

  /** `t` differs from `s` in the waiting node's requests and chains only. */
  predicate Requests(s: State, t: State) {
    t == s.(w := s.w.(asked := t.w.asked, lanes := t.w.lanes, segs := t.w.segs, loop := t.w.loop))
  }

  lemma {:induction false} EnqueueAll(cfg: Config, from: State, run: seq<Action>, s: State, q: nat)
          returns (more: seq<Action>, t: State)
    requires Leads(cfg, from, run, s) && forall l :: l in s.w.loop ==> GetRound(cfg, RoundOf(l)).queue == q
    ensures Leads(cfg, from, more, t) && Requests(s, t) && t.w.loop == [] && t.w.asked == s.w.asked
    ensures LaneOf(t.w, q) == LaneOf(s.w, q).(log := LaneOf(s.w, q).log + s.w.loop)
    ensures forall p :: p != q ==> LaneOf(t.w, p) == LaneOf(s.w, p)
    decreases |s.w.loop|
  {
    hide Leads;
    if s.w.loop == [] {
      more, t := run, s;
      assert LaneOf(s.w, q).log + [] == LaneOf(s.w, q).log;
    } else {
      assert s.w.loop[0] in s.w.loop;
      Then(cfg, from, run, s, WEnqueue);
      var u := Apply(cfg, WEnqueue, s);
      more, t := EnqueueAll(cfg, from, run + [WEnqueue], u, q);
      assert LaneOf(s.w, q).log + [s.w.loop[0]] + s.w.loop[1..] == LaneOf(s.w, q).log + s.w.loop;
    }
  }

  lemma Asks(cfg: Config, from: State, run: seq<Action>, s: State, r: nat) returns (more: seq<Action>, t: State)
    requires Leads(cfg, from, run, s) && !cfg.apart && r < |cfg.rounds| && r !in s.w.asked.log && s.w.loop == []
    ensures Leads(cfg, from, more, t) && Requests(s, t) && t.w.loop == []
    ensures t.w.asked == s.w.asked.(log := s.w.asked.log + [r])
    ensures var q := GetRound(cfg, r).queue;
            && LaneOf(t.w, q) == LaneOf(s.w, q).(log := LaneOf(s.w, q).log + Items(cfg, AtWaiter, r))
            && forall p :: p != q ==> LaneOf(t.w, p) == LaneOf(s.w, p)
  {
    hide Leads;
    Then(cfg, from, run, s, WSync(r));
    more, t := EnqueueAll(cfg, from, run + [WSync(r)], Apply(cfg, WSync(r), s), GetRound(cfg, r).queue);
  }

  // ---- the host serves a request ----

  /** `t` differs from `s` in the stream from owner `n` and in where the host is. */
  ghost predicate Serves(s: State, t: State, n: nat, posted: seq<Label>) {
    && n in s.o && t == s.(o := t.o, h := s.h.(loop := [], posting := None, postingLanded := t.h.postingLanded))
    && t.o == s.o[n := s.o[n].(link := s.o[n].link.(posted := s.o[n].link.posted + posted))]
  }

  lemma {:induction false} PostAll(cfg: Config, from: State, run: seq<Action>, s: State, n: nat)
          returns (more: seq<Action>, t: State)
    requires Leads(cfg, from, run, s) && n in s.o && s.h.posting == None
    requires forall l :: l in s.h.loop ==> GetRound(cfg, RoundOf(l)).owner == n
    ensures Leads(cfg, from, more, t) && Serves(s, t, n, s.h.loop)
    decreases |s.h.loop|
  {
    hide Leads;
    if s.h.loop == [] {
      more, t := run, s;
      assert s.o[n].link.posted + [] == s.o[n].link.posted;
      assert s.o[n := s.o[n]] == s.o;
    } else {
      var l := s.h.loop[0];
      assert l in s.h.loop;
      Then(cfg, from, run, s, HPost);
      var u := Apply(cfg, HPost, s);
      Then(cfg, from, run + [HPost], u, HSetCallback);
      var v := Apply(cfg, HSetCallback, u);
      assert v.h.sends == s.h.sends + [] == s.h.sends;
      more, t := PostAll(cfg, from, run + [HPost] + [HSetCallback], v, n);
      assert s.o[n].link.posted + [l] + s.h.loop[1..] == s.o[n].link.posted + s.h.loop;
    }
  }

  lemma Forwards(cfg: Config, from: State, run: seq<Action>, s: State) returns (more: seq<Action>, t: State)
    requires Leads(cfg, from, run, s) && s.w.asked.seen < |s.w.asked.log| && s.h.loop == [] && s.h.posting == None
    requires GetRound(cfg, s.w.asked.log[s.w.asked.seen]).owner in s.o
    ensures Leads(cfg, from, more, t)
    ensures var r := s.w.asked.log[s.w.asked.seen]; var n := GetRound(cfg, r).owner; var o := s.o[n];
            && t == s.(o := t.o, w := s.w.(asked := s.w.asked.(seen := s.w.asked.seen + 1)),
                       h := s.h.(loop := [], posting := None, postingLanded := t.h.postingLanded))
            && n in t.o && t.o == s.o[n := o.(orders := o.orders.(log := o.orders.log + [r]), segs := t.o[n].segs,
                                              link := o.link.(posted := o.link.posted + Items(cfg, AtHost, r)))]
  {
    hide Leads;
    Then(cfg, from, run, s, HSync);
    var n := GetRound(cfg, s.w.asked.log[s.w.asked.seen]).owner;
    more, t := PostAll(cfg, from, run + [HSync], Apply(cfg, HSync, s), n);
  }

  // ---- release chains ----

  lemma {:induction false} ReleaseAll(cfg: Config, from: State, run: seq<Action>, s: State, n: nat)
          returns (more: seq<Action>, t: State)
    requires Leads(cfg, from, run, s) && n in s.o
    ensures Leads(cfg, from, more, t)
    ensures t == Put(s, n, s.o[n].(loop := [], lane := s.o[n].lane.(log := s.o[n].lane.log + s.o[n].loop)))
    decreases |At(s, n).loop|
  {
    hide Leads;
    var o := s.o[n];
    if o.loop == [] {
      more, t := run, s;
      assert o.lane.log + [] == o.lane.log;
      assert s.o[n := o] == s.o;
    } else {
      Then(cfg, from, run, s, OEnqueue(n));
      var u := Apply(cfg, OEnqueue(n), s);
      assert o.lane.log + [o.loop[0]] + o.loop[1..] == o.lane.log + o.loop;
      more, t := ReleaseAll(cfg, from, run + [OEnqueue(n)], u, n);
    }
  }

  lemma Orders(cfg: Config, from: State, run: seq<Action>, s: State, n: nat) returns (more: seq<Action>, t: State)
    requires Leads(cfg, from, run, s) && n in s.o && s.o[n].orders.seen < |s.o[n].orders.log| && s.o[n].loop == []
    ensures Leads(cfg, from, more, t)
    ensures var o := s.o[n];
            t == Put(s, n, o.(orders := o.orders.(seen := o.orders.seen + 1), loop := [],
                              lane := o.lane.(log := o.lane.log + Items(cfg, AtOwner, o.orders.log[o.orders.seen]))))
  {
    hide Leads;
    Then(cfg, from, run, s, OSync(n));
    more, t := ReleaseAll(cfg, from, run + [OSync(n)], Apply(cfg, OSync(n), s), n);
  }

  lemma FillMore(m: nat, n: nat, b: byte)
    ensures Fill(m, b) + Fill(n, b) == Fill(m + n, b)
  {
  }

  predicate Movable(cfg: Config, s: State, n: nat, l: Label, b: byte) {
    && l.Item? && l.round in s.events
    && n in s.o && l.obj in s.o[n].mem && s.o[n].mem[l.obj] == Fill(cfg.size(l.obj), b)
  }

  /** One chain of the owner: map, send, unmap. */
  lemma SendsOne(cfg: Config, from: State, run: seq<Action>, s: State, n: nat) returns (more: seq<Action>, t: State)
    requires Leads(cfg, from, run, s) && n in s.o && AtStage(s.o[n].lane, Idle)
    requires RoundOf(Head(s.o[n].lane)) in s.events && ObjectOf(Head(s.o[n].lane)) in s.o[n].mem
    ensures Leads(cfg, from, more, t)
    ensures var o := s.o[n]; var c := Chunk(Head(o.lane), o.mem[ObjectOf(Head(o.lane))]);
            t == Put(s, n, o.(lane := o.lane.(pos := o.lane.pos + 1, buffer := c.bytes), link := Sent(o.link, c)))
                   .(released := s.released[c.tag := c.bytes])
  {
    hide Leads;
    Then(cfg, from, run, s, OMap(n));
    var u := Apply(cfg, OMap(n), s);
    Then(cfg, from, run + [OMap(n)], u, OSend(n));
    var v := Apply(cfg, OSend(n), u);
    Then(cfg, from, run + [OMap(n)] + [OSend(n)], v, OUnmap(n));
    more, t := run + [OMap(n)] + [OSend(n)] + [OUnmap(n)], Apply(cfg, OUnmap(n), v);
    assert t.o == s.o[n := t.o[n]];
  }

  /** `t` is `s` after owner `n` has sent the objects of `ls`, all full of `b`. */
  ghost predicate HasSent(cfg: Config, s: State, t: State, n: nat, ls: seq<Label>, b: byte) {
    && n in s.o && n in t.o && t == s.(o := s.o[n := t.o[n]], released := t.released)
    && t.o[n] == s.o[n].(lane := s.o[n].lane.(pos := s.o[n].lane.pos + |ls|, buffer := t.o[n].lane.buffer),
                         link := s.o[n].link.(sent := t.o[n].link.sent,
                                              wire := s.o[n].link.wire + Fill(Total(cfg.size, ls), b)))
    && (forall l :: l in t.released <==> l in s.released || l in ls)
    && (forall l :: l in ls ==> t.released[l] == Fill(cfg.size(ObjectOf(l)), b))
    && (forall l :: l in s.released && l !in ls ==> t.released[l] == s.released[l])
  }

  lemma {:induction false} SendsMany(cfg: Config, from: State, run: seq<Action>, s: State, n: nat, ls: seq<Label>,
          b: byte)
    returns (more: seq<Action>, t: State)
    requires Leads(cfg, from, run, s) && n in s.o && s.o[n].lane.stage == Idle && s.o[n].lane.pos <= |s.o[n].lane.log|
    requires ls <= s.o[n].lane.log[s.o[n].lane.pos..] && forall l :: l in ls ==> Movable(cfg, s, n, l, b)
    ensures Leads(cfg, from, more, t) && HasSent(cfg, s, t, n, ls, b)
  {
    hide Leads;
    if ls == [] {
      more, t := run, s;
      assert s.o[n].link.wire + Fill(0, b) == s.o[n].link.wire && s.o[n := s.o[n]] == s.o;
    } else {
      var front, l := ls[..|ls| - 1], ls[|ls| - 1];
      var u: State;
      more, u := SendsMany(cfg, from, run, s, n, front, b);
      assert Movable(cfg, s, n, l, b);
      assert s.o[n].lane.log[s.o[n].lane.pos..][|ls| - 1] == l;
      more, t := SendsOne(cfg, from, more, u, n);
      SentLast(cfg, s, u, t, n, ls, b);
    }
  }

  lemma SentLast(cfg: Config, s: State, u: State, t: State, n: nat, ls: seq<Label>, b: byte)
    requires ls != [] && HasSent(cfg, s, u, n, ls[..|ls| - 1], b) && ls[|ls| - 1].Item?
    requires var o := u.o[n]; var c := Chunk(ls[|ls| - 1], Fill(cfg.size(ls[|ls| - 1].obj), b));
             t == Put(u, n, o.(lane := o.lane.(pos := o.lane.pos + 1, buffer := c.bytes), link := Sent(o.link, c)))
                    .(released := u.released[c.tag := c.bytes])
    ensures HasSent(cfg, s, t, n, ls, b)
  {
    var front, l := ls[..|ls| - 1], ls[|ls| - 1];
    assert ls == front + [l];
    FillMore(Total(cfg.size, front), cfg.size(l.obj), b);
    Assoc(s.o[n].link.wire, Fill(Total(cfg.size, front), b), Fill(cfg.size(l.obj), b));
  }

  // ---- the host receives ----

  function CachedAll(ls: seq<Label>): seq<Send> {
    seq(|ls|, i requires 0 <= i < |ls| => Cached(ls[i]))
  }

  lemma ReceivesOne(cfg: Config, from: State, run: seq<Action>, s: State, n: nat) returns (more: seq<Action>, t: State)
    requires Leads(cfg, from, run, s) && n in s.o && s.h.trigger == None && s.h.posting == None
    requires CanReceive(cfg.size, s.o[n].link) && Next(cfg.size, s.o[n].link).tag.Item?
    ensures Leads(cfg, from, more, t)
    ensures var c := Next(cfg.size, s.o[n].link);
            t == Put(s, n, s.o[n].(link := Received(cfg.size, s.o[n].link)))
                   .(h := s.h.(sends := s.h.sends + [Cached(c.tag)], cache := s.h.cache[c.tag.obj := c.bytes],
                               landed := s.h.landed[c.tag := c.bytes]))
  {
    hide Leads;
    Then(cfg, from, run, s, HReceive(n));
    var u := Apply(cfg, HReceive(n), s);
    Then(cfg, from, run + [HReceive(n)], u, HTrigger);
    more, t := run + [HReceive(n)] + [HTrigger], Apply(cfg, HTrigger, u);
  }

  predicate Concerns(ls: seq<Label>, x: Obj) {
    exists l :: l in ls && ObjectOf(l) == x
  }

  /** `rest` is `wire` without the bytes of `ls`. */
  predicate IsRest(size: Obj -> nat, wire: Bytes, rest: Bytes, ls: seq<Label>) {
    Total(size, ls) <= |wire| && rest == wire[Total(size, ls)..]
  }

  /** What the receives for `ls`, all full of `b`, do to the stream and to the host. */
  ghost predicate LinkAfter(size: Obj -> nat, link: Link, link': Link, ls: seq<Label>) {
    && link' == link.(got := link'.got, wire := link'.wire)
    && |link'.got| == |link.got| + |ls| && IsRest(size, link.wire, link'.wire, ls)
  }

  ghost predicate HostAfter(size: Obj -> nat, h: HostState, h': HostState, ls: seq<Label>, b: byte) {
    && h' == h.(sends := h.sends + CachedAll(ls), cache := h'.cache, landed := h'.landed)
    && (forall l :: l in ls ==> ObjectOf(l) in h'.cache && h'.cache[ObjectOf(l)] == Fill(size(ObjectOf(l)), b))
    && (forall x :: x in h.cache && !Concerns(ls, x) ==> x in h'.cache && h'.cache[x] == h.cache[x])
    && (forall l :: l in ls ==> l in h'.landed && h'.landed[l] == Fill(size(ObjectOf(l)), b))
    && (forall l :: l in h.landed && l !in ls ==> l in h'.landed && h'.landed[l] == h.landed[l])
  }

  /** `t` is `s` after the host has received the objects of `ls`, all full of `b`, from owner `n`. */
  ghost predicate HasReceived(cfg: Config, s: State, t: State, n: nat, ls: seq<Label>, b: byte) {
    && n in s.o && n in t.o && t == s.(o := s.o[n := t.o[n]], h := t.h) && t.o[n] == s.o[n].(link := t.o[n].link)
    && LinkAfter(cfg.size, s.o[n].link, t.o[n].link, ls) && HostAfter(cfg.size, s.h, t.h, ls, b)
  }

  lemma {:induction false} ReceivesMany(cfg: Config, from: State, run: seq<Action>, s: State, n: nat, ls: seq<Label>,
          b: byte)
    returns (more: seq<Action>, t: State)
    requires Leads(cfg, from, run, s) && n in s.o && s.h.trigger == None && s.h.posting == None
    requires |s.o[n].link.got| <= |s.o[n].link.posted| && ls <= s.o[n].link.posted[|s.o[n].link.got|..]
    requires (forall l :: l in ls ==> l.Item?) && Fill(Total(cfg.size, ls), b) <= s.o[n].link.wire
    ensures Leads(cfg, from, more, t) && HasReceived(cfg, s, t, n, ls, b)
  {
    hide Leads;
    var link := s.o[n].link;
    if ls == [] {
      more, t := run, s;
      assert s.h.sends + CachedAll([]) == s.h.sends && s.o[n := s.o[n]] == s.o;
      assert IsRest(cfg.size, link.wire, link.wire, []);
    } else {
      var front, l := ls[..|ls| - 1], ls[|ls| - 1];
      var u: State;
      FillStarts(Total(cfg.size, front), cfg.size(l.obj), b, link.wire);
      more, u := ReceivesMany(cfg, from, run, s, n, front, b);
      assert link.posted[|link.got|..][|ls| - 1] == l;
      more, t := ReceivesOne(cfg, from, more, u, n);
      ReceivedLast(cfg, s, u, t, n, ls, b);
    }
  }

  lemma FillStarts(m: nat, n: nat, b: byte, wire: Bytes)
    requires Fill(m + n, b) <= wire
    ensures Fill(m, b) <= wire && Fill(n, b) <= wire[m..]
    ensures wire[m..][..n] == Fill(n, b) && wire[m..][n..] == wire[m + n..]
  {
    FillMore(m, n, b);
  }

  lemma RestMore(size: Obj -> nat, wire: Bytes, rest: Bytes, front: seq<Label>, l: Label)
    requires IsRest(size, wire, rest, front) && Len(size, l) <= |rest|
    ensures IsRest(size, wire, rest[Len(size, l)..], front + [l])
  {
    TotalLast(size, front + [l]);
    assert (front + [l])[..|front|] == front;
    SliceMore(wire, Total(size, front), Len(size, l));
  }

  lemma SliceMore(wire: Bytes, k: nat, m: nat)
    requires k + m <= |wire|
    ensures wire[..k] + wire[k..][..m] == wire[..k + m] && wire[k..][m..] == wire[k + m..]
  {
  }

  lemma TotalLast(size: Obj -> nat, ls: seq<Label>)
    requires ls != []
    ensures Total(size, ls) == Total(size, ls[..|ls| - 1]) + Len(size, ls[|ls| - 1])
  {
  }

  /** The next receive of the host. */
  ghost predicate OneReceived(cfg: Config, u: State, t: State, n: nat, l: Label) {
    && n in u.o && n in t.o && t == u.(o := u.o[n := t.o[n]], h := t.h) && t.o[n] == u.o[n].(link := t.o[n].link)
    && CanReceive(cfg.size, u.o[n].link) && t.o[n].link == Received(cfg.size, u.o[n].link)
    && NextLands(u.h, t.h, Next(cfg.size, u.o[n].link), l)
  }

  predicate NextLands(h: HostState, h': HostState, c: Chunk, l: Label) {
    && c.tag == l && l.Item?
    && h' == h.(sends := h.sends + [Cached(l)], cache := h.cache[l.obj := c.bytes], landed := h.landed[l := c.bytes])
  }

  lemma ReceivedLast(cfg: Config, s: State, u: State, t: State, n: nat, ls: seq<Label>, b: byte)
    requires ls != [] && HasReceived(cfg, s, u, n, ls[..|ls| - 1], b) && OneReceived(cfg, u, t, n, ls[|ls| - 1])
    requires Fill(Total(cfg.size, ls), b) <= s.o[n].link.wire
    ensures HasReceived(cfg, s, t, n, ls, b)
  {
    hide Total, Fill, LinkAfter, HostAfter, NextLands, CanReceive, Received, Next;
    var front, l := ls[..|ls| - 1], ls[|ls| - 1];
    assert ls == front + [l];
    LinkMore(cfg, s.o[n].link, u.o[n].link, front, s.h, u.h, t.h, l, b);
    assert s.o[n := u.o[n]][n := t.o[n]] == s.o[n := t.o[n]];
  }

  lemma LinkMore(cfg: Config, link: Link, link1: Link, front: seq<Label>, h: HostState, h1: HostState, h2: HostState,
          l: Label, b: byte)
    requires LinkAfter(cfg.size, link, link1, front) && HostAfter(cfg.size, h, h1, front, b)
    requires CanReceive(cfg.size, link1) && NextLands(h1, h2, Next(cfg.size, link1), l)
    requires Fill(Total(cfg.size, front + [l]), b) <= link.wire
    ensures LinkAfter(cfg.size, link, Received(cfg.size, link1), front + [l])
    ensures HostAfter(cfg.size, h, h2, front + [l], b)
  {
    hide Total, Fill, CachedAll, Concerns, IsRest;
    NextIsFull(cfg, link.wire, link1, front, l, b);
    RestMore(cfg.size, link.wire, link1.wire, front, l);
    CachesMore(cfg, h, h1, h2, front, l, b);
    assert h.sends + CachedAll(front) + [Cached(l)] == h.sends + (CachedAll(front) + [Cached(l)]);
  }

  lemma NextIsFull(cfg: Config, wire: Bytes, link: Link, front: seq<Label>, l: Label, b: byte)
    requires IsRest(cfg.size, wire, link.wire, front) && Fill(Total(cfg.size, front + [l]), b) <= wire
    requires CanReceive(cfg.size, link) && Next(cfg.size, link).tag == l && l.Item?
    ensures Next(cfg.size, link).bytes == Fill(cfg.size(l.obj), b)
  {
    TotalLast(cfg.size, front + [l]);
    assert (front + [l])[..|front|] == front;
    FillStarts(Total(cfg.size, front), cfg.size(l.obj), b, wire);
  }

  lemma CachesMore(cfg: Config, h: HostState, h1: HostState, h2: HostState, front: seq<Label>, l: Label, b: byte)
    requires l.Item? && h2.cache == h1.cache[l.obj := Fill(cfg.size(l.obj), b)]
    requires forall k :: k in front ==>
               ObjectOf(k) in h1.cache && h1.cache[ObjectOf(k)] == Fill(cfg.size(ObjectOf(k)), b)
    requires forall x :: x in h.cache && !Concerns(front, x) ==> x in h1.cache && h1.cache[x] == h.cache[x]
    ensures CachedAll(front + [l]) == CachedAll(front) + [Cached(l)]
    ensures forall k :: k in front + [l] ==>
              ObjectOf(k) in h2.cache && h2.cache[ObjectOf(k)] == Fill(cfg.size(ObjectOf(k)), b)
    ensures forall x :: x in h.cache && !Concerns(front + [l], x) ==> x in h2.cache && h2.cache[x] == h.cache[x]
  {
    forall x | !Concerns(front + [l], x) ensures !Concerns(front, x) && x != l.obj {
      assert l in front + [l];
      assert forall k :: k in front ==> k in front + [l];
    }
  }

  // ---- the host sends what it has cached ----

  lemma Transmits(cfg: Config, from: State, run: seq<Action>, s: State) returns (more: seq<Action>, t: State)
    requires Leads(cfg, from, run, s) && |s.w.link.sent| < |s.h.sends| && Ready(s.h, s.h.sends[|s.w.link.sent|])
    ensures Leads(cfg, from, more, t)
    ensures t == s.(w := s.w.(link := Sent(s.w.link, Transmitted(s.h, s.h.sends[|s.w.link.sent|]))))
  {
    hide Leads;
    Then(cfg, from, run, s, HTransmit);
    more, t := run + [HTransmit], Apply(cfg, HTransmit, s);
  }

  predicate HasCopy(cfg: Config, h: HostState, l: Label) {
    l.Item? && l.obj in h.cache && |h.cache[l.obj]| == cfg.size(l.obj)
  }

  function Copies(cache: map<Obj, Bytes>, ls: seq<Label>): Bytes {
    if ls == [] then [] else
    Copies(cache, ls[..|ls| - 1])
    + if ObjectOf(ls[|ls| - 1]) in cache then cache[ObjectOf(ls[|ls| - 1])] else []
  }

  lemma {:induction false} CopiesLength(cfg: Config, h: HostState, ls: seq<Label>)
    requires forall l :: l in ls ==> HasCopy(cfg, h, l)
    ensures |Copies(h.cache, ls)| == Total(cfg.size, ls)
  {
    if ls != [] {
      CopiesLength(cfg, h, ls[..|ls| - 1]);
      assert HasCopy(cfg, h, ls[|ls| - 1]);
    }
  }

  /** `t` is `s` after the host has sent its copies of the objects of `ls`. */
  ghost predicate HasTransmitted(s: State, t: State, ls: seq<Label>) {
    && t == s.(w := s.w.(link := s.w.link.(sent := t.w.link.sent, wire := s.w.link.wire + Copies(s.h.cache, ls))))
    && |t.w.link.sent| == |s.w.link.sent| + |ls|
  }

  lemma {:induction false} TransmitsMany(cfg: Config, from: State, run: seq<Action>, s: State, ls: seq<Label>)
    returns (more: seq<Action>, t: State)
    requires Leads(cfg, from, run, s) && |s.w.link.sent| <= |s.h.sends| && CachedAll(ls) <= s.h.sends[|s.w.link.sent|..]
    requires forall l :: l in ls ==> HasCopy(cfg, s.h, l)
    ensures Leads(cfg, from, more, t) && HasTransmitted(s, t, ls)
  {
    hide Leads;
    if ls == [] {
      more, t := run, s;
      assert s.w.link.wire + [] == s.w.link.wire;
    } else {
      var front, l := ls[..|ls| - 1], ls[|ls| - 1];
      var u: State;
      assert CachedAll(front) == CachedAll(ls)[..|ls| - 1];
      more, u := TransmitsMany(cfg, from, run, s, front);
      assert HasCopy(cfg, s.h, l);
      assert s.h.sends[|s.w.link.sent|..][|ls| - 1] == CachedAll(ls)[|ls| - 1] == Cached(l);
      more, t := Transmits(cfg, from, more, u);
      Assoc(s.w.link.wire, Copies(s.h.cache, front), s.h.cache[l.obj]);
    }
  }

  // ---- acquire chains ----

  /** The chain at the head of a queue waits for its bytes. */
  lemma Waits(cfg: Config, from: State, run: seq<Action>, s: State, q: nat) returns (more: seq<Action>, t: State)
    requires Leads(cfg, from, run, s) && AtStage(LaneOf(s.w, q), Idle) && RoundOf(Head(LaneOf(s.w, q))) in s.replicas
    ensures Leads(cfg, from, more, t)
    ensures var lane := LaneOf(s.w, q);
            t == s.(w := PutLane(s.w, q, lane.(stage := Waiting)).(link := Posted(s.w.link, Head(lane))))
  {
    hide Leads;
    Then(cfg, from, run, s, WMap(q));
    var u := Apply(cfg, WMap(q), s);
    Then(cfg, from, run + [WMap(q)], u, WPost(q));
    more, t := run + [WMap(q)] + [WPost(q)], Apply(cfg, WPost(q), u);
    assert s.w.lanes[q := LaneOf(s.w, q).(stage := Mapped)][q := LaneOf(s.w, q).(stage := Waiting)]
        == s.w.lanes[q := LaneOf(s.w, q).(stage := Waiting)];
  }

  /** The chain at the head of a queue takes the bytes that arrive first. */
  lemma Takes(cfg: Config, from: State, run: seq<Action>, s: State, q: nat) returns (more: seq<Action>, t: State)
    requires Leads(cfg, from, run, s) && AtStage(LaneOf(s.w, q), Idle)
    requires var l := Head(LaneOf(s.w, q));
             l.Item? && GetRound(cfg, l.round).queue == q && l.round in s.replicas && |s.w.link.wire| >= cfg.size(l.obj)
    requires |s.w.link.got| == |s.w.link.posted|
    ensures Leads(cfg, from, more, t) && t == s.(w := t.w) && t.w.loop == s.w.loop && t.w.asked == s.w.asked
    ensures var lane, link := LaneOf(s.w, q), s.w.link; var l := Head(lane); var bytes := link.wire[..cfg.size(l.obj)];
            && t.w.installed == s.w.installed + [Chunk(l, bytes)]
            && t.w.link == Link(link.sent, link.posted + [l], link.got + [Chunk(l, bytes)],
               link.wire[cfg.size(l.obj)..])
            && LaneOf(t.w, q) == lane.(pos := lane.pos + 1, buffer := bytes)
            && forall p :: p != q ==> LaneOf(t.w, p) == LaneOf(s.w, p)
  {
    hide Leads;
    var l := Head(LaneOf(s.w, q));
    var v: State;
    more, v := Waits(cfg, from, run, s, q);
    assert v.w.link.posted[|v.w.link.got|] == l;
    Then(cfg, from, more, v, WReceive);
    var w := Apply(cfg, WReceive, v);
    Then(cfg, from, more + [WReceive], w, WUnmap(q));
    more, t := more + [WReceive] + [WUnmap(q)], Apply(cfg, WUnmap(q), w);
  }

  /** The chain of `l` is of this queue, and its event is known to be complete. */
  predicate Takable(cfg: Config, s: State, q: nat, l: Label) {
    l.Item? && l.round in s.replicas && GetRound(cfg, l.round).queue == q
  }

  /** `cs` is what receives for `ls` take from `wire`. */
  predicate AreFirst(size: Obj -> nat, wire: Bytes, ls: seq<Label>, cs: seq<Chunk>) {
    Total(size, ls) <= |wire| && Labels(cs) == ls && Data(cs) == wire[..Total(size, ls)]
  }

  /** `t` is `s` after queue `q` has acquired the objects of `ls` with chunks `cs`. */
  ghost predicate HasTaken(cfg: Config, s: State, t: State, q: nat, ls: seq<Label>, cs: seq<Chunk>) {
    && t == s.(w := t.w) && t.w.asked == s.w.asked && |t.w.link.got| == |t.w.link.posted|
    && IsRest(cfg.size, s.w.link.wire, t.w.link.wire, ls) && AreFirst(cfg.size, s.w.link.wire, ls, cs)
    && LaneOf(t.w, q) == LaneOf(s.w, q).(pos := LaneOf(s.w, q).pos + |ls|, buffer := LaneOf(t.w, q).buffer)
    && t.w.installed == s.w.installed + cs
  }

  lemma {:induction false} TakesMany(cfg: Config, from: State, run: seq<Action>, s: State, q: nat, ls: seq<Label>)
    returns (more: seq<Action>, t: State, cs: seq<Chunk>)
    requires Leads(cfg, from, run, s) && LaneOf(s.w, q).stage == Idle && LaneOf(s.w, q).pos <= |LaneOf(s.w, q).log|
    requires ls <= LaneOf(s.w, q).log[LaneOf(s.w, q).pos..] && forall l :: l in ls ==> Takable(cfg, s, q, l)
    requires |s.w.link.got| == |s.w.link.posted| && Total(cfg.size, ls) <= |s.w.link.wire|
    ensures Leads(cfg, from, more, t) && HasTaken(cfg, s, t, q, ls, cs)
  {
    hide Leads, LaneOf;
    if ls == [] {
      more, t, cs := run, s, [];
      assert s.w.installed + [] == s.w.installed && Labels([]) == [] && s.w.link.wire[0..] == s.w.link.wire;
    } else {
      var front, l := ls[..|ls| - 1], ls[|ls| - 1];
      var u: State;
      more, u, cs := TakesMany(cfg, from, run, s, q, front);
      assert Takable(cfg, s, q, l);
      assert LaneOf(s.w, q).log[LaneOf(s.w, q).pos..][|ls| - 1] == l;
      more, t := Takes(cfg, from, more, u, q);
      TakenLast(cfg, s, u, t, q, ls, cs);
      cs := cs + [Chunk(l, u.w.link.wire[..cfg.size(l.obj)])];
    }
  }

  lemma InstalledMore(a: seq<Chunk>, b: seq<Chunk>, c: Chunk)
    ensures a + b + [c] == a + (b + [c])
  {
  }

  lemma FirstMore(size: Obj -> nat, wire: Bytes, rest: Bytes, front: seq<Label>, l: Label, cs: seq<Chunk>)
    requires IsRest(size, wire, rest, front) && AreFirst(size, wire, front, cs) && Len(size, l) <= |rest|
    ensures AreFirst(size, wire, front + [l], cs + [Chunk(l, rest[..Len(size, l)])])
  {
    hide Data;
    TotalLast(size, front + [l]);
    assert (front + [l])[..|front|] == front;
    SliceMore(wire, Total(size, front), Len(size, l));
    DataAppend(cs, Chunk(l, rest[..Len(size, l)]));
  }

  /** The next chain of the queue. */
  ghost predicate OneTaken(cfg: Config, u: State, t: State, q: nat, l: Label) {
    && l.Item? && cfg.size(l.obj) <= |u.w.link.wire| && |t.w.link.got| == |t.w.link.posted|
    && t == u.(w := t.w) && t.w.asked == u.w.asked
    && t.w.installed == u.w.installed + [Chunk(l, u.w.link.wire[..cfg.size(l.obj)])]
    && t.w.link.wire == u.w.link.wire[cfg.size(l.obj)..]
    && LaneOf(t.w, q) == LaneOf(u.w, q).(pos := LaneOf(u.w, q).pos + 1, buffer := LaneOf(t.w, q).buffer)
  }

  lemma TakenLast(cfg: Config, s: State, u: State, t: State, q: nat, ls: seq<Label>, cs: seq<Chunk>)
    requires ls != [] && HasTaken(cfg, s, u, q, ls[..|ls| - 1], cs) && OneTaken(cfg, u, t, q, ls[|ls| - 1])
    ensures HasTaken(cfg, s, t, q, ls, cs + [Chunk(ls[|ls| - 1], u.w.link.wire[..cfg.size(ls[|ls| - 1].obj)])])
  {
    hide LaneOf, Total, Data, Labels, IsRest, AreFirst;
    var front, l := ls[..|ls| - 1], ls[|ls| - 1];
    assert ls == front + [l];
    RestMore(cfg.size, s.w.link.wire, u.w.link.wire, front, l);
    FirstMore(cfg.size, s.w.link.wire, u.w.link.wire, front, l, cs);
    InstalledMore(s.w.installed, cs, Chunk(l, u.w.link.wire[..cfg.size(l.obj)]));
  }
}
