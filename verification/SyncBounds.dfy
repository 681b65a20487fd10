/** How many steps are left: every step that carries on what has been begun leaves fewer, in every run. */
module SyncBounds {
  import opened Seqs
  import opened Links
  import opened SyncProtocol
  import opened SyncInvariant
  import opened SyncCrossing
  import opened SyncContents
  import opened SyncForeign
  import opened SyncMemory
  import opened SyncProgress

  // ---- sums ----

  ghost function Sum(m: map<nat, nat>): nat
    decreases |m|
  {
    if m == map[] then 0 else
    var k :| k in m;
    m[k] + Sum(m - {k})
  }

  lemma {:induction false} SumSplit(m: map<nat, nat>, k: nat)
    requires k in m
    ensures Sum(m) == m[k] + Sum(m - {k})
    decreases |m|
  {
    var x :| x in m && Sum(m) == m[x] + Sum(m - {x});
    if x != k {
      SumSplit(m - {x}, k);
      SumSplit(m - {k}, x);
      assert m - {x} - {k} == m - {k} - {x};
    }
  }

  lemma SumPut(m: map<nat, nat>, k: nat, v: nat)
    ensures Sum(m[k := v]) == Sum(m - {k}) + v
    ensures Sum(m) == Sum(m - {k}) + if k in m then m[k] else 0
  {
    SumSplit(m[k := v], k);
    assert m[k := v] - {k} == m - {k};
    if k in m {
      SumSplit(m, k);
    } else {
      assert m - {k} == m;
    }
  }

  // ---- what is left ----

  /** Other commands' transfers that one side has posted and the other has not. */
  function Owed(ls: seq<Label>, paid: seq<Label>): nat {
    if ls == [] then 0 else
    Owed(ls[..|ls| - 1], paid) + if ls[|ls| - 1].Other? && ls[|ls| - 1] !in paid then 1 else 0
  }

  function Minus(a: nat, b: nat): nat {
    if a >= b then a - b else 0
  }

  /** Steps of a release chain, of which there are three. */
  function ReleaseLeft(lane: Lane): nat {
    if lane.pos >= |lane.log| then 0 else
    3 * (|lane.log| - lane.pos) - match lane.stage case Idle => 0 case Mapped => 1 case Waiting => 2 case Moved => 2
  }

  /** Steps of an acquire chain, of which there are four, and its receive. */
  function AcquireLeft(lane: Lane): nat {
    if lane.pos >= |lane.log| then 0 else
    5 * (|lane.log| - lane.pos) - match lane.stage case Idle => 0 case Mapped => 1 case Waiting => 3 case Moved => 3
  }

  function OwnerCost(cfg: Config, r: nat): nat {
    1 + 4 * |List(cfg, AtOwner, r)|
  }

  function HostCost(cfg: Config, r: nat): nat {
    1 + 5 * |List(cfg, AtHost, r)| + OwnerCost(cfg, r)
  }

  function RoundCost(cfg: Config, r: nat): nat {
    1 + 6 * |List(cfg, AtWaiter, r)| + HostCost(cfg, r)
  }

  function OwnerCosts(cfg: Config, rs: seq<nat>): nat {
    if rs == [] then 0 else OwnerCost(cfg, rs[0]) + OwnerCosts(cfg, rs[1..])
  }

  function HostCosts(cfg: Config, rs: seq<nat>): nat {
    if rs == [] then 0 else HostCost(cfg, rs[0]) + HostCosts(cfg, rs[1..])
  }

  function OwnerLeft(cfg: Config, o: Owner): nat {
    OwnerCosts(cfg, Unseen(o.orders)) + 4 * |o.loop| + ReleaseLeft(o.lane) + 3 * Minus(|o.link.posted|, |o.link.got|)
    + 4 * Owed(Labels(o.link.sent), o.link.posted) + Owed(o.link.posted, Labels(o.link.sent))
  }

  function OwnersLeft(cfg: Config, o: map<nat, Owner>): map<nat, nat> {
    map n | n in o :: OwnerLeft(cfg, o[n])
  }

  function HostLeft(h: HostState): nat {
    5 * |h.loop| + (if h.posting.Some? then 1 else 0) + (if h.posting.Some? && h.postingLanded then 1 else 0)
    + (if h.trigger.Some? then 2 else 0)
  }

  function SendsLeft(h: HostState, link: Link): nat {
    Minus(|h.sends|, |link.sent|) + 2 * Owed(link.posted, SendTags(h.sends)) + 2 * Owed(SendTags(h.sends), link.posted)
  }

  function LanesLeft(lanes: map<nat, Lane>): map<nat, nat> {
    map q | q in lanes :: AcquireLeft(lanes[q])
  }

  ghost function WaiterLeft(cfg: Config, w: Waiter): nat {
    HostCosts(cfg, Unseen(w.asked)) + 6 * |w.loop| + Sum(LanesLeft(w.lanes)) + Minus(|w.link.posted|, |w.link.got|)
  }

  /** Rounds below `k` whose event is not complete. */
  function Missing(done: set<nat>, k: nat): nat {
    if k == 0 then 0 else Missing(done, k - 1) + if k - 1 in done then 0 else 1
  }

  /** Rounds below `k` that have not been requested. */
  function Unasked(cfg: Config, asked: seq<nat>, k: nat): nat {
    if k == 0 then 0 else Unasked(cfg, asked, k - 1) + if k - 1 in asked then 0 else RoundCost(cfg, k - 1)
  }

  ghost function Left(cfg: Config, s: State): nat {
    Missing(s.events, |cfg.rounds|) + Missing(s.replicas, |cfg.rounds|) + Unasked(cfg, s.w.asked.log, |cfg.rounds|)
    + Sum(OwnersLeft(cfg, s.o)) + HostLeft(s.h) + SendsLeft(s.h, s.w.link) + WaiterLeft(cfg, s.w)
  }

  // ---- lemmas about the parts ----

  lemma {:induction false} OwedAppend(ls: seq<Label>, paid: seq<Label>, x: Label)
    ensures Owed(ls + [x], paid) == Owed(ls, paid) + if x.Other? && x !in paid then 1 else 0
  {
    assert (ls + [x])[..|ls|] == ls;
  }

  /** Posting a transfer removes what is owed for it. */
  lemma {:induction false} OwedPosted(ls: seq<Label>, paid: seq<Label>, x: Label)
    ensures Owed(ls, paid + [x]) <= Owed(ls, paid)
    ensures x.Other? && x in ls && x !in paid ==> Owed(ls, paid + [x]) < Owed(ls, paid)
  {
    if ls != [] {
      OwedPosted(ls[..|ls| - 1], paid, x);
      assert ls == ls[..|ls| - 1] + [ls[|ls| - 1]];
    }
  }

  lemma {:induction false} MissingAdd(done: set<nat>, k: nat, r: nat)
    requires r !in done
    ensures Missing(done + {r}, k) == Missing(done, k) - if r < k then 1 else 0
    ensures r < k ==> Missing(done, k) > 0
  {
    if k > 0 {
      MissingAdd(done, k - 1, r);
    }
  }

  lemma {:induction false} UnaskedAdd(cfg: Config, asked: seq<nat>, k: nat, r: nat)
    requires r !in asked
    ensures Unasked(cfg, asked, k) == Unasked(cfg, asked + [r], k) + if r < k then RoundCost(cfg, r) else 0
  {
    if k > 0 {
      UnaskedAdd(cfg, asked, k - 1, r);
    }
  }

  lemma {:induction false} HostCostsAppend(cfg: Config, rs: seq<nat>, r: nat)
    ensures HostCosts(cfg, rs + [r]) == HostCosts(cfg, rs) + HostCost(cfg, r)
  {
    if rs == [] {
      assert [r][1..] == [];
    } else {
      assert (rs + [r])[1..] == rs[1..] + [r];
      HostCostsAppend(cfg, rs[1..], r);
    }
  }

  lemma {:induction false} OwnerCostsAppend(cfg: Config, rs: seq<nat>, r: nat)
    ensures OwnerCosts(cfg, rs + [r]) == OwnerCosts(cfg, rs) + OwnerCost(cfg, r)
  {
    if rs == [] {
      assert [r][1..] == [];
    } else {
      assert (rs + [r])[1..] == rs[1..] + [r];
      OwnerCostsAppend(cfg, rs[1..], r);
    }
  }

  lemma UnseenAppend(m: Mail, r: nat)
    ensures Unseen(m.(log := m.log + [r])) == Unseen(m) + [r] || Unseen(m.(log := m.log + [r])) == []
  {
    if m.seen <= |m.log| {
      assert (m.log + [r])[m.seen..] == m.log[m.seen..] + [r];
    }
  }

  lemma UnseenTake(m: Mail)
    requires m.seen < |m.log|
    ensures Unseen(m) == [m.log[m.seen]] + Unseen(m.(seen := m.seen + 1))
  {
  }

  lemma OwnersPut(cfg: Config, o: map<nat, Owner>, n: nat, o': Owner)
    requires n in o
    ensures Sum(OwnersLeft(cfg, o[n := o'])) == Sum(OwnersLeft(cfg, o)) - OwnerLeft(cfg, o[n]) + OwnerLeft(cfg, o')
  {
    hide OwnerLeft, Sum;
    SumPut(OwnersLeft(cfg, o), n, OwnerLeft(cfg, o'));
    assert OwnersLeft(cfg, o[n := o']) == OwnersLeft(cfg, o)[n := OwnerLeft(cfg, o')];
  }

  lemma LanesPut(lanes: map<nat, Lane>, q: nat, lane: Lane)
    ensures Sum(LanesLeft(lanes[q := lane]))
         == Sum(LanesLeft(lanes)) - (if q in lanes then AcquireLeft(lanes[q]) else 0) + AcquireLeft(lane)
  {
    hide AcquireLeft, Sum;
    SumPut(LanesLeft(lanes), q, AcquireLeft(lane));
    assert LanesLeft(lanes[q := lane]) == LanesLeft(lanes)[q := AcquireLeft(lane)];
  }

  // ---- steps of an owner ----

  /** A step of an owner changes what is left by what it changes for the owner. */
  lemma OwnerStep(cfg: Config, s: State, n: nat, o: Owner, released: map<Label, Bytes>)
    requires n in s.o
    ensures Left(cfg, Put(s, n, o).(released := released)) == Left(cfg, s) - OwnerLeft(cfg, s.o[n]) + OwnerLeft(cfg, o)
  {
    hide OwnerLeft, OwnersLeft, WaiterLeft, Unasked, Missing, SendsLeft, HostLeft, Sum;
    OwnersPut(cfg, s.o, n, o);
  }

  lemma OSyncLeaves(cfg: Config, s: State, n: nat)
    requires Enabled(cfg, OSync(n), s)
    ensures Left(cfg, Apply(cfg, OSync(n), s)) < Left(cfg, s)
  {
    hide Left, ReleaseLeft, Owed, Minus, Unseen;
    var o := s.o[n];
    var o' := o.(orders := o.orders.(seen := o.orders.seen + 1),
        loop := Items(cfg, AtOwner, o.orders.log[o.orders.seen]));
    UnseenTake(o.orders);
    assert ([o.orders.log[o.orders.seen]] + Unseen(o'.orders))[1..] == Unseen(o'.orders);
    OwnerStep(cfg, s, n, o', s.released);
  }

  lemma ChainLeaves(cfg: Config, s: State, n: nat, a: Action)
    requires Enabled(cfg, a, s) && (a == OEnqueue(n) || a == OMap(n) || a == OUnmap(n))
    ensures Left(cfg, Apply(cfg, a, s)) < Left(cfg, s)
  {
    hide Left, OwnerCosts, Owed, Minus, Unseen;
    var o, bytes := s.o[n], if a.OMap? then s.o[n].mem[ObjectOf(Head(s.o[n].lane))] else [];
    if a.OEnqueue? {
      OwnerStep(cfg, s, n, o.(lane := Enqueued(o.lane, o.loop[0]), loop := o.loop[1..]), s.released);
    } else if a.OMap? {
      OwnerStep(cfg, s, n, o.(lane := o.lane.(stage := Mapped, buffer := bytes)), s.released[Head(o.lane) := bytes]);
    } else {
      OwnerStep(cfg, s, n, o.(lane := Unmapped(o.lane)), s.released);
    }
  }

  lemma OSendLeaves(cfg: Config, s: State, n: nat)
    requires Ok(cfg, s) && Enabled(cfg, OSend(n), s)
    ensures Left(cfg, Apply(cfg, OSend(n), s)) < Left(cfg, s)
  {
    hide Left, OwnerCosts, Owed, Minus, Unseen, HostOk, WaiterOk, StreamOk;
    var o := s.o[n];
    var c := Chunk(Head(o.lane), o.lane.buffer);
    assert OwnerOk(cfg, o) && Head(o.lane) in o.lane.log;
    assert Labels(o.link.sent + [c]) == Labels(o.link.sent) + [c.tag];
    OwedAppend(Labels(o.link.sent), o.link.posted, c.tag);
    OwedPosted(o.link.posted, Labels(o.link.sent), c.tag);
    OwnerStep(cfg, s, n, o.(lane := o.lane.(stage := Moved), link := Sent(o.link, c)), s.released);
  }

  lemma ReadSendLeaves(cfg: Config, s: State, n: nat, tag: Label, data: Bytes)
    requires Enabled(cfg, ReadSend(n, tag, data), s)
    ensures Left(cfg, Apply(cfg, ReadSend(n, tag, data), s)) <= Left(cfg, s) + 4
  {
    hide Left, OwnerCosts, Owed, Minus, Unseen, ReleaseLeft, MayRead;
    var o, c := s.o[n], Chunk(tag, data);
    assert Labels(o.link.sent + [c]) == Labels(o.link.sent) + [tag];
    OwedAppend(Labels(o.link.sent), o.link.posted, tag);
    OwedPosted(o.link.posted, Labels(o.link.sent), tag);
    OwnerStep(cfg, s, n, o.(link := Sent(o.link, c), segs := o.segs + [Apart(tag)]), s.released);
  }

  lemma ReadSendAfterLeaves(cfg: Config, s: State, n: nat, tag: Label, data: Bytes)
    requires Enabled(cfg, ReadSendAfter(n, tag, data), s)
    ensures Left(cfg, Apply(cfg, ReadSendAfter(n, tag, data), s)) < Left(cfg, s)
  {
    hide Left, OwnerCosts, Owed, Minus, Unseen, ReleaseLeft;
    var o, c := s.o[n], Chunk(tag, data);
    assert Labels(o.link.sent + [c]) == Labels(o.link.sent) + [tag];
    OwedAppend(Labels(o.link.sent), o.link.posted, tag);
    OwedPosted(o.link.posted, Labels(o.link.sent), tag);
    OwnerStep(cfg, s, n, o.(link := Sent(o.link, c)), s.released);
  }

  lemma ReadPostAfterLeaves(cfg: Config, s: State, n: nat, tag: Label)
    requires Enabled(cfg, ReadPostAfter(n, tag), s)
    ensures Left(cfg, Apply(cfg, ReadPostAfter(n, tag), s)) < Left(cfg, s)
  {
    hide Left, OwnerCosts, Owed, Unseen, ReleaseLeft;
    var o := s.o[n];
    OwedPosted(Labels(o.link.sent), o.link.posted, tag);
    OwedAppend(o.link.posted, Labels(o.link.sent), tag);
    OwnerStep(cfg, s, n, o.(link := Posted(o.link, tag)), s.released);
  }

  lemma ReadPostLeaves(cfg: Config, s: State, n: nat, tag: Label)
    requires Enabled(cfg, ReadPost(n, tag), s)
    ensures Left(cfg, Apply(cfg, ReadPost(n, tag), s)) <= Left(cfg, s) + 4
  {
    hide Left, OwnerCosts, Owed, Unseen, ReleaseLeft, MayRead;
    var o := s.o[n];
    OwedPosted(Labels(o.link.sent), o.link.posted, tag);
    OwedAppend(o.link.posted, Labels(o.link.sent), tag);
    OwnerStep(cfg, s, n, o.(link := Posted(o.link, tag), segs := o.segs + [Apart(tag)]), s.released);
  }

  lemma WritesLeaves(cfg: Config, s: State, n: nat, x: Obj, data: Bytes)
    requires n in s.o
    ensures Left(cfg, Put(s, n, s.o[n].(mem := s.o[n].mem[x := data]))) == Left(cfg, s)
  {
    hide Left, OwnerCosts, Owed, Unseen, ReleaseLeft, Minus;
    OwnerStep(cfg, s, n, s.o[n].(mem := s.o[n].mem[x := data]), s.released);
  }

  // ---- steps of the host ----

  /** A step of the host on an owner's stream. */
  lemma HostStep(cfg: Config, s: State, n: nat, o: Owner, h: HostState, w: Waiter)
    requires n in s.o && h.sends == s.h.sends && w.link == s.w.link && w.asked.log == s.w.asked.log
    ensures Left(cfg, Put(s, n, o).(h := h, w := w)) == Left(cfg, s) - OwnerLeft(cfg, s.o[n]) + OwnerLeft(cfg, o)
              - HostLeft(s.h) + HostLeft(h) - WaiterLeft(cfg, s.w) + WaiterLeft(cfg, w)
  {
    hide OwnerLeft, OwnersLeft, WaiterLeft, Unasked, Missing, HostLeft, Sum, Minus, Owed;
    OwnersPut(cfg, s.o, n, o);
  }

  lemma HSyncLeaves(cfg: Config, s: State)
    requires Enabled(cfg, HSync, s)
    ensures Left(cfg, Apply(cfg, HSync, s)) < Left(cfg, s)
  {
    hide Left, ReleaseLeft, Owed, Minus, Unseen, LanesLeft, Sum;
    var r := s.w.asked.log[s.w.asked.seen];
    var n := GetRound(cfg, r).owner;
    var o := s.o[n];
    var o' := o.(orders := o.orders.(log := o.orders.log + [r]), segs := o.segs + [Sync(r)]);
    var w' := s.w.(asked := s.w.asked.(seen := s.w.asked.seen + 1));
    UnseenTake(s.w.asked);
    assert ([r] + Unseen(w'.asked))[1..] == Unseen(w'.asked);
    UnseenAppend(o.orders, r);
    OwnerCostsAppend(cfg, Unseen(o.orders), r);
    HostStep(cfg, s, n, o', s.h.(loop := Items(cfg, AtHost, r)), w');
  }

  lemma HPostLeaves(cfg: Config, s: State)
    requires Ok(cfg, s) && Enabled(cfg, HPost, s)
    ensures Left(cfg, Apply(cfg, HPost, s)) < Left(cfg, s)
  {
    hide Left, ReleaseLeft, Owed, Unseen, OwnerCosts, WaiterLeft, OwnersAreOk, WaiterOk, SendOk;
    var l := s.h.loop[0];
    assert l in s.h.loop;
    var n := GetRound(cfg, RoundOf(l)).owner;
    var o := s.o[n];
    OwedPosted(Labels(o.link.sent), o.link.posted, l);
    OwedAppend(o.link.posted, Labels(o.link.sent), l);
    HostStep(cfg, s, n, o.(link := Posted(o.link, l)),
             s.h.(loop := s.h.loop[1..], posting := Some(l), postingLanded := false), s.w);
  }

  lemma HReceiveLeaves(cfg: Config, s: State, n: nat)
    requires Enabled(cfg, HReceive(n), s)
    ensures Left(cfg, Apply(cfg, HReceive(n), s)) < Left(cfg, s)
  {
    hide Left, ReleaseLeft, Owed, Unseen, OwnerCosts, WaiterLeft;
    var o := s.o[n];
    HostStep(cfg, s, n, o.(link := Received(cfg.size, o.link)), Landed(s.h, Next(cfg.size, o.link)), s.w);
  }

  lemma SendsPosted(cfg: Config, s: State, h: HostState, x: Send)
    requires h.sends == s.h.sends + [x] && (SendTag(x).Item? || SendTag(x) in s.w.link.posted)
    ensures SendsLeft(h, s.w.link) <= SendsLeft(s.h, s.w.link) + 1
    ensures SendTag(x).Other? && SendTag(x) !in SendTags(s.h.sends)
            ==> SendsLeft(h, s.w.link) < SendsLeft(s.h, s.w.link)
  {
    hide Owed;
    SendTagsAppend(s.h.sends, x);
    OwedPosted(s.w.link.posted, SendTags(s.h.sends), SendTag(x));
    OwedAppend(SendTags(s.h.sends), s.w.link.posted, SendTag(x));
  }

  lemma HTriggerLeaves(cfg: Config, s: State)
    requires Ok(cfg, s) && Enabled(cfg, HTrigger, s)
    ensures Left(cfg, Apply(cfg, HTrigger, s)) < Left(cfg, s)
  {
    hide OwnersLeft, WaiterLeft, Unasked, Missing, Sum, SendsLeft, OwnersAreOk, WaiterOk;
    var l := s.h.trigger.value;
    assert l in Opt(s.h.trigger);
    SendsPosted(cfg, s, s.h.(trigger := None, sends := s.h.sends + [Cached(l)]), Cached(l));
  }

  lemma HSetCallbackLeaves(cfg: Config, s: State)
    requires Ok(cfg, s) && Enabled(cfg, HSetCallback, s)
    ensures Left(cfg, Apply(cfg, HSetCallback, s)) < Left(cfg, s)
  {
    hide OwnersLeft, WaiterLeft, Unasked, Missing, Sum, SendsLeft, OwnersAreOk, WaiterOk;
    var l := s.h.posting.value;
    assert l in Opt(s.h.posting);
    if s.h.postingLanded {
      SendsPosted(cfg, s, s.h.(posting := None, sends := s.h.sends + [Cached(l)]), Cached(l));
    } else {
      assert s.h.sends + [] == s.h.sends;
      SameSends(s.h, s.h.(posting := None), s.w.link);
    }
  }

  lemma SameSends(h: HostState, h': HostState, link: Link)
    requires h'.sends == h.sends
    ensures SendsLeft(h', link) == SendsLeft(h, link)
  {
  }

  lemma HTransmitLeaves(cfg: Config, s: State)
    requires Enabled(cfg, HTransmit, s)
    ensures Left(cfg, Apply(cfg, HTransmit, s)) < Left(cfg, s)
  {
    hide OwnersLeft, Unasked, Missing, Sum, Owed, LanesLeft, HostCosts;
  }

  lemma OutgoingTag(tag: Label, data: Bytes)
    ensures SendTag(Outgoing(tag, data)) == tag
  {
  }

  /** Memory that is written leaves as much to be done. */
  lemma StoreLeaves(cfg: Config, a: Action, s: State)
    requires Enabled(cfg, a, s) && (a.WaiterWrites? || a.Allocates? || a.HostStores?)
    ensures Left(cfg, Apply(cfg, a, s)) == Left(cfg, s)
  {
    hide OwnersLeft, Unasked, Missing, Sum, Owed, LanesLeft, HostCosts;
  }

  lemma WriteSendAfterLeaves(cfg: Config, s: State, tag: Label, data: Bytes)
    requires Enabled(cfg, WriteSendAfter(tag, data), s)
    ensures Left(cfg, Apply(cfg, WriteSendAfter(tag, data), s)) < Left(cfg, s)
  {
    hide OwnersLeft, WaiterLeft, Unasked, Missing, Sum, SendsLeft;
    var x := Outgoing(tag, data);
    OutgoingTag(tag, data);
    SendsPosted(cfg, s, s.h.(sends := s.h.sends + [x]), x);
  }

  lemma WriteSendLeaves(cfg: Config, s: State, tag: Label, data: Bytes)
    requires Enabled(cfg, WriteSend(tag, data), s)
    ensures Left(cfg, Apply(cfg, WriteSend(tag, data), s)) <= Left(cfg, s) + 4
  {
    hide OwnersLeft, Unasked, Missing, Sum, Owed, LanesLeft, HostCosts, MayWrite;
    OutgoingTag(tag, data);
    SendTagsAppend(s.h.sends, Outgoing(tag, data));
    OwedPosted(s.w.link.posted, SendTags(s.h.sends), tag);
    OwedAppend(SendTags(s.h.sends), s.w.link.posted, tag);
  }

  // ---- steps of the waiting node ----

  lemma WSyncLeaves(cfg: Config, s: State, r: nat)
    requires Enabled(cfg, WSync(r), s)
    ensures Left(cfg, Apply(cfg, WSync(r), s)) < Left(cfg, s)
  {
    hide OwnersLeft, Missing, Sum, Owed, LanesLeft, MayStart, Unseen, Unasked;
    UnaskedAdd(cfg, s.w.asked.log, |cfg.rounds|, r);
    UnseenAppend(s.w.asked, r);
    HostCostsAppend(cfg, Unseen(s.w.asked), r);
  }

  /** A step of a chain of the waiting node. */
  lemma LaneStepLeaves(cfg: Config, s: State, w: Waiter, q: nat, lane: Lane)
    requires w.lanes == s.w.lanes[q := lane] && w.asked == s.w.asked && w.link.got == s.w.link.got
    requires w.link == s.w.link || (w.link == Posted(s.w.link, HeadOr(lane)) && HeadOr(lane).Item?)
    ensures Left(cfg, s.(w := w)) + 6 * |s.w.loop| + (if q in s.w.lanes then AcquireLeft(s.w.lanes[q]) else 0)
         <= Left(cfg, s) + 6 * |w.loop| + AcquireLeft(lane) + |w.link.posted| - |s.w.link.posted|
  {
    hide OwnersLeft, Missing, Sum, Owed, LanesLeft, Unasked, AcquireLeft, HostCosts;
    LanesPut(s.w.lanes, q, lane);
    OwedPosted(SendTags(s.h.sends), s.w.link.posted, HeadOr(lane));
    OwedAppend(s.w.link.posted, SendTags(s.h.sends), HeadOr(lane));
  }

  function HeadOr(lane: Lane): Label {
    if lane.pos < |lane.log| then lane.log[lane.pos] else Item(0, 0)
  }

  lemma WEnqueueLeaves(cfg: Config, s: State)
    requires Enabled(cfg, WEnqueue, s)
    ensures Left(cfg, Apply(cfg, WEnqueue, s)) < Left(cfg, s)
  {
    hide Left;
    var q := GetRound(cfg, RoundOf(s.w.loop[0])).queue;
    LaneStepLeaves(cfg, s, Apply(cfg, WEnqueue, s).w, q, Enqueued(LaneOf(s.w, q), s.w.loop[0]));
  }

  lemma WMapLeaves(cfg: Config, s: State, q: nat)
    requires Enabled(cfg, WMap(q), s)
    ensures Left(cfg, Apply(cfg, WMap(q), s)) < Left(cfg, s)
  {
    hide Left;
    LaneStepLeaves(cfg, s, Apply(cfg, WMap(q), s).w, q, LaneOf(s.w, q).(stage := Mapped));
  }

  lemma WUnmapLeaves(cfg: Config, s: State, q: nat)
    requires Enabled(cfg, WUnmap(q), s)
    ensures Left(cfg, Apply(cfg, WUnmap(q), s)) < Left(cfg, s)
  {
    hide Left;
    LaneStepLeaves(cfg, s, Apply(cfg, WUnmap(q), s).w, q, Unmapped(LaneOf(s.w, q)));
  }

  lemma WPostLeaves(cfg: Config, s: State, q: nat)
    requires Ok(cfg, s) && Enabled(cfg, WPost(q), s)
    ensures Left(cfg, Apply(cfg, WPost(q), s)) < Left(cfg, s)
  {
    hide Left, OwnersAreOk, HostOk, StreamOk;
    var lane := LaneOf(s.w, q);
    assert Head(lane) in lane.log;
    LaneStepLeaves(cfg, s, Apply(cfg, WPost(q), s).w, q, lane.(stage := Waiting));
  }

  lemma WReceiveLeaves(cfg: Config, s: State)
    requires Enabled(cfg, WReceive, s)
    ensures Left(cfg, Apply(cfg, WReceive, s)) < Left(cfg, s)
  {
    hide OwnersLeft, Missing, Sum, Owed, LanesLeft, Unasked, HostCosts;
    var c := Next(cfg.size, s.w.link);
    if c.tag.Item? {
      var q := GetRound(cfg, c.tag.round).queue;
      LanesPut(s.w.lanes, q, LaneOf(s.w, q).(stage := Moved, buffer := c.bytes));
    }
  }

  lemma WritePostLeaves(cfg: Config, s: State, tag: Label)
    requires Enabled(cfg, WritePost(tag), s)
    ensures Left(cfg, Apply(cfg, WritePost(tag), s)) <= Left(cfg, s) + 4
  {
    hide OwnersLeft, Unasked, Missing, Sum, Owed, LanesLeft, HostCosts, MayWrite;
    OwedPosted(SendTags(s.h.sends), s.w.link.posted, tag);
    OwedAppend(s.w.link.posted, SendTags(s.h.sends), tag);
  }

  lemma WritePostAfterLeaves(cfg: Config, s: State, tag: Label)
    requires Enabled(cfg, WritePostAfter(tag), s)
    ensures Left(cfg, Apply(cfg, WritePostAfter(tag), s)) < Left(cfg, s)
  {
    hide OwnersLeft, Unasked, Missing, Sum, Owed, LanesLeft, HostCosts;
    OwedPosted(SendTags(s.h.sends), s.w.link.posted, tag);
    OwedAppend(s.w.link.posted, SendTags(s.h.sends), tag);
  }

  lemma EventLeaves(cfg: Config, a: Action, s: State)
    requires Enabled(cfg, a, s) && (a.EventCompletes? || a.ReplicaCompletes?)
    ensures Left(cfg, Apply(cfg, a, s)) < Left(cfg, s)
  {
    hide OwnersLeft, Unasked, Missing, Sum, HostLeft, SendsLeft, WaiterLeft;
    if a.EventCompletes? {
      MissingAdd(s.events, |cfg.rounds|, a.r);
    } else {
      MissingAdd(s.replicas, |cfg.rounds|, a.r);
    }
  }

  // ---- all steps ----

  lemma OfOwnerLeaves(cfg: Config, a: Action, s: State)
    requires Ok(cfg, s) && Enabled(cfg, a, s) && OfOwner(a)
    ensures Left(cfg, Apply(cfg, a, s)) + (if NewCommand(a) then 0 else 1)
            <= Left(cfg, s) + if NewCommand(a) then 4 else 0
  {
    if a.OwnerWrites? {
      hide Ok, Left;
      WritesLeaves(cfg, s, a.n, a.x, a.data);
    } else {
      hide Ok, Left, Enabled, Apply;
      match a
      case OSync(n) => OSyncLeaves(cfg, s, n);
      case OEnqueue(n) => ChainLeaves(cfg, s, n, a);
      case OMap(n) => ChainLeaves(cfg, s, n, a);
      case OUnmap(n) => ChainLeaves(cfg, s, n, a);
      case OSend(n) => OSendLeaves(cfg, s, n);
      case ReadSend(n, tag, data) => ReadSendLeaves(cfg, s, n, tag, data);
      case ReadSendAfter(n, tag, data) => ReadSendAfterLeaves(cfg, s, n, tag, data);
      case ReadPost(n, tag) => ReadPostLeaves(cfg, s, n, tag);
      case ReadPostAfter(n, tag) => ReadPostAfterLeaves(cfg, s, n, tag);
    }
  }

  /** In every run, whatever it starts at the same time: a step that carries on leaves fewer steps; beginning
      another command adds at most four. */
  lemma StepLeaves(cfg: Config, a: Action, s: State)
    requires Ok(cfg, s) && Enabled(cfg, a, s)
    ensures Left(cfg, Apply(cfg, a, s)) + (if NewCommand(a) then 0 else 1)
            <= Left(cfg, s) + if NewCommand(a) then 4 else 0
  {
    hide Ok, Left, Enabled, Apply;
    if OfOwner(a) {
      OfOwnerLeaves(cfg, a, s);
    } else {
      match a
      case WaiterWrites(_, _) | Allocates(_, _) | HostStores(_, _) => StoreLeaves(cfg, a, s);
      case EventCompletes(_) => EventLeaves(cfg, a, s);
      case ReplicaCompletes(_) => EventLeaves(cfg, a, s);
      case HSync => HSyncLeaves(cfg, s);
      case HPost => HPostLeaves(cfg, s);
      case HReceive(n) => HReceiveLeaves(cfg, s, n);
      case HTrigger => HTriggerLeaves(cfg, s);
      case HSetCallback => HSetCallbackLeaves(cfg, s);
      case HTransmit => HTransmitLeaves(cfg, s);
      case WSync(r) => WSyncLeaves(cfg, s, r);
      case WEnqueue => WEnqueueLeaves(cfg, s);
      case WMap(q) => WMapLeaves(cfg, s, q);
      case WPost(q) => WPostLeaves(cfg, s, q);
      case WReceive => WReceiveLeaves(cfg, s);
      case WUnmap(q) => WUnmapLeaves(cfg, s, q);
      case WritePost(tag) => WritePostLeaves(cfg, s, tag);
      case WriteSendAfter(tag, data) => WriteSendAfterLeaves(cfg, s, tag, data);
      case WriteSend(tag, data) => WriteSendLeaves(cfg, s, tag, data);
      case WritePostAfter(tag) => WritePostAfterLeaves(cfg, s, tag);
    }
  }

  // ---- runs ----

  function Steps(run: seq<Action>): nat {
    if run == [] then 0 else Steps(run[..|run| - 1]) + if NewCommand(run[|run| - 1]) then 0 else 1
  }

  function Commands(run: seq<Action>): nat {
    if run == [] then 0 else Commands(run[..|run| - 1]) + if NewCommand(run[|run| - 1]) then 1 else 0
  }

  lemma {:induction false} RunLeaves(cfg: Config, mems: map<nat, map<Obj, Bytes>>, wm: map<Obj, Bytes>,
          run: seq<Action>)
    requires WellFormed(cfg) && Memory(cfg, mems) && Exec(cfg, Init(mems, wm), run).Some?
    ensures Left(cfg, Exec(cfg, Init(mems, wm), run).value) + Steps(run)
            <= Left(cfg, Init(mems, wm)) + 4 * Commands(run)
    decreases |run|
  {
    hide Ok, WellFormed, Memory, Enabled, Apply, Init, Left, NewCommand;
    if run != [] {
      var front, a := run[..|run| - 1], run[|run| - 1];
      RunLeaves(cfg, mems, wm, front);
      RunOk(cfg, mems, wm, front);
      StepLeaves(cfg, a, Exec(cfg, Init(mems, wm), front).value);
    }
  }

  function Objects(cfg: Config, k: nat): nat {
    if k == 0 then 0 else
    Objects(cfg, k - 1) + 4 * |List(cfg, AtOwner, k - 1)| + 5 * |List(cfg, AtHost, k - 1)|
        + 6 * |List(cfg, AtWaiter, k - 1)|
  }

  lemma {:induction false} AtFirst(cfg: Config, k: nat)
    ensures Missing({}, k) == k && Unasked(cfg, [], k) == 3 * k + Objects(cfg, k)
  {
    if k > 0 {
      AtFirst(cfg, k - 1);
    }
  }

  lemma {:induction false} SumNothing(m: map<nat, nat>)
    requires forall k :: k in m ==> m[k] == 0
    ensures Sum(m) == 0
    decreases |m|
  {
    if m != map[] {
      var k :| k in m;
      SumSplit(m, k);
      SumNothing(m - {k});
    }
  }

  lemma InitLeft(cfg: Config, mems: map<nat, map<Obj, Bytes>>, wm: map<Obj, Bytes>)
    ensures Left(cfg, Init(mems, wm)) == 5 * |cfg.rounds| + Objects(cfg, |cfg.rounds|)
  {
    AtFirst(cfg, |cfg.rounds|);
    SumNothing(OwnersLeft(cfg, Init(mems, wm).o));
    SumNothing(LanesLeft(map[]));
    hide Missing, Unasked, Objects, Sum;
  }

  /** Every run has at most five protocol steps for each round, fifteen for each of its objects, and four for
      every other command that it begins. */
  lemma RunsAreBounded(cfg: Config, mems: map<nat, map<Obj, Bytes>>, wm: map<Obj, Bytes>, run: seq<Action>)
    requires WellFormed(cfg) && Memory(cfg, mems) && Exec(cfg, Init(mems, wm), run).Some?
    ensures Steps(run) <= 5 * |cfg.rounds| + Objects(cfg, |cfg.rounds|) + 4 * Commands(run)
  {
    hide WellFormed, Memory, Init, Left, Exec;
    RunLeaves(cfg, mems, wm, run);
    InitLeft(cfg, mems, wm);
  }

  // ---- every run can be completed ----

  lemma {:induction false} Finish(cfg: Config, s: State, n: nat, q: nat) returns (more: seq<Action>, t: State)
    requires WellFormed(cfg) && cfg.apart && Inv(cfg, s, n, q) && Ok(cfg, s) && ForeignOk(cfg, s.o)
    ensures Exec(cfg, s, more) == Some(t) && Final(cfg, t) && Commands(more) == 0
    decreases Left(cfg, s)
  {
    hide Inv, Ok, ForeignOk, WellFormed, Enabled, Apply, Final, Left;
    if Final(cfg, s) {
      more, t := [], s;
    } else {
      InvMoves(cfg, s, n, q);
      var a :| !NewCommand(a) && Enabled(cfg, a, s);
      var s' := Apply(cfg, a, s);
      StepLeaves(cfg, a, s);
      StepOk(cfg, a, s);
      ForeignStep(cfg, a, s, n, q);
      var n', q' := InvStep(cfg, a, s, n, q);
      more, t := Finish(cfg, s', n', q');
      OneStep(cfg, a, s);
      ExecAppend(cfg, s, [a], more);
      OneMore(a, more);
      more := [a] + more;
    }
  }

  lemma OneStep(cfg: Config, a: Action, s: State)
    requires Enabled(cfg, a, s)
    ensures Exec(cfg, s, [a]) == Some(Apply(cfg, a, s))
  {
    hide Enabled, Apply;
    assert [a][..0] == [];
    assert Exec(cfg, s, [a][..0]) == Some(s);
  }

  lemma {:induction false} OneMore(a: Action, run: seq<Action>)
    requires !NewCommand(a) && Commands(run) == 0
    ensures Commands([a] + run) == 0
  {
    hide NewCommand;
    if run == [] {
      assert [a] + run == [a] && [a][..0] == [];
    } else {
      assert ([a] + run)[..|run|] == [a] + run[..|run| - 1];
      OneMore(a, run[..|run| - 1]);
    }
  }

  /** Every reachable state has a continuation, in which the application begins nothing new, that completes
      every acquire. */
  lemma CanFinish(cfg: Config, run: seq<Action>, s: State) returns (more: seq<Action>, t: State)
    requires WellFormed(cfg) && cfg.apart && Reaches(cfg, run, s)
    ensures Exec(cfg, s, more) == Some(t) && Final(cfg, t) && Commands(more) == 0
  {
    hide Inv, Ok, ForeignOk, WellFormed, Memory, Final, Exec, Init;
    var n, q := Reachable(cfg, run, s);
    var mems, wm :| Memory(cfg, mems) && Exec(cfg, Init(mems, wm), run) == Some(s);
    RunOk(cfg, mems, wm, run);
    ReachableForeign(cfg, run, s);
    more, t := Finish(cfg, s, n, q);
  }
}
