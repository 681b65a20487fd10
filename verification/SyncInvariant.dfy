/**
 What every run keeps that starts rounds and other transfers apart: on each stream both sides deal with the
 same rounds and transfers in the same order, and what a side has still to do is the rest of its list.
 */
module SyncInvariant {
  import opened Seqs
  import opened Links
  import opened SyncProtocol
  import opened SyncLists

  // ---- the lists ----

  predicate Past(stage: Stage) {
    stage.Waiting? || stage.Moved?
  }

  /** Chains whose transfer is not posted yet. */
  function Rest(lane: Lane): seq<Label> {
    var k := lane.pos + if Past(lane.stage) then 1 else 0;
    if k <= |lane.log| then lane.log[k..] else []
  }

  function Unseen(m: Mail): seq<nat> {
    if m.seen <= |m.log| then m.log[m.seen..] else []
  }

  /** All that an owner has still to send. */
  function OwnerPart(cfg: Config, o: Owner): seq<Label> {
    Rest(o.lane) + (o.loop + Requested(cfg, AtOwner, Unseen(o.orders)))
  }

  function PostLanded(h: HostState): seq<Label> {
    if h.posting.Some? && h.postingLanded then [h.posting.value] else []
  }

  /** All that the host has sent and has still to send to the waiting node; `tail`: posted receives. */
  function HostList(cfg: Config, w: Waiter, h: HostState, tail: seq<Label>): seq<Label> {
    SendTags(h.sends) + HostPending(cfg, w, h, tail)
  }

  function HostPending(cfg: Config, w: Waiter, h: HostState, tail: seq<Label>): seq<Label> {
    Opt(h.trigger) + (PostLanded(h) + (tail + (h.loop + Requested(cfg, AtHost, Unseen(w.asked)))))
  }

  // ---- one stream from an owner ----

  ghost predicate AllItems(ls: seq<Label>) {
    forall l :: l in ls ==> l.Item?
  }

  ghost predicate LaneOk(lane: Lane) {
    lane.pos <= |lane.log| && (lane.stage != Idle ==> lane.pos < |lane.log|) && AllItems(lane.log)
  }

  ghost predicate OrdersOk(cfg: Config, orders: Mail) {
    orders.seen <= |orders.log| && forall r :: r in orders.log ==> r < |cfg.rounds|
  }

  ghost predicate UpBasics(cfg: Config, n: nat, o: Owner) {
    && Conserved(cfg.size, o.link)
    && LaneOk(o.lane) && o.lane.stage != Waiting && OrdersOk(cfg, o.orders) && AllItems(o.loop)
    && Proper(cfg, o.segs) && (forall r :: Sync(r) in o.segs ==> GetRound(cfg, r).owner == n)
    && Holds(cfg, o.mem) && (o.lane.stage != Idle ==> |o.lane.buffer| == Len(cfg.size, Head(o.lane)))
  }

  /** One side's posts: `posted` so far, `part` still to come. While another transfer is lacking, nothing is. */
  ghost predicate SideOk(cfg: Config, side: Side, segs: seq<Seg>, posted: seq<Label>, part: seq<Label>) {
    Covers(cfg, side, segs, posted + part) && (Lacks(cfg, side, segs, posted + part) ==> part == [])
  }

  /** One of the two sides has begun every other transfer. */
  ghost predicate Begun(segs: seq<Seg>, posted: seq<Label>, tags: seq<Label>) {
    forall tag :: Apart(tag) in segs ==> tag in posted || tag in tags
  }

  ghost predicate UpOk(cfg: Config, n: nat, o: Owner, part: seq<Label>) {
    && UpBasics(cfg, n, o) && Begun(o.segs, o.link.posted, Labels(o.link.sent))
    && SideOk(cfg, AtOwner, o.segs, Labels(o.link.sent), OwnerPart(cfg, o))
    && SideOk(cfg, AtHost, o.segs, o.link.posted, part)
  }

  lemma MoveOn(a: seq<Label>, b: seq<Label>, c: seq<Label>)
    requires b != []
    ensures a + (b + c) == (a + [b[0]]) + (b[1..] + c)
  {
  }

  lemma RestEnqueued(lane: Lane, l: Label)
    requires LaneOk(lane)
    ensures Rest(Enqueued(lane, l)) == Rest(lane) + [l]
  {
  }

  lemma RestMoved(lane: Lane, stage: Stage)
    requires LaneOk(lane) && AtStage(lane, Mapped) && Past(stage)
    ensures Rest(lane) != [] && Rest(lane)[0] == Head(lane) && Rest(lane.(stage := stage)) == Rest(lane)[1..]
  {
  }

  lemma UpEnqueue(cfg: Config, n: nat, o: Owner, part: seq<Label>)
    requires UpOk(cfg, n, o, part) && o.loop != []
    ensures UpOk(cfg, n, o.(lane := Enqueued(o.lane, o.loop[0]), loop := o.loop[1..]), part)
  {
    hide Conserved, Proper, SideOk, Expand, Requested, Begun;
    RestEnqueued(o.lane, o.loop[0]);
    MoveOn(Rest(o.lane), o.loop, Requested(cfg, AtOwner, Unseen(o.orders)));
    hide Rest;
  }

  lemma UpSync(cfg: Config, n: nat, o: Owner, part: seq<Label>)
    requires UpOk(cfg, n, o, part) && o.loop == [] && o.orders.seen < |o.orders.log|
    ensures UpOk(cfg, n, o.(orders := o.orders.(seen := o.orders.seen + 1),
                            loop := Items(cfg, AtOwner, o.orders.log[o.orders.seen])), part)
  {
    hide Conserved, Proper, SideOk, Expand, Rest, Begun;
    var r, rest := o.orders.log[o.orders.seen], Unseen(o.orders);
    assert rest[0] == r && rest[1..] == o.orders.log[o.orders.seen + 1..];
    assert [] + Requested(cfg, AtOwner, rest) == Items(cfg, AtOwner, r) + Requested(cfg, AtOwner, rest[1..]);
  }

  lemma UpMap(cfg: Config, n: nat, o: Owner, part: seq<Label>, bytes: Bytes)
    requires UpOk(cfg, n, o, part) && AtStage(o.lane, Idle) && |bytes| == Len(cfg.size, Head(o.lane))
    ensures UpOk(cfg, n, o.(lane := o.lane.(stage := Mapped, buffer := bytes)), part)
  {
    hide Conserved, Proper, SideOk, Expand, Requested, Begun;
  }

  lemma UpUnmap(cfg: Config, n: nat, o: Owner, part: seq<Label>)
    requires UpOk(cfg, n, o, part) && AtStage(o.lane, Moved)
    ensures UpOk(cfg, n, o.(lane := Unmapped(o.lane)), part)
  {
    hide Conserved, Proper, SideOk, Expand, Requested, Begun;
    assert Rest(Unmapped(o.lane)) == Rest(o.lane);
  }

  lemma UpSend(cfg: Config, n: nat, o: Owner, part: seq<Label>)
    requires UpOk(cfg, n, o, part) && AtStage(o.lane, Mapped)
    ensures UpOk(cfg, n, o.(lane := o.lane.(stage := Moved),
            link := Sent(o.link, Chunk(Head(o.lane), o.lane.buffer))), part)
  {
    var c := Chunk(Head(o.lane), o.lane.buffer);
    ConservedSent(cfg.size, o.link, c);
    RestMoved(o.lane, Moved);
    SidePosts(cfg, AtOwner, o.segs, Labels(o.link.sent), Rest(o.lane),
        o.loop + Requested(cfg, AtOwner, Unseen(o.orders)));
    SentLabels(o.link, c);
    hide Conserved, Proper, SideOk, Expand, Requested, Rest;
  }

  lemma SentLabels(link: Link, c: Chunk)
    ensures Labels(Sent(link, c).sent) == Labels(link.sent) + [c.tag]
  {
  }

  lemma UpPost(cfg: Config, n: nat, o: Owner, part: seq<Label>)
    requires UpOk(cfg, n, o, part) && part != []
    ensures UpOk(cfg, n, o.(link := Posted(o.link, part[0])), part[1..])
  {
    ConservedPosted(cfg.size, o.link, part[0]);
    assert part + [] == part && part[1..] + [] == part[1..];
    SidePosts(cfg, AtHost, o.segs, o.link.posted, part, []);
    hide Conserved, Proper, Expand, Requested, Rest, SideOk;
  }

  lemma UpReceive(cfg: Config, n: nat, o: Owner, part: seq<Label>)
    requires UpOk(cfg, n, o, part) && CanReceive(cfg.size, o.link)
    ensures UpOk(cfg, n, o.(link := Received(cfg.size, o.link)), part)
  {
    ConservedReceived(cfg.size, o.link);
    hide Conserved, Proper, SideOk, Expand, Requested, Rest, Begun;
  }

  lemma ProperAppend(cfg: Config, segs: seq<Seg>, g: Seg)
    requires Proper(cfg, segs) && g !in segs
    requires if g.Sync? then g.round < |cfg.rounds| else g.tag.Other? && g.tag.len > 0
    ensures Proper(cfg, segs + [g])
  {
  }

  /** The host forwards a request. */
  lemma UpOrder(cfg: Config, n: nat, o: Owner, r: nat)
    requires UpOk(cfg, n, o, []) && r < |cfg.rounds| && GetRound(cfg, r).owner == n && Sync(r) !in o.segs
    requires !Lacks(cfg, AtHost, o.segs, o.link.posted + [])
    requires !Lacks(cfg, AtOwner, o.segs, Labels(o.link.sent) + OwnerPart(cfg, o))
    ensures UpOk(cfg, n, o.(orders := o.orders.(log := o.orders.log + [r]), segs := o.segs + [Sync(r)]),
            Items(cfg, AtHost, r))
  {
    hide Covers, Lacks, SideOk, Expand, OwnerPart, Conserved, Proper, Begun, UpBasics;
    OrderBasics(cfg, n, o, r);
    SideAppend(cfg, AtHost, o.segs, o.link.posted, [], Sync(r));
    SideAppend(cfg, AtOwner, o.segs, Labels(o.link.sent), OwnerPart(cfg, o), Sync(r));
    NothingBefore(Items(cfg, AtHost, r));
    OwnerOrdered(cfg, o, r);
  }

  lemma OrderBasics(cfg: Config, n: nat, o: Owner, r: nat)
    requires UpBasics(cfg, n, o) && Begun(o.segs, o.link.posted, Labels(o.link.sent))
    requires r < |cfg.rounds| && GetRound(cfg, r).owner == n && Sync(r) !in o.segs
    ensures var o' := o.(orders := o.orders.(log := o.orders.log + [r]), segs := o.segs + [Sync(r)]);
            UpBasics(cfg, n, o') && Begun(o'.segs, o'.link.posted, Labels(o'.link.sent))
            && o.orders.seen <= |o.orders.log|
  {
    ProperAppend(cfg, o.segs, Sync(r));
    hide Conserved, Proper, LaneOk, Holds;
  }

  lemma NothingBefore(ls: seq<Label>)
    ensures [] + ls == ls
  {
  }

  lemma OwnerOrdered(cfg: Config, o: Owner, r: nat)
    requires o.orders.seen <= |o.orders.log|
    ensures OwnerPart(cfg, o.(orders := o.orders.(log := o.orders.log + [r]), segs := o.segs + [Sync(r)]))
         == OwnerPart(cfg, o) + Items(cfg, AtOwner, r)
  {
    RequestedAppend(cfg, AtOwner, Unseen(o.orders), r);
    hide Requested, Rest;
    assert Unseen(o.orders.(log := o.orders.log + [r])) == Unseen(o.orders) + [r];
    AtEnd3(Rest(o.lane), o.loop, Requested(cfg, AtOwner, Unseen(o.orders)), Items(cfg, AtOwner, r));
  }

  lemma AtEnd3(a: seq<Label>, b: seq<Label>, c: seq<Label>, d: seq<Label>)
    ensures a + (b + (c + d)) == (a + (b + c)) + d
  {
  }

  lemma AtEnd(a: seq<Label>, b: seq<Label>, c: seq<Label>, d: seq<Label>, e: seq<Label>)
    ensures a + (b + (c + (d + e))) == (a + (b + (c + d))) + e
  {
    assert c + (d + e) == (c + d) + e;
    assert b + ((c + d) + e) == (b + (c + d)) + e;
  }

  /** A round is added to a side that lacks nothing. */
  lemma SideAppend(cfg: Config, side: Side, segs: seq<Seg>, posted: seq<Label>, part: seq<Label>, g: Seg)
    requires SideOk(cfg, side, segs, posted, part) && !Lacks(cfg, side, segs, posted + part) && g.Sync?
    ensures SideOk(cfg, side, segs + [g], posted, part + OneSeg(cfg, side, g))
  {
    ExpandAppend(cfg, side, segs, g);
    hide Expand, OneSeg;
    assert posted + (part + OneSeg(cfg, side, g)) == posted + part + OneSeg(cfg, side, g);
    assert (segs + [g])[|segs|] == g;
  }

  /** Another transfer is added that this side has begun. */
  lemma SideBegins(cfg: Config, side: Side, segs: seq<Seg>, posted: seq<Label>, tag: Label)
    requires SideOk(cfg, side, segs, posted, []) && !Lacks(cfg, side, segs, posted + [])
    ensures SideOk(cfg, side, segs + [Apart(tag)], posted + [tag], [])
  {
    ExpandAppend(cfg, side, segs, Apart(tag));
    hide Expand;
    assert posted + [] == posted && posted + [tag] + [] == posted + [tag];
    NotLacking(cfg, side, segs + [Apart(tag)]);
  }

  /** Another transfer is added that the other side has begun. */
  lemma SideLacks(cfg: Config, side: Side, segs: seq<Seg>, posted: seq<Label>, tag: Label)
    requires SideOk(cfg, side, segs, posted, []) && !Lacks(cfg, side, segs, posted + [])
    ensures SideOk(cfg, side, segs + [Apart(tag)], posted, [])
  {
    hide Expand;
    assert (segs + [Apart(tag)])[..|segs|] == segs;
  }

  /** The side catches up on a transfer that the other side has begun. */
  lemma SideCatchesUp(cfg: Config, side: Side, segs: seq<Seg>, posted: seq<Label>, part: seq<Label>, tag: Label)
    requires SideOk(cfg, side, segs, posted, part) && tag.Other? && Apart(tag) in segs && tag !in posted
             && AllItems(part)
    ensures part == [] && SideOk(cfg, side, segs, posted + [tag], [])
  {
    LacksLast(cfg, side, segs, posted + part, tag);
    hide Expand;
    assert posted + [tag] + [] == posted + [] + [tag];
    NotLacking(cfg, side, segs);
  }

  lemma NotLacking(cfg: Config, side: Side, segs: seq<Seg>)
    ensures !Lacks(cfg, side, segs, Expand(cfg, side, segs))
  {
  }

  /** Nothing has to be sent or received when another command begins a transfer from the owner. */
  ghost predicate UpIdle(cfg: Config, o: Owner) {
    && OwnerPart(cfg, o) == [] && !Lacks(cfg, AtOwner, o.segs, Labels(o.link.sent) + [])
    && !Lacks(cfg, AtHost, o.segs, o.link.posted + [])
  }

  /** The owner is first. */
  lemma UpReadSend(cfg: Config, n: nat, o: Owner, tag: Label, data: Bytes)
    requires UpOk(cfg, n, o, []) && Payload(tag, data) && Apart(tag) !in o.segs && UpIdle(cfg, o)
    ensures UpOk(cfg, n, o.(link := Sent(o.link, Chunk(tag, data)), segs := o.segs + [Apart(tag)]), [])
  {
    ConservedSent(cfg.size, o.link, Chunk(tag, data));
    ProperAppend(cfg, o.segs, Apart(tag));
    SideLacks(cfg, AtHost, o.segs, o.link.posted, tag);
    SideBegins(cfg, AtOwner, o.segs, Labels(o.link.sent), tag);
    SentLabels(o.link, Chunk(tag, data));
    BegunMore(o.segs, o.link.posted, Labels(o.link.sent), o.link.posted, Labels(o.link.sent) + [tag], tag);
    hide Conserved, Proper, SideOk, Expand, Lacks, Rest, Requested, Begun;
  }

  /** The host is first. */
  lemma UpReadPost(cfg: Config, n: nat, o: Owner, tag: Label)
    requires UpOk(cfg, n, o, []) && tag.Other? && tag.len > 0 && Apart(tag) !in o.segs && UpIdle(cfg, o)
    ensures UpOk(cfg, n, o.(link := Posted(o.link, tag), segs := o.segs + [Apart(tag)]), [])
  {
    ConservedPosted(cfg.size, o.link, tag);
    ProperAppend(cfg, o.segs, Apart(tag));
    SideBegins(cfg, AtHost, o.segs, o.link.posted, tag);
    SideLacks(cfg, AtOwner, o.segs, Labels(o.link.sent), tag);
    BegunMore(o.segs, o.link.posted, Labels(o.link.sent), o.link.posted + [tag], Labels(o.link.sent), tag);
    hide Conserved, Proper, SideOk, Expand, Lacks, Rest, Requested, Begun;
  }

  lemma BegunMore(segs: seq<Seg>, posted: seq<Label>, tags: seq<Label>, posted': seq<Label>, tags': seq<Label>,
          tag: Label)
    requires Begun(segs, posted, tags) && posted <= posted' && tags <= tags' && (tag in posted' || tag in tags')
    ensures Begun(segs + [Apart(tag)], posted', tags')
  {
  }

  /** The host comes after the owner. */
  lemma UpReadPostAfter(cfg: Config, n: nat, o: Owner, part: seq<Label>, tag: Label)
    requires UpOk(cfg, n, o, part) && tag.Other? && Apart(tag) in o.segs && tag !in o.link.posted && AllItems(part)
    ensures part == [] && UpOk(cfg, n, o.(link := Posted(o.link, tag)), [])
  {
    ConservedPosted(cfg.size, o.link, tag);
    SideCatchesUp(cfg, AtHost, o.segs, o.link.posted, part, tag);
    hide Conserved, Proper, SideOk, Expand, Requested, Rest;
  }

  /** The owner comes after the host. */
  lemma UpReadSendAfter(cfg: Config, n: nat, o: Owner, part: seq<Label>, tag: Label, data: Bytes)
    requires UpOk(cfg, n, o, part) && Payload(tag, data) && Apart(tag) in o.segs && tag !in Labels(o.link.sent)
    requires AllItems(OwnerPart(cfg, o))
    ensures OwnerPart(cfg, o) == [] && UpOk(cfg, n, o.(link := Sent(o.link, Chunk(tag, data))), part)
  {
    ConservedSent(cfg.size, o.link, Chunk(tag, data));
    SideCatchesUp(cfg, AtOwner, o.segs, Labels(o.link.sent), OwnerPart(cfg, o), tag);
    SentLabels(o.link, Chunk(tag, data));
    hide Conserved, Proper, SideOk, Expand, Requested, Rest;
  }

  // ---- the stream to the waiting node ----

  ghost predicate DownBasics(cfg: Config, w: Waiter, h: HostState) {
    && Conserved(cfg.size, w.link) && AskedOk(cfg, w.asked, w.segs) && SendsOk(cfg, w.link.sent, h.sends)
    && Begun(w.segs, w.link.posted, SendTags(h.sends)) && Holds(cfg, h.cache)
    && AllItems(w.loop) && AllItems(h.loop) && AllItems(Opt(h.trigger)) && AllItems(Opt(h.posting))
  }

  ghost predicate AskedOk(cfg: Config, asked: Mail, segs: seq<Seg>) {
    && asked.seen <= |asked.log| && Proper(cfg, segs)
    && (forall i, j :: 0 <= i < j < |asked.log| ==> asked.log[i] != asked.log[j])
    && (forall r :: r in asked.log <==> Sync(r) in segs)
  }

  ghost predicate SendsOk(cfg: Config, sent: seq<Chunk>, sends: seq<Send>) {
    && |sent| <= |sends| && Labels(sent) == SendTags(sends)[..|sent|]
    && (forall k :: 0 <= k < |sends| ==> SendOk(cfg, sends[k]))
  }

  ghost predicate SendOk(cfg: Config, x: Send) {
    match x
    case Cached(tag) => tag.Item?
    case Region(tag) => tag.Other? && tag.len > 0
    case Given(c) => Payload(c.tag, c.bytes)
  }

  /** A receive whose callback is not registered is the last one posted; if it is complete, nothing else is
      on its way through the host. */
  ghost predicate PostingOk(h: HostState, tail: seq<Label>) {
    && AllItems(tail)
    && (h.posting.Some? && !h.postingLanded ==> tail != [] && tail[|tail| - 1] == h.posting.value)
    && (h.posting.Some? && h.postingLanded ==> h.trigger == None && tail == [])
  }

  /** The waiting node has posted a receive for the chain that waits for it and for no other chain. */
  ghost predicate TailOk(l: Link, lane: Lane) {
    if AtStage(lane, Waiting) then Tail(l) == [Head(lane)] else forall x :: x in Tail(l) ==> x.Other?
  }

  ghost predicate HostSide(cfg: Config, w: Waiter, h: HostState, tail: seq<Label>) {
    SideOk(cfg, AtHost, w.segs, SendTags(h.sends), HostPending(cfg, w, h, tail)) && PostingOk(h, tail)
  }

  ghost predicate WaiterSide(cfg: Config, segs: seq<Seg>, link: Link, lane: Lane, loop: seq<Label>) {
    LaneOk(lane) && TailOk(link, lane) && SideOk(cfg, AtWaiter, segs, link.posted, Rest(lane) + loop)
  }

  ghost predicate DownOk(cfg: Config, w: Waiter, h: HostState, tail: seq<Label>, q: nat) {
    DownBasics(cfg, w, h) && HostSide(cfg, w, h, tail) && WaiterSide(cfg, w.segs, w.link, LaneOf(w, q), w.loop)
  }

  // the waiting node's side

  lemma WaiterEnqueues(cfg: Config, segs: seq<Seg>, link: Link, lane: Lane, loop: seq<Label>)
    requires WaiterSide(cfg, segs, link, lane, loop) && loop != [] && loop[0].Item?
    ensures WaiterSide(cfg, segs, link, Enqueued(lane, loop[0]), loop[1..])
  {
    RestEnqueued(lane, loop[0]);
    hide SideOk, Rest, Tail;
    assert Rest(lane) + [loop[0]] + loop[1..] == Rest(lane) + loop;
  }

  lemma WaiterMaps(cfg: Config, segs: seq<Seg>, link: Link, lane: Lane, loop: seq<Label>)
    requires WaiterSide(cfg, segs, link, lane, loop) && AtStage(lane, Idle)
    ensures WaiterSide(cfg, segs, link, lane.(stage := Mapped), loop)
  {
    hide SideOk, Tail;
    assert Rest(lane.(stage := Mapped)) == Rest(lane);
  }

  lemma WaiterPosts(cfg: Config, segs: seq<Seg>, link: Link, lane: Lane, loop: seq<Label>)
    requires WaiterSide(cfg, segs, link, lane, loop) && AtStage(lane, Mapped) && Tail(link) == []
    requires |link.got| <= |link.posted|
    ensures WaiterSide(cfg, segs, Posted(link, Head(lane)), lane.(stage := Waiting), loop)
  {
    RestMoved(lane, Waiting);
    SidePosts(cfg, AtWaiter, segs, link.posted, Rest(lane), loop);
    TailPosted(link, Head(lane));
    hide SideOk, Rest, Tail;
  }

  lemma TailPosted(link: Link, l: Label)
    requires |link.got| <= |link.posted|
    ensures Tail(Posted(link, l)) == Tail(link) + [l]
  {
  }

  /** A side posts the first transfer of its part. */
  lemma SidePosts(cfg: Config, side: Side, segs: seq<Seg>, posted: seq<Label>, a: seq<Label>, b: seq<Label>)
    requires SideOk(cfg, side, segs, posted, a + b) && a != []
    ensures SideOk(cfg, side, segs, posted + [a[0]], a[1..] + b)
  {
    hide Covers, Lacks;
    MoveOn(posted, a, b);
  }

  /** A receive of the chain that waits. */
  lemma WaiterReceives(cfg: Config, segs: seq<Seg>, link: Link, lane: Lane, loop: seq<Label>)
    requires WaiterSide(cfg, segs, link, lane, loop) && CanReceive(cfg.size, link)
    requires link.posted[|link.got|].Item?
    ensures AtStage(lane, Waiting) && Head(lane) == link.posted[|link.got|]
    ensures WaiterSide(cfg, segs, Received(cfg.size, link),
            lane.(stage := Moved, buffer := Next(cfg.size, link).bytes), loop)
  {
    TailReceived(cfg.size, link);
    hide SideOk, Tail;
    assert Tail(link)[0] in Tail(link);
    assert AtStage(lane, Waiting);
    assert Rest(lane.(stage := Moved, buffer := Next(cfg.size, link).bytes)) == Rest(lane);
  }

  /** A receive of another command. */
  lemma WaiterReceivesOther(cfg: Config, segs: seq<Seg>, link: Link, lane: Lane, loop: seq<Label>)
    requires WaiterSide(cfg, segs, link, lane, loop) && CanReceive(cfg.size, link)
    requires link.posted[|link.got|].Other?
    ensures WaiterSide(cfg, segs, Received(cfg.size, link), lane, loop)
  {
    TailReceived(cfg.size, link);
    NotWaiting(link, lane);
    hide SideOk, Tail, Rest;
  }

  lemma NotWaiting(link: Link, lane: Lane)
    requires LaneOk(lane) && TailOk(link, lane) && Tail(link) != [] && Tail(link)[0].Other?
    ensures !AtStage(lane, Waiting)
  {
    assert lane.pos < |lane.log| ==> lane.log[lane.pos] in lane.log;
  }

  lemma TailReceived(size: Obj -> nat, link: Link)
    requires CanReceive(size, link)
    ensures Tail(link) != [] && Tail(link)[0] == link.posted[|link.got|] == Next(size, link).tag
    ensures Tail(Received(size, link)) == Tail(link)[1..]
  {
  }

  lemma WaiterUnmaps(cfg: Config, segs: seq<Seg>, link: Link, lane: Lane, loop: seq<Label>)
    requires WaiterSide(cfg, segs, link, lane, loop) && AtStage(lane, Moved)
    ensures WaiterSide(cfg, segs, link, Unmapped(lane), loop)
  {
    hide SideOk, Tail;
    assert Rest(Unmapped(lane)) == Rest(lane);
  }

  lemma WaiterAsks(cfg: Config, segs: seq<Seg>, link: Link, lane: Lane, r: nat)
    requires WaiterSide(cfg, segs, link, lane, [])
    requires !Lacks(cfg, AtWaiter, segs, link.posted + (Rest(lane) + []))
    ensures WaiterSide(cfg, segs + [Sync(r)], link, lane, Items(cfg, AtWaiter, r))
  {
    SideAppend(cfg, AtWaiter, segs, link.posted, Rest(lane) + [], Sync(r));
    hide SideOk, Rest, Tail;
    assert Rest(lane) + [] + Items(cfg, AtWaiter, r) == Rest(lane) + Items(cfg, AtWaiter, r);
  }

  /** The waiting node posts a receive for another command that it begins. */
  lemma WaiterBegins(cfg: Config, segs: seq<Seg>, link: Link, lane: Lane, tag: Label)
    requires WaiterSide(cfg, segs, link, lane, []) && Undone(lane) == [] && tag.Other? && |link.got| <= |link.posted|
    requires !Lacks(cfg, AtWaiter, segs, link.posted + [])
    ensures WaiterSide(cfg, segs + [Apart(tag)], Posted(link, tag), lane, [])
  {
    assert Rest(lane) + [] == [];
    SideBegins(cfg, AtWaiter, segs, link.posted, tag);
    TailPosted(link, tag);
    hide SideOk, Rest, Tail;
  }

  /** The host begins. */
  lemma WaiterLacks(cfg: Config, segs: seq<Seg>, link: Link, lane: Lane, tag: Label)
    requires WaiterSide(cfg, segs, link, lane, []) && Undone(lane) == []
    requires !Lacks(cfg, AtWaiter, segs, link.posted + [])
    ensures WaiterSide(cfg, segs + [Apart(tag)], link, lane, [])
  {
    assert Rest(lane) + [] == [];
    SideLacks(cfg, AtWaiter, segs, link.posted, tag);
    hide SideOk, Rest, Tail;
  }

  lemma WaiterCatchesUp(cfg: Config, segs: seq<Seg>, link: Link, lane: Lane, loop: seq<Label>, tag: Label)
    requires WaiterSide(cfg, segs, link, lane, loop) && AllItems(loop) && |link.got| <= |link.posted|
    requires tag.Other? && Apart(tag) in segs && tag !in link.posted && !AtStage(lane, Waiting)
    ensures WaiterSide(cfg, segs, Posted(link, tag), lane, loop)
  {
    RestItems(lane);
    SideCatchesUp(cfg, AtWaiter, segs, link.posted, Rest(lane) + loop, tag);
    TailPosted(link, tag);
    hide SideOk, Rest, Tail;
  }

  lemma RestItems(lane: Lane)
    requires LaneOk(lane)
    ensures AllItems(Rest(lane))
  {
  }

  // the host's side

  lemma PendingGrows(cfg: Config, w: Waiter, w': Waiter, h: HostState, tail: seq<Label>, r: nat)
    requires w.asked.seen <= |w.asked.log| && w'.asked == w.asked.(log := w.asked.log + [r])
    ensures HostPending(cfg, w', h, tail) == HostPending(cfg, w, h, tail) + Items(cfg, AtHost, r)
  {
    RequestedAppend(cfg, AtHost, Unseen(w.asked), r);
    hide Requested;
    assert Unseen(w'.asked) == Unseen(w.asked) + [r];
    AtEnd5(Opt(h.trigger), PostLanded(h), tail, h.loop, Requested(cfg, AtHost, Unseen(w.asked)), Items(cfg, AtHost, r));
  }

  lemma AtEnd5(a: seq<Label>, b: seq<Label>, c: seq<Label>, d: seq<Label>, e: seq<Label>, f: seq<Label>)
    ensures a + (b + (c + (d + (e + f)))) == (a + (b + (c + (d + e)))) + f
  {
    AtEnd(b, c, d, e, f);
    assert a + ((b + (c + (d + e))) + f) == (a + (b + (c + (d + e)))) + f;
  }

  lemma HostAsked(cfg: Config, w: Waiter, w': Waiter, h: HostState, tail: seq<Label>, r: nat)
    requires HostSide(cfg, w, h, tail) && !Lacks(cfg, AtHost, w.segs, HostList(cfg, w, h, tail))
    requires w.asked.seen <= |w.asked.log| && w'.asked == w.asked.(log := w.asked.log + [r])
             && w'.segs == w.segs + [Sync(r)]
    ensures HostSide(cfg, w', h, tail)
  {
    hide SideOk, HostPending;
    SideAppend(cfg, AtHost, w.segs, SendTags(h.sends), HostPending(cfg, w, h, tail), Sync(r));
    PendingGrows(cfg, w, w', h, tail, r);
  }

  /** The host takes up the next request. */
  lemma HostTakes(cfg: Config, w: Waiter, w': Waiter, h: HostState, tail: seq<Label>)
    requires HostSide(cfg, w, h, tail) && h.loop == [] && w.asked.seen < |w.asked.log|
    requires w'.asked == w.asked.(seen := w.asked.seen + 1) && w'.segs == w.segs
    ensures HostSide(cfg, w', h.(loop := Items(cfg, AtHost, w.asked.log[w.asked.seen])), tail)
  {
    hide SideOk;
    var r, rest := w.asked.log[w.asked.seen], Unseen(w.asked);
    assert rest[0] == r && rest[1..] == Unseen(w'.asked);
    assert [] + Requested(cfg, AtHost, rest) == Items(cfg, AtHost, r) + Requested(cfg, AtHost, rest[1..]);
  }

  lemma HostPosts(cfg: Config, w: Waiter, h: HostState, tail: seq<Label>)
    requires HostSide(cfg, w, h, tail) && h.loop != [] && h.loop[0].Item? && h.posting == None
    ensures HostSide(cfg, w, h.(loop := h.loop[1..], posting := Some(h.loop[0]), postingLanded := false),
            tail + [h.loop[0]])
  {
    hide SideOk, Requested;
    MoveOn(tail, h.loop, Requested(cfg, AtHost, Unseen(w.asked)));
  }

  lemma HostSetsCallback(cfg: Config, w: Waiter, h: HostState, tail: seq<Label>)
    requires HostSide(cfg, w, h, tail) && h.posting.Some?
    ensures HostSide(cfg, w, h.(posting := None,
                                sends := h.sends + if h.postingLanded then [Cached(h.posting.value)] else []), tail)
  {
    hide Requested;
    var rest := tail + (h.loop + Requested(cfg, AtHost, Unseen(w.asked)));
    if h.postingLanded {
      SendTagsAppend(h.sends, Cached(h.posting.value));
      assert HostPending(cfg, w, h, tail) == [h.posting.value] + rest;
      SidePosts(cfg, AtHost, w.segs, SendTags(h.sends), [h.posting.value], rest);
      assert [h.posting.value][1..] + rest == rest == [] + ([] + rest);
    } else {
      assert h.sends + [] == h.sends;
    }
    hide SideOk;
  }

  lemma SendTagsAppend(xs: seq<Send>, x: Send)
    ensures SendTags(xs + [x]) == SendTags(xs) + [SendTag(x)]
  {
  }

  lemma HostTriggers(cfg: Config, w: Waiter, h: HostState, tail: seq<Label>)
    requires HostSide(cfg, w, h, tail) && h.trigger.Some?
    ensures HostSide(cfg, w, h.(trigger := None, sends := h.sends + [Cached(h.trigger.value)]), tail)
  {
    hide Requested;
    var rest := PostLanded(h) + (tail + (h.loop + Requested(cfg, AtHost, Unseen(w.asked))));
    SendTagsAppend(h.sends, Cached(h.trigger.value));
    SidePosts(cfg, AtHost, w.segs, SendTags(h.sends), [h.trigger.value], rest);
    assert [h.trigger.value][1..] + rest == [] + rest;
    hide SideOk;
  }

  /** A receive of an item lands. */
  lemma HostLands(cfg: Config, w: Waiter, h: HostState, tail: seq<Label>, c: Chunk)
    requires HostSide(cfg, w, h, tail) && h.trigger == None && tail != [] && tail[0] == c.tag && NoDup(tail)
    ensures HostSide(cfg, w, Landed(h, c), tail[1..])
  {
    hide SideOk, Requested, NoDup;
    var rest := h.loop + Requested(cfg, AtHost, Unseen(w.asked));
    assert tail == [c.tag] + tail[1..] && c.tag in tail;
    assert AllItems(tail[1..]);
    if h.posting == Some(c.tag) {
      LastOnly(tail);
      assert [] + ([] + (tail + rest)) == [] + ([c.tag] + ([] + rest));
    } else {
      assert [] + ([] + (tail + rest)) == [c.tag] + ([] + (tail[1..] + rest));
    }
  }

  lemma LastOnly(tail: seq<Label>)
    requires tail != [] && NoDup(tail) && tail[0] == tail[|tail| - 1]
    ensures |tail| == 1 && tail[1..] == []
  {
  }

  /** The host posts a send for another command, having begun it or catching up. */
  lemma HostBegins(cfg: Config, w: Waiter, w': Waiter, h: HostState, x: Send)
    requires HostSide(cfg, w, h, []) && HostPending(cfg, w, h, []) == [] && SendTag(x).Other?
    requires !Lacks(cfg, AtHost, w.segs, SendTags(h.sends) + []) && w'.asked == w.asked
             && w'.segs == w.segs + [Apart(SendTag(x))]
    ensures HostSide(cfg, w', h.(sends := h.sends + [x]), [])
  {
    SideBegins(cfg, AtHost, w.segs, SendTags(h.sends), SendTag(x));
    SendTagsAppend(h.sends, x);
    hide SideOk, Requested;
  }

  lemma HostLacks(cfg: Config, w: Waiter, w': Waiter, h: HostState, tag: Label)
    requires HostSide(cfg, w, h, []) && HostPending(cfg, w, h, []) == []
    requires !Lacks(cfg, AtHost, w.segs, SendTags(h.sends) + []) && w'.asked == w.asked
             && w'.segs == w.segs + [Apart(tag)]
    ensures HostSide(cfg, w', h, [])
  {
    SideLacks(cfg, AtHost, w.segs, SendTags(h.sends), tag);
    hide SideOk, Requested;
  }

  lemma HostCatchesUp(cfg: Config, w: Waiter, h: HostState, tail: seq<Label>, x: Send)
    requires HostSide(cfg, w, h, tail) && SendTag(x).Other? && Apart(SendTag(x)) in w.segs
             && SendTag(x) !in SendTags(h.sends)
    requires AllItems(HostPending(cfg, w, h, tail))
    ensures HostSide(cfg, w, h.(sends := h.sends + [x]), tail)
  {
    SideCatchesUp(cfg, AtHost, w.segs, SendTags(h.sends), HostPending(cfg, w, h, tail), SendTag(x));
    SendTagsAppend(h.sends, x);
    hide SideOk, Requested;
    assert HostPending(cfg, w, h.(sends := h.sends + [x]), tail) == HostPending(cfg, w, h, tail);
  }
}
