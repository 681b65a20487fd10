/**
 All runs, whatever they start at the same time: a stream is right exactly if no command's transfer crosses a
 transfer that is in flight.
 */
module SyncCrossing {
  import opened Seqs
  import opened Links
  import opened SyncProtocol
  import opened SyncInvariant

  // ---- what every run keeps ----

  ghost predicate StreamOk(size: Obj -> nat, link: Link) {
    Conserved(size, link) && Positive(size, Labels(link.sent)) && Positive(size, link.posted)
  }

  ghost predicate OwnerOk(cfg: Config, o: Owner) {
    && StreamOk(cfg.size, o.link) && Holds(cfg, o.mem) && LaneOk(o.lane) && AllItems(o.loop)
    && (o.lane.stage != Idle ==> |o.lane.buffer| == Len(cfg.size, Head(o.lane)))
  }

  ghost predicate HostOk(cfg: Config, h: HostState) {
    && Holds(cfg, h.cache) && AllItems(h.loop) && AllItems(Opt(h.trigger)) && AllItems(Opt(h.posting))
    && (forall k :: 0 <= k < |h.sends| ==> SendOk(cfg, h.sends[k]))
  }

  ghost predicate WaiterOk(cfg: Config, w: Waiter) {
    && StreamOk(cfg.size, w.link) && AllItems(w.loop) && AllAsked(w.loop, w.asked.log)
    && forall q :: q in w.lanes ==> AllItems(w.lanes[q].log) && AllAsked(w.lanes[q].log, w.asked.log)
  }

  /** Acquire chains are of rounds that were requested. */
  ghost predicate AllAsked(ls: seq<Label>, asked: seq<nat>) {
    forall l :: l in ls ==> RoundOf(l) in asked
  }

  ghost predicate OwnersAreOk(cfg: Config, o: map<nat, Owner>) {
    forall n :: n in o ==> OwnerOk(cfg, o[n])
  }

  ghost predicate Ok(cfg: Config, s: State) {
    OwnersAreOk(cfg, s.o) && HostOk(cfg, s.h) && WaiterOk(cfg, s.w)
  }

  lemma StreamSends(size: Obj -> nat, link: Link, c: Chunk)
    requires StreamOk(size, link) && |c.bytes| == Len(size, c.tag) > 0
    ensures StreamOk(size, Sent(link, c))
  {
    ConservedSent(size, link, c);
    hide Conserved;
    assert Labels(link.sent + [c]) == Labels(link.sent) + [c.tag];
  }

  lemma StreamPosts(size: Obj -> nat, link: Link, l: Label)
    requires StreamOk(size, link) && Len(size, l) > 0
    ensures StreamOk(size, Posted(link, l))
  {
    ConservedPosted(size, link, l);
    hide Conserved;
  }

  lemma StreamReceives(size: Obj -> nat, link: Link)
    requires StreamOk(size, link) && CanReceive(size, link)
    ensures StreamOk(size, Received(size, link)) && |Next(size, link).bytes| == Len(size, Next(size, link).tag)
  {
    ConservedReceived(size, link);
    hide Conserved;
  }

  lemma MemorySize(cfg: Config, o: Owner, x: Obj)
    requires Holds(cfg, o.mem) && x in o.mem
    ensures |o.mem[x]| == cfg.size(x)
  {
  }

  lemma OwnersPutOk(cfg: Config, o: map<nat, Owner>, n: nat, o': Owner)
    requires OwnersAreOk(cfg, o) && OwnerOk(cfg, o')
    ensures OwnersAreOk(cfg, o[n := o'])
  {
    hide OwnerOk;
  }

  lemma WritesOk(cfg: Config, s: State, n: nat, x: Obj, data: Bytes)
    requires Ok(cfg, s) && n in s.o && |data| == cfg.size(x)
    ensures Ok(cfg, Put(s, n, s.o[n].(mem := s.o[n].mem[x := data])))
  {
    hide HostOk, WaiterOk, StreamOk, OwnersAreOk;
    OwnerIs(cfg, s.o, n);
    OwnersPutOk(cfg, s.o, n, s.o[n].(mem := s.o[n].mem[x := data]));
  }

  lemma OwnerIs(cfg: Config, o: map<nat, Owner>, n: nat)
    requires OwnersAreOk(cfg, o) && n in o
    ensures OwnerOk(cfg, o[n])
  {
  }

  lemma OSyncOk(cfg: Config, s: State, n: nat)
    requires Ok(cfg, s) && Enabled(cfg, OSync(n), s)
    ensures Ok(cfg, Apply(cfg, OSync(n), s))
  {
    hide HostOk, WaiterOk, StreamOk, OwnersAreOk;
    var o := s.o[n];
    OwnerIs(cfg, s.o, n);
    OwnersPutOk(cfg, s.o, n, o.(orders := o.orders.(seen := o.orders.seen + 1),
                                loop := Items(cfg, AtOwner, o.orders.log[o.orders.seen])));
  }

  lemma OEnqueueOk(cfg: Config, s: State, n: nat)
    requires Ok(cfg, s) && Enabled(cfg, OEnqueue(n), s)
    ensures Ok(cfg, Apply(cfg, OEnqueue(n), s))
  {
    hide HostOk, WaiterOk, StreamOk, OwnersAreOk;
    var o := s.o[n];
    OwnerIs(cfg, s.o, n);
    assert o.loop[0] in o.loop;
    OwnersPutOk(cfg, s.o, n, o.(lane := Enqueued(o.lane, o.loop[0]), loop := o.loop[1..]));
  }

  lemma OMapOk(cfg: Config, s: State, n: nat)
    requires Ok(cfg, s) && Enabled(cfg, OMap(n), s)
    ensures Ok(cfg, Apply(cfg, OMap(n), s))
  {
    hide HostOk, WaiterOk, StreamOk, OwnersAreOk, Holds;
    var o := s.o[n];
    var bytes := o.mem[ObjectOf(Head(o.lane))];
    OwnerIs(cfg, s.o, n);
    assert Head(o.lane) in o.lane.log;
    MemorySize(cfg, o, ObjectOf(Head(o.lane)));
    OwnersPutOk(cfg, s.o, n, o.(lane := o.lane.(stage := Mapped, buffer := bytes)));
  }

  lemma OSendOk(cfg: Config, s: State, n: nat)
    requires WellFormed(cfg) && Ok(cfg, s) && Enabled(cfg, OSend(n), s)
    ensures Ok(cfg, Apply(cfg, OSend(n), s))
  {
    hide HostOk, WaiterOk, StreamOk, OwnersAreOk, Holds;
    var o := s.o[n];
    var c := Chunk(Head(o.lane), o.lane.buffer);
    OwnerIs(cfg, s.o, n);
    assert Head(o.lane) in o.lane.log;
    StreamSends(cfg.size, o.link, c);
    OwnersPutOk(cfg, s.o, n, o.(lane := o.lane.(stage := Moved), link := Sent(o.link, c)));
  }

  lemma OUnmapOk(cfg: Config, s: State, n: nat)
    requires Ok(cfg, s) && Enabled(cfg, OUnmap(n), s)
    ensures Ok(cfg, Apply(cfg, OUnmap(n), s))
  {
    hide HostOk, WaiterOk, StreamOk, OwnersAreOk, Holds;
    OwnerIs(cfg, s.o, n);
    OwnersPutOk(cfg, s.o, n, s.o[n].(lane := Unmapped(s.o[n].lane)));
  }

  /** A step on an owner's stream. */
  lemma LinkOk(cfg: Config, s: State, n: nat, link: Link, segs: seq<Seg>, orders: Mail)
    requires Ok(cfg, s) && n in s.o && StreamOk(cfg.size, link)
    ensures OwnersAreOk(cfg, s.o[n := s.o[n].(link := link, segs := segs, orders := orders)])
  {
    hide HostOk, WaiterOk, StreamOk, OwnersAreOk;
    OwnerIs(cfg, s.o, n);
    OwnersPutOk(cfg, s.o, n, s.o[n].(link := link, segs := segs, orders := orders));
  }

  lemma ReadSendOk(cfg: Config, a: Action, s: State)
    requires Ok(cfg, s) && Enabled(cfg, a, s) && (a.ReadSend? || a.ReadSendAfter?)
    ensures Ok(cfg, Apply(cfg, a, s))
  {
    hide HostOk, WaiterOk, OwnersAreOk, MayRead;
    OwnerIs(cfg, s.o, a.n);
    var o, c := s.o[a.n], Chunk(a.tag, a.data);
    StreamSends(cfg.size, o.link, c);
    LinkOk(cfg, s, a.n, Sent(o.link, c), if a.ReadSend? then o.segs + [Apart(a.tag)] else o.segs, o.orders);
  }

  lemma ReadPostOk(cfg: Config, a: Action, s: State)
    requires Ok(cfg, s) && Enabled(cfg, a, s) && (a.ReadPost? || a.ReadPostAfter?)
    ensures Ok(cfg, Apply(cfg, a, s))
  {
    hide HostOk, WaiterOk, OwnersAreOk, MayRead;
    OwnerIs(cfg, s.o, a.n);
    var o := s.o[a.n];
    if a.ReadPostAfter? {
      var k :| 0 <= k < |o.link.sent| && Labels(o.link.sent)[k] == a.tag;
    }
    StreamPosts(cfg.size, o.link, a.tag);
    LinkOk(cfg, s, a.n, Posted(o.link, a.tag), if a.ReadPost? then o.segs + [Apart(a.tag)] else o.segs, o.orders);
  }

  lemma HSyncOk(cfg: Config, s: State)
    requires Ok(cfg, s) && Enabled(cfg, HSync, s)
    ensures Ok(cfg, Apply(cfg, HSync, s))
  {
    hide OwnersAreOk, StreamOk, SendOk;
    var r := s.w.asked.log[s.w.asked.seen];
    var n := GetRound(cfg, r).owner;
    OwnerIs(cfg, s.o, n);
    LinkOk(cfg, s, n, s.o[n].link, s.o[n].segs + [Sync(r)], s.o[n].orders.(log := s.o[n].orders.log + [r]));
  }

  lemma HPostOk(cfg: Config, s: State)
    requires WellFormed(cfg) && Ok(cfg, s) && Enabled(cfg, HPost, s)
    ensures Ok(cfg, Apply(cfg, HPost, s))
  {
    hide OwnersAreOk, StreamOk, SendOk;
    var l := s.h.loop[0];
    var n := GetRound(cfg, RoundOf(l)).owner;
    assert l in s.h.loop;
    OwnerIs(cfg, s.o, n);
    StreamPosts(cfg.size, s.o[n].link, l);
    LinkOk(cfg, s, n, Posted(s.o[n].link, l), s.o[n].segs, s.o[n].orders);
  }

  lemma HReceiveOk(cfg: Config, s: State, n: nat)
    requires Ok(cfg, s) && Enabled(cfg, HReceive(n), s)
    ensures Ok(cfg, Apply(cfg, HReceive(n), s))
  {
    hide OwnersAreOk, StreamOk, SendOk;
    OwnerIs(cfg, s.o, n);
    StreamReceives(cfg.size, s.o[n].link);
    LinkOk(cfg, s, n, Received(cfg.size, s.o[n].link), s.o[n].segs, s.o[n].orders);
  }

  lemma HostStepOk(cfg: Config, a: Action, s: State)
    requires Ok(cfg, s) && Enabled(cfg, a, s) && (a.HSetCallback? || a.HTrigger?)
    ensures Ok(cfg, Apply(cfg, a, s))
  {
    hide OwnersAreOk, StreamOk;
    assert s.h.trigger.Some? ==> s.h.trigger.value in Opt(s.h.trigger);
    assert s.h.posting.Some? ==> s.h.posting.value in Opt(s.h.posting);
  }

  lemma WriteSendOk(cfg: Config, a: Action, s: State)
    requires Ok(cfg, s) && Enabled(cfg, a, s) && (a.WriteSendAfter? || a.WriteSend?)
    ensures Ok(cfg, Apply(cfg, a, s))
  {
    hide OwnersAreOk, StreamOk, MayWrite, Holds, AllItems;
    assert a.tag.Other? && Source(a.tag, a.data);
    assert SendOk(cfg, Outgoing(a.tag, a.data));
  }

  /** The host's copy of an object is written. */
  lemma CopyOk(cfg: Config, a: Action, s: State)
    requires Ok(cfg, s) && Enabled(cfg, a, s) && (a.Allocates? || a.HostStores?)
    ensures Ok(cfg, Apply(cfg, a, s))
  {
    hide OwnersAreOk, WaiterOk, Unused, AllItems, SendOk;
  }

  lemma HTransmitOk(cfg: Config, s: State)
    requires WellFormed(cfg) && Ok(cfg, s) && Enabled(cfg, HTransmit, s)
    ensures Ok(cfg, Apply(cfg, HTransmit, s))
  {
    hide OwnersAreOk, StreamOk;
    var x := s.h.sends[|s.w.link.sent|];
    assert SendOk(cfg, x);
    StreamSends(cfg.size, s.w.link, Transmitted(s.h, x));
  }

  lemma WaiterStepOk(cfg: Config, a: Action, s: State)
    requires WellFormed(cfg) && Ok(cfg, s) && Enabled(cfg, a, s)
    requires a.WSync? || a.WEnqueue? || a.WMap? || a.WUnmap?
    ensures Ok(cfg, Apply(cfg, a, s))
  {
    hide OwnersAreOk, HostOk, StreamOk, MayStart;
    assert s.w.loop != [] ==> s.w.loop[0] in s.w.loop;
  }

  lemma WPostOk(cfg: Config, s: State, q: nat)
    requires WellFormed(cfg) && Ok(cfg, s) && Enabled(cfg, WPost(q), s)
    ensures Ok(cfg, Apply(cfg, WPost(q), s))
  {
    hide OwnersAreOk, HostOk, StreamOk;
    var lane := LaneOf(s.w, q);
    assert Head(lane) in lane.log;
    StreamPosts(cfg.size, s.w.link, Head(lane));
  }

  lemma WReceiveOk(cfg: Config, s: State)
    requires Ok(cfg, s) && Enabled(cfg, WReceive, s)
    ensures Ok(cfg, Apply(cfg, WReceive, s))
  {
    hide OwnersAreOk, HostOk, StreamOk, CanReceive, Next, Received;
    StreamReceives(cfg.size, s.w.link);
  }

  lemma WriteOk(cfg: Config, a: Action, s: State)
    requires Ok(cfg, s) && Enabled(cfg, a, s) && (a.WritePost? || a.WritePostAfter?)
    ensures Ok(cfg, Apply(cfg, a, s))
  {
    hide OwnersAreOk, StreamOk, MayWrite;
    if a.WritePostAfter? {
      var k :| 0 <= k < |s.h.sends| && SendTags(s.h.sends)[k] == a.tag;
      assert SendOk(cfg, s.h.sends[k]);
    }
    StreamPosts(cfg.size, s.w.link, a.tag);
  }

  /** A step of an owner, or of another command on its stream. */
  predicate OfOwner(a: Action) {
    a.OSync? || a.OEnqueue? || a.OMap? || a.OSend? || a.OUnmap? || a.ReadSend? || a.ReadPostAfter? || a.ReadPost?
    || a.ReadSendAfter? || a.OwnerWrites?
  }

  lemma OfOwnerOk(cfg: Config, a: Action, s: State)
    requires WellFormed(cfg) && Ok(cfg, s) && Enabled(cfg, a, s) && OfOwner(a)
    ensures Ok(cfg, Apply(cfg, a, s))
  {
    if a.OwnerWrites? {
      hide Ok, WellFormed;
      WritesOk(cfg, s, a.n, a.x, a.data);
    } else {
      hide Ok, WellFormed, Enabled, Apply;
      match a
      case OSync(n) => OSyncOk(cfg, s, n);
      case OEnqueue(n) => OEnqueueOk(cfg, s, n);
      case OMap(n) => OMapOk(cfg, s, n);
      case OSend(n) => OSendOk(cfg, s, n);
      case OUnmap(n) => OUnmapOk(cfg, s, n);
      case ReadSend(_, _, _) => ReadSendOk(cfg, a, s);
      case ReadSendAfter(_, _, _) => ReadSendOk(cfg, a, s);
      case ReadPost(_, _) => ReadPostOk(cfg, a, s);
      case ReadPostAfter(_, _) => ReadPostOk(cfg, a, s);
    }
  }

  lemma EventOk(cfg: Config, a: Action, s: State)
    requires Ok(cfg, s) && Enabled(cfg, a, s) && (a.EventCompletes? || a.ReplicaCompletes? || a.WaiterWrites?)
    ensures Ok(cfg, Apply(cfg, a, s))
  {
    hide OwnersAreOk, HostOk, StreamOk, AllItems, AllAsked;
  }

  lemma StepOk(cfg: Config, a: Action, s: State)
    requires WellFormed(cfg) && Ok(cfg, s) && Enabled(cfg, a, s)
    ensures Ok(cfg, Apply(cfg, a, s))
  {
    hide Ok, WellFormed, Enabled, Apply;
    if OfOwner(a) {
      OfOwnerOk(cfg, a, s);
    } else {
      match a
      case EventCompletes(_) | ReplicaCompletes(_) | WaiterWrites(_, _) => EventOk(cfg, a, s);
      case Allocates(_, _) | HostStores(_, _) => CopyOk(cfg, a, s);
      case HSync => HSyncOk(cfg, s);
      case HPost => HPostOk(cfg, s);
      case HReceive(n) => HReceiveOk(cfg, s, n);
      case HSetCallback | HTrigger => HostStepOk(cfg, a, s);
      case WriteSendAfter(_, _) | WriteSend(_, _) => WriteSendOk(cfg, a, s);
      case HTransmit => HTransmitOk(cfg, s);
      case WSync(_) | WEnqueue | WMap(_) | WUnmap(_) => WaiterStepOk(cfg, a, s);
      case WPost(q) => WPostOk(cfg, s, q);
      case WReceive => WReceiveOk(cfg, s);
      case WritePost(_) | WritePostAfter(_) => WriteOk(cfg, a, s);
    }
  }

  lemma InitOk(cfg: Config, mems: map<nat, map<Obj, Bytes>>, wm: map<Obj, Bytes>)
    requires Memory(cfg, mems)
    ensures Ok(cfg, Init(mems, wm))
  {
    ConservedEmpty(cfg.size);
    hide StreamOk, OwnerOk;
    forall n | n in mems ensures OwnerOk(cfg, NewOwner(mems[n])) {
      NewOwnerOk(cfg, mems[n]);
    }
    assert StreamOk(cfg.size, EMPTY) by {
      EmptyOk(cfg.size);
    }
  }

  lemma EmptyOk(size: Obj -> nat)
    ensures StreamOk(size, EMPTY)
  {
    ConservedEmpty(size);
  }

  lemma NewOwnerOk(cfg: Config, mem: map<Obj, Bytes>)
    requires Holds(cfg, mem)
    ensures OwnerOk(cfg, NewOwner(mem))
  {
    EmptyOk(cfg.size);
    hide StreamOk, Holds;
  }

  lemma {:induction false} RunOk(cfg: Config, mems: map<nat, map<Obj, Bytes>>, wm: map<Obj, Bytes>, run: seq<Action>)
    requires WellFormed(cfg) && Memory(cfg, mems) && Exec(cfg, Init(mems, wm), run).Some?
    ensures Ok(cfg, Exec(cfg, Init(mems, wm), run).value)
    decreases |run|
  {
    hide Ok, WellFormed, Memory, Enabled, Apply, Init;
    if run == [] {
      InitOk(cfg, mems, wm);
    } else {
      RunOk(cfg, mems, wm, run[..|run| - 1]);
      StepOk(cfg, run[|run| - 1], Exec(cfg, Init(mems, wm), run[..|run| - 1]).value);
    }
  }

  // ---- crossing ----

  /** A command's step crosses a transfer that is in flight from owner `n` to the host. */
  ghost predicate UpCrosses(cfg: Config, a: Action, s: State, n: nat)
    requires Enabled(cfg, a, s)
  {
    match a
    case OSend(m) => m == n && SendCrosses(s.o[m].link, Head(s.o[m].lane))
    case ReadSend(m, tag, _) => m == n && SendCrosses(s.o[m].link, tag)
    case HPost => GetRound(cfg, RoundOf(s.h.loop[0])).owner == n && PostCrosses(s.o[n].link, s.h.loop[0])
    case ReadSendAfter(m, tag, _) => m == n && SendCrosses(s.o[m].link, tag)
    case ReadPost(m, tag) => m == n && PostCrosses(s.o[m].link, tag)
    case ReadPostAfter(m, tag) => m == n && PostCrosses(s.o[m].link, tag)
    case _ => false
  }

  /** The same on the stream to the waiting node. */
  ghost predicate DownCrosses(cfg: Config, a: Action, s: State)
    requires Enabled(cfg, a, s)
  {
    match a
    case HTransmit => SendCrosses(s.w.link, SendTag(s.h.sends[|s.w.link.sent|]))
    case WPost(q) => PostCrosses(s.w.link, Head(LaneOf(s.w, q)))
    case WritePost(tag) => PostCrosses(s.w.link, tag)
    case WritePostAfter(tag) => PostCrosses(s.w.link, tag)
    case _ => false
  }

  ghost predicate UpUncrossed(cfg: Config, from: State, run: seq<Action>, n: nat)
    requires Exec(cfg, from, run).Some?
    decreases |run|
  {
    run == [] ||
    (UpUncrossed(cfg, from, run[..|run| - 1], n)
     && !UpCrosses(cfg, run[|run| - 1], Exec(cfg, from, run[..|run| - 1]).value, n))
  }

  ghost predicate DownUncrossed(cfg: Config, from: State, run: seq<Action>)
    requires Exec(cfg, from, run).Some?
    decreases |run|
  {
    run == [] ||
    (DownUncrossed(cfg, from, run[..|run| - 1])
     && !DownCrosses(cfg, run[|run| - 1], Exec(cfg, from, run[..|run| - 1]).value))
  }

  /** A step leaves the two ends of an owner's stream in one order exactly if they were and it does not cross. */
  lemma UpStep(cfg: Config, a: Action, s: State, n: nat)
    requires Enabled(cfg, a, s) && n in s.o
    ensures n in Apply(cfg, a, s).o
    ensures InOneOrder(Apply(cfg, a, s).o[n].link) <==> InOneOrder(s.o[n].link) && !UpCrosses(cfg, a, s, n)
  {
    hide InOneOrder, Apply, Enabled, SendCrosses, PostCrosses;
    match a
    case OSend(m) => OSendKeeps(cfg, s, m, n);
    case ReadSend(m, tag, data) => ReadSendKeeps(cfg, s, m, tag, data, n);
    case HPost => HPostKeeps(cfg, s, n);
    case ReadSendAfter(m, tag, data) => ReadSendAfterKeeps(cfg, s, m, tag, data, n);
    case ReadPost(m, tag) => ReadPostKeeps(cfg, s, m, tag, n);
    case ReadPostAfter(m, tag) => ReadPostAfterKeeps(cfg, s, m, tag, n);
    case _ => UpSame(cfg, a, s, n); SameOrderHolds(s.o[n].link, Apply(cfg, a, s).o[n].link);
  }

  lemma OSendKeeps(cfg: Config, s: State, m: nat, n: nat)
    requires Enabled(cfg, OSend(m), s) && n in s.o
    ensures var t := Apply(cfg, OSend(m), s);
            n in t.o && (InOneOrder(t.o[n].link) <==> InOneOrder(s.o[n].link) && !UpCrosses(cfg, OSend(m), s, n))
  {
    hide InOneOrder, SendCrosses;
    SendKeepsOrder(s.o[n].link, Chunk(Head(s.o[m].lane), s.o[m].lane.buffer));
  }

  lemma ReadSendKeeps(cfg: Config, s: State, m: nat, tag: Label, data: Bytes, n: nat)
    requires Enabled(cfg, ReadSend(m, tag, data), s) && n in s.o
    ensures var a := ReadSend(m, tag, data); var t := Apply(cfg, a, s);
            n in t.o && (InOneOrder(t.o[n].link) <==> InOneOrder(s.o[n].link) && !UpCrosses(cfg, a, s, n))
  {
    hide InOneOrder, SendCrosses, MayRead;
    SendKeepsOrder(s.o[n].link, Chunk(tag, data));
  }

  lemma HPostKeeps(cfg: Config, s: State, n: nat)
    requires Enabled(cfg, HPost, s) && n in s.o
    ensures var t := Apply(cfg, HPost, s);
            n in t.o && (InOneOrder(t.o[n].link) <==> InOneOrder(s.o[n].link) && !UpCrosses(cfg, HPost, s, n))
  {
    hide InOneOrder, PostCrosses;
    PostKeepsOrder(s.o[n].link, s.h.loop[0]);
  }

  lemma ReadSendAfterKeeps(cfg: Config, s: State, m: nat, tag: Label, data: Bytes, n: nat)
    requires Enabled(cfg, ReadSendAfter(m, tag, data), s) && n in s.o
    ensures var a := ReadSendAfter(m, tag, data); var t := Apply(cfg, a, s);
            n in t.o && (InOneOrder(t.o[n].link) <==> InOneOrder(s.o[n].link) && !UpCrosses(cfg, a, s, n))
  {
    hide InOneOrder, SendCrosses;
    SendKeepsOrder(s.o[n].link, Chunk(tag, data));
  }

  lemma ReadPostKeeps(cfg: Config, s: State, m: nat, tag: Label, n: nat)
    requires Enabled(cfg, ReadPost(m, tag), s) && n in s.o
    ensures var t := Apply(cfg, ReadPost(m, tag), s);
            n in t.o
            && (InOneOrder(t.o[n].link) <==> InOneOrder(s.o[n].link) && !UpCrosses(cfg, ReadPost(m, tag), s, n))
  {
    hide InOneOrder, PostCrosses, MayRead;
    PostKeepsOrder(s.o[n].link, tag);
  }

  lemma ReadPostAfterKeeps(cfg: Config, s: State, m: nat, tag: Label, n: nat)
    requires Enabled(cfg, ReadPostAfter(m, tag), s) && n in s.o
    ensures var t := Apply(cfg, ReadPostAfter(m, tag), s);
            n in t.o
            && (InOneOrder(t.o[n].link) <==> InOneOrder(s.o[n].link) && !UpCrosses(cfg, ReadPostAfter(m, tag), s, n))
  {
    hide InOneOrder, PostCrosses;
    PostKeepsOrder(s.o[n].link, tag);
  }

  /** Other steps post and send nothing on it. */
  lemma UpSame(cfg: Config, a: Action, s: State, n: nat)
    requires Enabled(cfg, a, s) && n in s.o && !a.OSend? && !a.HPost?
    requires !a.ReadSend? && !a.ReadPostAfter? && !a.ReadPost? && !a.ReadSendAfter?
    ensures var t := Apply(cfg, a, s);
            n in t.o && t.o[n].link.sent == s.o[n].link.sent && t.o[n].link.posted == s.o[n].link.posted
  {
    hide Enabled, Landed, Transmitted, WaiterReceived, Outgoing, Items, GetRound;
  }

  lemma DownStep(cfg: Config, a: Action, s: State)
    requires Enabled(cfg, a, s)
    ensures InOneOrder(Apply(cfg, a, s).w.link) <==> InOneOrder(s.w.link) && !DownCrosses(cfg, a, s)
  {
    hide InOneOrder, Apply, Enabled, SendCrosses, PostCrosses;
    match a
    case HTransmit => TransmitKeeps(cfg, s);
    case WPost(q) => WPostKeeps(cfg, s, q);
    case WritePost(tag) => WritePostKeeps(cfg, s, tag);
    case WritePostAfter(tag) => PostKeepsOrder(s.w.link, tag); WritePostAfterIs(cfg, s, tag);
    case _ => DownSame(cfg, a, s); SameOrderHolds(s.w.link, Apply(cfg, a, s).w.link);
  }

  lemma SameOrderHolds(link: Link, link': Link)
    requires link'.sent == link.sent && link'.posted == link.posted
    ensures InOneOrder(link') <==> InOneOrder(link)
  {
  }

  lemma TransmitKeeps(cfg: Config, s: State)
    requires Enabled(cfg, HTransmit, s)
    ensures InOneOrder(Apply(cfg, HTransmit, s).w.link) <==> InOneOrder(s.w.link) && !DownCrosses(cfg, HTransmit, s)
  {
    hide InOneOrder, SendCrosses;
    SendKeepsOrder(s.w.link, Transmitted(s.h, s.h.sends[|s.w.link.sent|]));
  }

  lemma WPostKeeps(cfg: Config, s: State, q: nat)
    requires Enabled(cfg, WPost(q), s)
    ensures InOneOrder(Apply(cfg, WPost(q), s).w.link) <==> InOneOrder(s.w.link) && !DownCrosses(cfg, WPost(q), s)
  {
    hide InOneOrder, PostCrosses;
    PostKeepsOrder(s.w.link, Head(LaneOf(s.w, q)));
  }

  lemma WritePostKeeps(cfg: Config, s: State, tag: Label)
    requires Enabled(cfg, WritePost(tag), s)
    ensures InOneOrder(Apply(cfg, WritePost(tag), s).w.link)
            <==> InOneOrder(s.w.link) && !DownCrosses(cfg, WritePost(tag), s)
  {
    hide InOneOrder, PostCrosses, MayWrite;
    PostKeepsOrder(s.w.link, tag);
  }

  lemma WritePostAfterIs(cfg: Config, s: State, tag: Label)
    requires Enabled(cfg, WritePostAfter(tag), s)
    ensures Apply(cfg, WritePostAfter(tag), s).w.link == Posted(s.w.link, tag)
  {
  }

  lemma DownSame(cfg: Config, a: Action, s: State)
    requires Enabled(cfg, a, s) && !a.HTransmit? && !a.WPost? && !a.WritePost? && !a.WritePostAfter?
    ensures var t := Apply(cfg, a, s); t.w.link.sent == s.w.link.sent && t.w.link.posted == s.w.link.posted
  {
    hide Enabled, Landed, Outgoing, Items, GetRound, Patched;
  }

  lemma {:induction false} UpRun(cfg: Config, from: State, run: seq<Action>, n: nat)
    requires Exec(cfg, from, run).Some? && n in from.o && InOneOrder(from.o[n].link)
    ensures n in Exec(cfg, from, run).value.o
    ensures InOneOrder(Exec(cfg, from, run).value.o[n].link) <==> UpUncrossed(cfg, from, run, n)
    decreases |run|
  {
    hide InOneOrder, Enabled, Apply, UpCrosses;
    if run != [] {
      UpRun(cfg, from, run[..|run| - 1], n);
      UpStep(cfg, run[|run| - 1], Exec(cfg, from, run[..|run| - 1]).value, n);
    }
  }

  lemma {:induction false} DownRun(cfg: Config, from: State, run: seq<Action>)
    requires Exec(cfg, from, run).Some? && InOneOrder(from.w.link)
    ensures InOneOrder(Exec(cfg, from, run).value.w.link) <==> DownUncrossed(cfg, from, run)
    decreases |run|
  {
    hide InOneOrder, Enabled, Apply, DownCrosses;
    if run != [] {
      DownRun(cfg, from, run[..|run| - 1]);
      DownStep(cfg, run[|run| - 1], Exec(cfg, from, run[..|run| - 1]).value);
    }
  }

  /** For a stream whose posted receives are all complete. */
  lemma DrainedIsExact(size: Obj -> nat, link: Link)
    requires StreamOk(size, link) && Tail(link) == [] && Incomparable(link.sent)
    ensures AllRight(link) <==> InOneOrder(link)
  {
    assert Labels(link.got) == link.posted;
    assert Positive(size, Labels(link.got));
    RightIsExact(size, link);
    if GotInOrder(link) {
      forall k | 0 <= k < |link.posted| && k < |link.sent| ensures link.posted[k] == Labels(link.sent)[k] {
        assert Labels(link.got)[k] == link.posted[k];
      }
    }
    if InOneOrder(link) {
      OneOrderGot(size, link);
    }
  }

  /** Over every run, whatever rounds, reads and writes it starts at the same time: once the posted receives
      from an owner are complete, each got the bytes of its own transfer if and only if no command's send or
      receive was posted across another transfer that was in flight. Contents can be told apart. */
  lemma OwnerStreamIsExact(cfg: Config, mems: map<nat, map<Obj, Bytes>>, wm: map<Obj, Bytes>, run: seq<Action>,
          s: State, n: nat)
    requires WellFormed(cfg) && Memory(cfg, mems) && Exec(cfg, Init(mems, wm), run) == Some(s) && n in mems && n in s.o
    requires Tail(s.o[n].link) == [] && Incomparable(s.o[n].link.sent)
    ensures AllRight(s.o[n].link) <==> UpUncrossed(cfg, Init(mems, wm), run, n)
  {
    hide WellFormed, Memory, Exec, Incomparable, AllRight, Tail, StreamOk;
    RunOk(cfg, mems, wm, run);
    OwnerIs(cfg, s.o, n);
    UpRun(cfg, Init(mems, wm), run, n);
    DrainedIsExact(cfg.size, s.o[n].link);
  }

  /** The same for the stream to the waiting node. */
  lemma WaiterStreamIsExact(cfg: Config, mems: map<nat, map<Obj, Bytes>>, wm: map<Obj, Bytes>, run: seq<Action>,
          s: State)
    requires WellFormed(cfg) && Memory(cfg, mems) && Exec(cfg, Init(mems, wm), run) == Some(s)
    requires Tail(s.w.link) == [] && Incomparable(s.w.link.sent)
    ensures AllRight(s.w.link) <==> DownUncrossed(cfg, Init(mems, wm), run)
  {
    hide WellFormed, Memory, Exec, Incomparable, AllRight, Tail, StreamOk;
    RunOk(cfg, mems, wm, run);
    DownRun(cfg, Init(mems, wm), run);
    DrainedIsExact(cfg.size, s.w.link);
  }
}
