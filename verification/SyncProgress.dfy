/**
 Runs end: while an acquire chain is not complete some process can take a step that carries on what has been
 begun, and only boundedly many such steps are possible.
 */
module SyncProgress {
  import opened Seqs
  import opened Links
  import opened SyncProtocol
  import opened SyncLists
  import opened SyncInvariant
  import opened SyncDrained
  import opened SyncRuns
  import opened SyncSteps
  import opened SyncContents
  import opened SyncForeign
  import opened SyncDelivery
  import opened SyncMemory

  /** A step that begins a command of the application, as opposed to one that carries on. */
  predicate NewCommand(a: Action) {
    a.OwnerWrites? || a.WaiterWrites? || a.Allocates? || a.HostStores? || a.ReadSend? || a.ReadPost? || a.WriteSend?
    || a.WritePost?
  }

  ghost predicate CanMove(cfg: Config, s: State) {
    exists a :: !NewCommand(a) && Enabled(cfg, a, s)
  }

  lemma Moves(cfg: Config, s: State, a: Action)
    requires !NewCommand(a) && Enabled(cfg, a, s)
    ensures CanMove(cfg, s)
  {
  }

  // ---- streams have the bytes that they owe ----

  /** If everything is sent, the next receive has its bytes. */
  lemma EnoughBytes(cfg: Config, a: Side, b: Side, segs: seq<Seg>, link: Link)
    requires WellFormed(cfg) && Conserved(cfg.size, link) && Tail(link) != []
    requires Labels(link.sent) == Expand(cfg, a, segs) && link.posted <= Expand(cfg, b, segs)
    ensures CanReceive(cfg.size, link)
  {
    hide Expand, Data, WellFormed, Total;
    var all, k := Expand(cfg, b, segs), |link.got|;
    TotalExpand(cfg, a, b, segs);
    GotTotal(cfg.size, link);
    assert link.posted[..k] + [link.posted[k]] == link.posted[..k + 1];
    TotalConcat(cfg.size, link.posted[..k], [link.posted[k]]);
    TotalOne(cfg.size, link.posted[k]);
    PrefixOfPrefix(link.posted, all, k + 1);
    PrefixTotal(cfg.size, link.posted[..k + 1], all);
  }

  lemma PrefixOfPrefix(a: seq<Label>, b: seq<Label>, k: nat)
    requires a <= b && k <= |a|
    ensures a[..k] <= b
  {
  }

  // ---- an owner ----

  /** While the host waits for bytes of an owner, the host can take them or the owner can move. */
  lemma OwnerMoves(cfg: Config, s: State, n: nat, q: nat, m: nat)
    requires WellFormed(cfg) && InvAt(cfg, s, n, q) && m in s.o && Uses(cfg, m) && Tail(s.o[m].link) != []
    requires s.h.trigger == None && forall r :: 0 <= r < |cfg.rounds| ==> r in s.events
    ensures CanMove(cfg, s)
  {
    hide CanMove, WellFormed, InvAt, UpOk, CanReceive, Uses, Tail, OwnerPart, Lacks, MayStart, MayRead, Unused, FreshUp,
      FreshDown, Ready, Source;
    var o := s.o[m];
    OwnerIsOk(cfg, s, n, q, m);
    OwnerFacts(cfg, m, o, Part(s.h, m, n));
    if o.loop != [] {
      Moves(cfg, s, OEnqueue(m));
    } else if o.lane.pos < |o.lane.log| {
      ChainMoves(cfg, s, n, q, m);
    } else if o.orders.seen < |o.orders.log| {
      Moves(cfg, s, OSync(m));
    } else {
      ReadOwes(cfg, s, m, Part(s.h, m, n));
    }
  }

  /** An owner whose chains are complete owes the bytes of a read, or none. */
  lemma ReadOwes(cfg: Config, s: State, m: nat, part: seq<Label>)
    requires WellFormed(cfg) && m in s.o && UpOk(cfg, m, s.o[m], part) && Tail(s.o[m].link) != [] && s.h.trigger == None
    requires var o := s.o[m]; o.loop == [] && o.lane.pos == |o.lane.log| && o.orders.seen == |o.orders.log|
    requires Conserved(cfg.size, s.o[m].link) && s.o[m].link.posted <= Expand(cfg, AtHost, s.o[m].segs)
    ensures CanMove(cfg, s)
  {
    hide CanMove, WellFormed, UpOk, CanReceive, Tail, OwnerPart, Lacks, Conserved, Expand;
    var o := s.o[m];
    if Lacks(cfg, AtOwner, o.segs, Labels(o.link.sent) + OwnerPart(cfg, o)) {
      var tag := LackingReadSend(cfg, m, o, part);
      Moves(cfg, s, ReadSendAfter(m, tag, seq(tag.len, _ => 0)));
    } else {
      AllOfItSent(cfg, m, o, part);
      EnoughBytes(cfg, AtOwner, AtHost, o.segs, o.link);
      Moves(cfg, s, HReceive(m));
    }
  }

  lemma ChainMoves(cfg: Config, s: State, n: nat, q: nat, m: nat)
    requires WellFormed(cfg) && InvAt(cfg, s, n, q) && m in s.o && Uses(cfg, m) && s.o[m].lane.pos < |s.o[m].lane.log|
    requires forall r :: 0 <= r < |cfg.rounds| ==> r in s.events
    ensures CanMove(cfg, s)
  {
    hide CanMove, WellFormed, InvAt, UpOk, Uses, MayStart, MayRead, Unused, FreshUp, FreshDown, Ready, Source;
    var o := s.o[m];
    OwnerIsOk(cfg, s, n, q, m);
    OwnerFacts(cfg, m, o, Part(s.h, m, n));
    if o.lane.stage == Idle {
      NewRelease(cfg, m, o, Part(s.h, m, n));
      InTheOwnersMemory(cfg, s, n, q, Head(o.lane));
      Moves(cfg, s, OMap(m));
    } else if o.lane.stage == Mapped {
      Moves(cfg, s, OSend(m));
    } else {
      Moves(cfg, s, OUnmap(m));
    }
  }

  lemma OwnerFacts(cfg: Config, m: nat, o: Owner, part: seq<Label>)
    requires WellFormed(cfg) && UpOk(cfg, m, o, part)
    ensures o.lane.stage != Waiting && o.lane.pos <= |o.lane.log| && o.orders.seen <= |o.orders.log|
    ensures Conserved(cfg.size, o.link) && o.link.posted <= Expand(cfg, AtHost, o.segs)
  {
    CoversPrefix(cfg, AtHost, o.segs, o.link.posted + part);
    hide Conserved, Expand, Covers, Lacks, Proper, Holds, Requested;
  }

  lemma AllOfItSent(cfg: Config, m: nat, o: Owner, part: seq<Label>)
    requires UpOk(cfg, m, o, part) && o.loop == [] && o.lane.pos == |o.lane.log| && o.orders.seen == |o.orders.log|
    requires !Lacks(cfg, AtOwner, o.segs, Labels(o.link.sent) + OwnerPart(cfg, o))
    ensures Labels(o.link.sent) == Expand(cfg, AtOwner, o.segs)
  {
    hide Conserved, Expand, Lacks, Proper, Holds, Begun;
    assert Unseen(o.orders) == [] && Rest(o.lane) == [];
    assert Labels(o.link.sent) + OwnerPart(cfg, o) == Labels(o.link.sent);
  }

  /** The owner's side of a read that the host has begun. */
  lemma LackingReadSend(cfg: Config, m: nat, o: Owner, part: seq<Label>) returns (tag: Label)
    requires UpOk(cfg, m, o, part) && Lacks(cfg, AtOwner, o.segs, Labels(o.link.sent) + OwnerPart(cfg, o))
    ensures tag.Other? && tag.len > 0 && tag in o.link.posted && tag !in Labels(o.link.sent)
  {
    tag := o.segs[|o.segs| - 1].tag;
    LastIsNew(cfg, AtOwner, o.segs, tag);
    hide Conserved, Holds, OwnerPart, Expand, SideOk;
    assert Apart(tag) in o.segs;
    assert tag in Labels(o.link.sent) ==> tag in Labels(o.link.sent) + OwnerPart(cfg, o);
  }

  lemma InTheOwnersMemory(cfg: Config, s: State, n: nat, q: nat, l: Label)
    requires InvAt(cfg, s, n, q) && l.Item? && l.round < |cfg.rounds| && l.obj in List(cfg, AtOwner, l.round)
    ensures var m := GetRound(cfg, l.round).owner; m in s.o && l.obj in s.o[m].mem
  {
    hide OwnersOk, TailsOk, LanesOk, Flow, TailAt, SeenOk, DownOk, Alone;
    assert Provided(cfg.rounds[l.round], s.o);
  }

  // ---- the host ----

  /** While the host has something to do for a round, it or the owner can move. */
  lemma HostMoves(cfg: Config, s: State, n: nat, q: nat)
    requires WellFormed(cfg) && InvAt(cfg, s, n, q) && HostPending(cfg, s.w, s.h, TailAt(s.o, n)) != []
    requires forall r :: 0 <= r < |cfg.rounds| ==> r in s.events
    ensures CanMove(cfg, s)
  {
    hide CanMove, WellFormed, InvAt, Uses, Tail, ItemsTail, OthersDone, SendsDone, Pending, Requested;
    if s.h.posting.Some? {
      Moves(cfg, s, HSetCallback);
    } else if s.h.trigger.Some? {
      Moves(cfg, s, HTrigger);
    } else if s.h.loop != [] {
      LoopOwner(cfg, s, n, q);
      Moves(cfg, s, HPost);
    } else if s.w.asked.seen < |s.w.asked.log| {
      RequestUses(cfg, s, n, q);
      BusyHostAsked(cfg, s, n, q);
      Moves(cfg, s, HSync);
    } else {
      NothingAsked(cfg, s);
      BusyHost(cfg, s, n, q);
      TailIsThere(s.o, n);
      OwnerMoves(cfg, s, n, q, n);
    }
  }

  lemma TailIsThere(o: map<nat, Owner>, n: nat)
    requires TailAt(o, n) != []
    ensures n in o && Tail(o[n].link) != []
  {
  }

  lemma NothingAsked(cfg: Config, s: State)
    requires s.h.posting == None && s.h.trigger == None && s.h.loop == [] && s.w.asked.seen >= |s.w.asked.log|
    ensures forall tail :: HostPending(cfg, s.w, s.h, tail) == tail
  {
    assert Unseen(s.w.asked) == [];
    forall tail ensures HostPending(cfg, s.w, s.h, tail) == tail {
      assert tail + ([] + []) == tail;
      assert [] + ([] + (tail + ([] + []))) == tail;
    }
  }

  lemma LoopOwner(cfg: Config, s: State, n: nat, q: nat)
    requires WellFormed(cfg) && InvAt(cfg, s, n, q) && s.h.loop != []
    ensures GetRound(cfg, RoundOf(s.h.loop[0])).owner in s.o
  {
    hide OwnersOk, TailsOk, LanesOk, TailAt, SeenOk, DownOk, Alone;
    assert s.h.loop[0] in s.h.loop;
    assert Fits(cfg, s.h.loop[0], n, q);
    InTheMap(cfg, s.o, RoundOf(s.h.loop[0]));
  }

  lemma BusyHostAsked(cfg: Config, s: State, n: nat, q: nat)
    requires WellFormed(cfg) && InvAt(cfg, s, n, q) && s.w.asked.seen < |s.w.asked.log|
    ensures n in s.o
  {
    hide InvAt, WellFormed, HostPending;
    assert Unseen(s.w.asked) != [];
    BusyHost(cfg, s, n, q);
  }

  // ---- the waiting node ----

  lemma TransmitMoves(cfg: Config, s: State, n: nat, q: nat)
    requires Inv(cfg, s, n, q) && |s.w.link.sent| < |s.h.sends|
    ensures CanMove(cfg, s)
  {
    hide CanMove, InvAt, MapsApart, OwnersTold, AfterEvent, LandedTold, GotTold, Window, MemoryTold, InstalledTold;
    var x := s.h.sends[|s.w.link.sent|];
    assert x.Cached? ==> InCache(s.h, x.tag);
    Moves(cfg, s, HTransmit);
  }

  lemma WaiterItems(cfg: Config, s: State, n: nat, q: nat)
    requires WellFormed(cfg) && InvAt(cfg, s, n, q)
    ensures s.w.link.posted <= Expand(cfg, AtWaiter, s.w.segs) && Conserved(cfg.size, s.w.link)
    ensures |s.w.link.sent| >= |s.h.sends| && HostPending(cfg, s.w, s.h, TailAt(s.o, n)) == [] ==>
              Lacks(cfg, AtHost, s.w.segs, SendTags(s.h.sends) + [])
              || Labels(s.w.link.sent) == Expand(cfg, AtHost, s.w.segs)
  {
    hide InvAt, WellFormed, HostPending, Expand, Lacks, DownBasics, HostSide, WaiterSide, LanesOk, Alone, AllFit,
      TailAt;
    DownIs(cfg, s, n, q);
    BasicsAre(cfg, s.w, s.h);
    WaiterPosted(cfg, s.w, LaneOf(s.w, q));
    HostSent(cfg, s.w, s.h, TailAt(s.o, n));
  }

  lemma WaiterPosted(cfg: Config, w: Waiter, lane: Lane)
    requires WellFormed(cfg) && Proper(cfg, w.segs) && WaiterSide(cfg, w.segs, w.link, lane, w.loop)
    ensures w.link.posted <= Expand(cfg, AtWaiter, w.segs)
  {
    CoversPrefix(cfg, AtWaiter, w.segs, w.link.posted + (Rest(lane) + w.loop));
    hide Expand, Covers, Lacks, Rest, TailOk, LaneOk;
  }

  lemma HostSent(cfg: Config, w: Waiter, h: HostState, tail: seq<Label>)
    requires SendsOk(cfg, w.link.sent, h.sends) && HostSide(cfg, w, h, tail)
    ensures |w.link.sent| >= |h.sends| && HostPending(cfg, w, h, tail) == [] ==>
              Lacks(cfg, AtHost, w.segs, SendTags(h.sends) + []) || Labels(w.link.sent) == Expand(cfg, AtHost, w.segs)
  {
    hide Expand, Lacks, HostPending, PostingOk;
    assert SendTags(h.sends) + [] == SendTags(h.sends);
  }

  /** While a chain waits for its bytes, the node can take them or somebody can move. */
  lemma ReceiveMoves(cfg: Config, s: State, n: nat, q: nat)
    requires WellFormed(cfg) && Inv(cfg, s, n, q) && Tail(s.w.link) != []
    requires forall r :: 0 <= r < |cfg.rounds| ==> r in s.events
    requires !Lacks(cfg, AtHost, s.w.segs, HostList(cfg, s.w, s.h, TailAt(s.o, n)))
    ensures CanMove(cfg, s)
  {
    hide CanMove, WellFormed, InvAt, Told, MapsApart, InstalledTold, HostPending, Expand, CanReceive, Tail, TailAt,
      Lacks;
    if |s.w.link.sent| < |s.h.sends| {
      TransmitMoves(cfg, s, n, q);
    } else if HostPending(cfg, s.w, s.h, TailAt(s.o, n)) != [] {
      HostMoves(cfg, s, n, q);
    } else {
      WaiterItems(cfg, s, n, q);
      EnoughBytes(cfg, AtHost, AtWaiter, s.w.segs, s.w.link);
      Moves(cfg, s, WReceive);
    }
  }

  /** While an acquire chain is not complete, somebody can move. */
  lemma WaiterMoves(cfg: Config, s: State, n: nat, q: nat)
    requires WellFormed(cfg) && Inv(cfg, s, n, q) && Pending(s.w, q) != []
    requires forall r :: 0 <= r < |cfg.rounds| ==> r in s.events && r in s.replicas
    ensures CanMove(cfg, s)
  {
    hide CanMove, WellFormed, InvAt, Told, MapsApart, InstalledTold, HostPending, Expand, CanReceive, Lacks, LanesOk,
      Alone, AllFit, WaiterSide, HostSide, DownBasics, TailAt, OthersDone, SendsDone;
    if s.w.loop != [] {
      Moves(cfg, s, WEnqueue);
    } else {
      DownIs(cfg, s, n, q);
      WaiterLane(cfg, s.w, q);
      var lane := LaneOf(s.w, q);
      assert Undone(lane) != [];
      if lane.stage == Idle {
        HeadRound(cfg, s.w, n, q);
        Moves(cfg, s, WMap(q));
      } else if lane.stage == Mapped {
        Moves(cfg, s, WPost(q));
      } else if lane.stage == Moved {
        Moves(cfg, s, WUnmap(q));
      } else {
        StillAlone(s.o, s.w, s.h.sends, n, q);
        HostNotLacking(cfg, s.w, s.h, TailAt(s.o, n), lane);
        WaitsForBytes(cfg, s.w, lane);
        ReceiveMoves(cfg, s, n, q);
      }
    }
  }

  lemma WaitsForBytes(cfg: Config, w: Waiter, lane: Lane)
    requires WaiterSide(cfg, w.segs, w.link, lane, w.loop) && AtStage(lane, Waiting)
    ensures Tail(w.link) != []
  {
    hide SideOk, Tail, Rest;
  }

  lemma HeadRound(cfg: Config, w: Waiter, n: nat, q: nat)
    requires AllFit(cfg, Pending(w, q), n, q) && Undone(LaneOf(w, q)) != []
    ensures LaneOf(w, q).pos < |LaneOf(w, q).log| && RoundOf(Head(LaneOf(w, q))) < |cfg.rounds|
  {
    assert Undone(LaneOf(w, q))[0] == Head(LaneOf(w, q));
    assert Pending(w, q)[0] == Head(LaneOf(w, q));
    assert Fits(cfg, Pending(w, q)[0], n, q);
  }

  // ---- other transfers that are under way ----

  lemma DrainedOthers(cfg: Config, m: nat, o: Owner)
    requires WellFormed(cfg) && UpOk(cfg, m, o, []) && !Lacks(cfg, AtHost, o.segs, o.link.posted + [])
             && Tail(o.link) == []
    ensures OthersDone(o.link)
  {
    hide Expand, Proper, Data, Lacks, WellFormed, Holds, OwnerPart;
    assert Labels(o.link.got) == o.link.posted;
    forall l | l in Labels(o.link.sent) && l.Other? ensures l in Labels(o.link.got) {
      SentIsKnown(cfg, m, o, [], l);
      KnownIsPosted(cfg, AtHost, o.segs, o.link.posted, [], l);
    }
  }

  lemma LackingRead(cfg: Config, m: nat, o: Owner) returns (tag: Label)
    requires UpOk(cfg, m, o, []) && Lacks(cfg, AtHost, o.segs, o.link.posted + [])
    ensures tag.Other? && tag in Labels(o.link.sent) && tag !in o.link.posted
  {
    tag := o.segs[|o.segs| - 1].tag;
    LastIsNew(cfg, AtHost, o.segs, tag);
    hide Conserved, SideOk, Holds, OwnerPart, Expand;
    assert Apart(tag) in o.segs;
    assert o.link.posted + [] == o.link.posted;
  }

  /** A read that is under way can be carried on. */
  lemma ReadMoves(cfg: Config, s: State, n: nat, q: nat, m: nat)
    requires WellFormed(cfg) && InvAt(cfg, s, n, q) && m in s.o && Uses(cfg, m) && s.h.loop == [] && s.h.trigger == None
    requires !OthersDone(s.o[m].link) && forall r :: 0 <= r < |cfg.rounds| ==> r in s.events
    ensures CanMove(cfg, s)
  {
    hide CanMove, WellFormed, InvAt, UpOk, CanReceive, Uses, Tail, OthersDone, Lacks;
    var o := s.o[m];
    OwnerIsOk(cfg, s, n, q, m);
    assert Part(s.h, m, n) == [];
    if Lacks(cfg, AtHost, o.segs, o.link.posted + []) {
      var tag := LackingRead(cfg, m, o);
      Moves(cfg, s, ReadPostAfter(m, tag));
    } else {
      if Tail(o.link) == [] {
        DrainedOthers(cfg, m, o);
      }
      OwnerMoves(cfg, s, n, q, m);
    }
  }

  lemma LackingSend(cfg: Config, w: Waiter, h: HostState) returns (tag: Label)
    requires DownBasics(cfg, w, h) && Lacks(cfg, AtHost, w.segs, SendTags(h.sends) + [])
    ensures tag.Other? && tag.len > 0 && tag in w.link.posted && tag !in SendTags(h.sends)
  {
    tag := w.segs[|w.segs| - 1].tag;
    hide Conserved, SendsOk, Holds, AllItems;
    LastIsNew(cfg, AtHost, w.segs, tag);
    hide Expand;
    assert Apart(tag) in w.segs;
    assert SendTags(h.sends) + [] == SendTags(h.sends);
  }

  lemma LackingPost(cfg: Config, w: Waiter, h: HostState) returns (tag: Label)
    requires DownBasics(cfg, w, h) && Lacks(cfg, AtWaiter, w.segs, w.link.posted + [])
    ensures tag.Other? && tag in SendTags(h.sends) && tag !in w.link.posted
  {
    tag := w.segs[|w.segs| - 1].tag;
    hide Conserved, SendsOk, Holds, AllItems;
    LastIsNew(cfg, AtWaiter, w.segs, tag);
    hide Expand;
    assert Apart(tag) in w.segs;
    assert w.link.posted + [] == w.link.posted;
  }

  lemma DrainedWrites(cfg: Config, w: Waiter, h: HostState)
    requires WellFormed(cfg) && DownBasics(cfg, w, h) && Tail(w.link) == []
    requires Covers(cfg, AtWaiter, w.segs, w.link.posted + []) && !Lacks(cfg, AtWaiter, w.segs, w.link.posted + [])
    requires Covers(cfg, AtHost, w.segs, SendTags(h.sends) + [])
    ensures OthersDone(w.link) && SendsDone(w.link, h.sends)
  {
    hide Expand, Proper, Data, Lacks, WellFormed, Holds, Covers, Begun, SendOk;
    assert Labels(w.link.got) == w.link.posted;
    forall l | l in SendTags(h.sends) && l.Other? ensures l in Labels(w.link.got) {
      PostedIsKnown(cfg, AtHost, w.segs, SendTags(h.sends), [], l);
      KnownIsPosted(cfg, AtWaiter, w.segs, w.link.posted, [], l);
    }
    SentAmongSends(w.link, h.sends);
  }

  lemma SentAmongSends(link: Link, sends: seq<Send>)
    requires |link.sent| <= |sends| && Labels(link.sent) == SendTags(sends)[..|link.sent|]
    ensures forall l :: l in Labels(link.sent) ==> l in SendTags(sends)
  {
  }

  /** A write that is under way can be carried on. */
  lemma WriteMoves(cfg: Config, s: State, n: nat, q: nat)
    requires WellFormed(cfg) && Inv(cfg, s, n, q) && Pending(s.w, q) == []
    requires !(OthersDone(s.w.link) && SendsDone(s.w.link, s.h.sends))
             && forall r :: 0 <= r < |cfg.rounds| ==> r in s.events
    ensures CanMove(cfg, s)
  {
    hide CanMove, WellFormed, InvAt, Told, MapsApart, InstalledTold, HostPending, Expand, CanReceive, Tail, TailAt,
      Lacks, OthersDone, SendsDone, WaiterSide, HostSide, DownBasics, LanesOk, Alone, AllFit, Covers;
    Relead(cfg, s, n, q, n, q);
    DownIs(cfg, s, n, q);
    WaiterLane(cfg, s.w, q);
    BothSides(cfg, s.w, s.h, LaneOf(s.w, q));
    if |s.w.link.sent| < |s.h.sends| {
      TransmitMoves(cfg, s, n, q);
    } else if Lacks(cfg, AtHost, s.w.segs, SendTags(s.h.sends) + []) {
      var tag := LackingSend(cfg, s.w, s.h);
      Moves(cfg, s, WriteSendAfter(tag, if IsMap(tag) then [] else seq(tag.len, _ => 0)));
    } else if Lacks(cfg, AtWaiter, s.w.segs, s.w.link.posted + []) {
      var tag := LackingPost(cfg, s.w, s.h);
      Moves(cfg, s, WritePostAfter(tag));
    } else {
      if Tail(s.w.link) == [] {
        DrainedWrites(cfg, s.w, s.h);
      }
      ReceiveMoves(cfg, s, n, q);
    }
  }

  /** Both sides, while no chain is unfinished. */
  lemma BothSides(cfg: Config, w: Waiter, h: HostState, lane: Lane)
    requires WaiterSide(cfg, w.segs, w.link, lane, w.loop) && HostSide(cfg, w, h, [])
             && HostPending(cfg, w, h, []) == []
    requires Undone(lane) == [] && w.loop == []
    ensures Covers(cfg, AtWaiter, w.segs, w.link.posted + []) && Covers(cfg, AtHost, w.segs, SendTags(h.sends) + [])
  {
    IdleRest(lane);
    hide Covers, Lacks, HostPending, Tail, Rest;
    assert Rest(lane) + w.loop == [];
  }

  // ---- no deadlock ----

  lemma UnfinishedIsPending(cfg: Config, w: Waiter, q: nat, l: Label)
    requires LanesOk(cfg, w.lanes, q) && Unfinished(w, l)
    ensures l in Pending(w, q)
  {
    if l !in w.loop {
      var p :| p in w.lanes && l in Undone(w.lanes[p]);
      assert p == q;
    }
  }

  /** A map that is under way can be carried on. */
  lemma MapMoves(cfg: Config, s: State, n: nat, q: nat, m: nat, tag: Label)
    requires WellFormed(cfg) && InvAt(cfg, s, n, q) && ForeignOk(cfg, s.o) && s.h.loop == [] && s.h.trigger == None
    requires m in s.o && UnderWay(s.o[m].link, tag) && tag.Other?
    requires forall r :: 0 <= r < |cfg.rounds| ==> r in s.events
    ensures CanMove(cfg, s)
  {
    hide CanMove, WellFormed, InvAt, ForeignOk, UnderWay, Uses, OthersDone;
    if Uses(cfg, m) {
      OwnerIsOk(cfg, s, n, q, m);
      UnderWayIsOther(cfg, m, s.o[m], Part(s.h, m, n), tag);
      ReadMoves(cfg, s, n, q, m);
    } else {
      var a := ForeignMoves(cfg, s, m, tag);
      Moves(cfg, s, a);
    }
  }

  lemma UnderWayIsOther(cfg: Config, m: nat, o: Owner, part: seq<Label>, tag: Label)
    requires WellFormed(cfg) && UpOk(cfg, m, o, part) && UnderWay(o.link, tag) && tag.Other?
    ensures !OthersDone(o.link)
  {
    if tag in Tail(o.link) {
      PostedNoDup(cfg, AtHost, o.segs, o.link.posted, part);
      hide Covers, Lacks, Expand, Data, Proper, LaneOk, Holds, Begun, OwnerPart;
      var i :| 0 <= i < |Tail(o.link)| && Tail(o.link)[i] == tag;
      NotEarlier(o.link.posted, |o.link.got|, |o.link.got| + i);
      assert tag in o.link.posted;
    } else {
      NotGot(cfg, m, o, part, tag);
    }
  }

  /** The next round can be requested, or what keeps it waiting can be carried on. */
  lemma RequestMoves(cfg: Config, s: State, n: nat, q: nat, r: nat)
    requires WellFormed(cfg) && Inv(cfg, s, n, q) && ForeignOk(cfg, s.o) && Pending(s.w, q) == []
    requires r < |cfg.rounds| && r !in s.w.asked.log
    requires s.h.trigger == None && forall r :: 0 <= r < |cfg.rounds| ==> r in s.events
    ensures CanMove(cfg, s)
  {
    hide CanMove, WellFormed, InvAt, Told, MapsApart, InstalledTold, HostPending, OthersDone, SendsDone, Uses,
      Unfinished, LanesOk, Undone, WaiterSide, HostSide, DownBasics, Alone, AllFit, Compatible, MapsApart, ForeignOk,
      UnderWay, Set;
    Relead(cfg, s, n, q, n, q);
    DownIs(cfg, s, n, q);
    OwnerThere(cfg, s, n, q, r);
    var m := GetRound(cfg, r).owner;
    if !OthersDone(s.o[m].link) {
      ReadMoves(cfg, s, n, q, m);
    } else if !(OthersDone(s.w.link) && SendsDone(s.w.link, s.h.sends)) {
      WriteMoves(cfg, s, n, q);
    } else if p, tag :| p in s.o && UnderWay(s.o[p].link, tag) && IsMap(tag) {
      MapMoves(cfg, s, n, q, p, tag);
    } else {
      forall l | Unfinished(s.w, l) ensures false {
        UnfinishedIsPending(cfg, s.w, q, l);
      }
      SendsDoneIs(s);
      Moves(cfg, s, WSync(r));
    }
  }

  lemma SendsDoneIs(s: State)
    requires OthersDone(s.w.link) && SendsDone(s.w.link, s.h.sends)
    ensures DownOthersDone(s)
  {
    hide OthersDone;
  }

  lemma InvMoves(cfg: Config, s: State, n: nat, q: nat)
    requires WellFormed(cfg) && Inv(cfg, s, n, q) && ForeignOk(cfg, s.o) && !Final(cfg, s)
    ensures CanMove(cfg, s)
  {
    hide CanMove, WellFormed, InvAt, Told, InstalledTold, Unfinished, LanesOk, WaiterSide, HostSide, DownBasics, Alone,
      AllFit, MapsApart, ForeignOk;
    DownIs(cfg, s, n, q);
    if r: nat :| r < |cfg.rounds| && r !in s.events {
      Moves(cfg, s, EventCompletes(r));
    } else if r: nat :| r < |cfg.rounds| && r !in s.replicas {
      Moves(cfg, s, ReplicaCompletes(r));
    } else if s.h.trigger.Some? {
      Moves(cfg, s, HTrigger);
    } else if Pending(s.w, q) != [] {
      WaiterMoves(cfg, s, n, q);
    } else {
      var r := Unasked(cfg, s, n, q);
      RequestMoves(cfg, s, n, q, r);
    }
  }

  lemma Unasked(cfg: Config, s: State, n: nat, q: nat) returns (r: nat)
    requires LanesOk(cfg, s.w.lanes, q) && Pending(s.w, q) == [] && !Final(cfg, s)
    ensures r < |cfg.rounds| && r !in s.w.asked.log
  {
    hide Unfinished, LanesOk, Pending;
    if l :| Unfinished(s.w, l) {
      UnfinishedIsPending(cfg, s.w, q, l);
    }
    r :| 0 <= r < |cfg.rounds| && r !in s.w.asked.log;
  }

  /** Until every acquire is complete, some process can carry on what has been begun: a run that cannot be
      continued is complete. */
  lemma NoDeadlock(cfg: Config, run: seq<Action>, s: State)
    requires WellFormed(cfg) && cfg.apart && Reaches(cfg, run, s) && !Final(cfg, s)
    ensures exists a :: !NewCommand(a) && Enabled(cfg, a, s)
  {
    hide WellFormed, Reaches, Inv, Final, ForeignOk;
    var n, q := Reachable(cfg, run, s);
    ReachableForeign(cfg, run, s);
    InvMoves(cfg, s, n, q);
  }
}
