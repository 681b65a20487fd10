/**
 Parts of buffers. Maps, unmaps and writes move a part of a buffer, from an offset on. What arrives takes its
 place in the host's copy or in the memory of the waiting node, byte by byte, and nothing else changes; what an
 unmap sends are the bytes of its part. This holds in every reachable state, whatever else the application does,
 and whichever side has posted its half of the transfer first.
 */
module SyncParts {
  import opened Seqs
  import opened Links
  import opened SyncProtocol
  import opened SyncContents
  import opened SyncMemory
  import opened SyncPhases
  import opened SyncLandings
  import opened SyncNodes
  import opened SyncCopies

  // ---- bytes ----

  lemma PatchedReplaces(bytes: Bytes, offset: nat, data: Bytes)
    requires offset + |data| <= |bytes|
    ensures Replaced(bytes, Patched(bytes, offset, data), offset, data)
  {
  }

  lemma OverlayReplaces(mem: map<Obj, Bytes>, p: Place, data: Bytes)
    requires p.obj in mem && p.offset + |data| <= |mem[p.obj]|
    ensures ReplacedIn(mem, Overlay(mem, p, data), p, data)
  {
    PatchedReplaces(mem[p.obj], p.offset, data);
    hide Patched;
  }

  // ---- what is known of parts ----

  /** A part of a buffer; if it is mapped, the host's copy is there. */
  predicate Fits(cfg: Config, cache: map<Obj, Bytes>, tag: Label) {
    tag.Other? ==> tag.place.offset + tag.len <= cfg.size(tag.place.obj) && (tag.mapped ==> tag.place.obj in cache)
  }

  ghost predicate MapsFit(cfg: Config, o: map<nat, Owner>, cache: map<Obj, Bytes>) {
    forall n, tag :: n in o && UnderWay(o[n].link, tag) && IsMap(tag) ==> Fits(cfg, cache, tag)
  }

  ghost predicate CopiesSized(cfg: Config, cache: map<Obj, Bytes>) {
    forall x :: x in cache ==> |cache[x]| == cfg.size(x)
  }

  ghost predicate DownFits(cfg: Config, w: Waiter, sends: seq<Send>, cache: map<Obj, Bytes>) {
    && (forall l :: l in w.link.posted ==> Fits(cfg, cache, l))
    && forall i :: 0 <= i < |sends| ==> SendFits(cfg, cache, sends[i])
  }

  /** Regions are sent for unmaps. */
  predicate SendFits(cfg: Config, cache: map<Obj, Bytes>, x: Send) {
    Fits(cfg, cache, SendTag(x)) && (x.Region? ==> IsMap(x.tag))
  }

  predicate HostHasItems(h: HostState) {
    && (forall l :: l in h.loop ==> l.Item?)
    && (h.posting.Some? ==> h.posting.value.Item?) && (h.trigger.Some? ==> h.trigger.value.Item?)
  }

  predicate WaiterHasItems(w: Waiter) {
    && (forall l :: l in w.loop ==> l.Item?)
    && forall q, l :: q in w.lanes && l in w.lanes[q].log ==> l.Item?
  }

  ghost predicate OwnersHaveItems(o: map<nat, Owner>) {
    forall n :: n in o ==> ChainsAreItems(o[n])
  }

  ghost predicate PartsFit(cfg: Config, s: State) {
    && MapsFit(cfg, s.o, s.h.cache) && CopiesSized(cfg, s.h.cache) && DownFits(cfg, s.w, s.h.sends, s.h.cache)
    && HostHasItems(s.h) && WaiterHasItems(s.w) && OwnersHaveItems(s.o)
  }

  // ---- every step keeps it ----

  lemma OwnersKeepItems(cfg: Config, a: Action, s: State)
    requires OwnersHaveItems(s.o) && Enabled(cfg, a, s)
    ensures OwnersHaveItems(Apply(cfg, a, s).o)
  {
    hide Enabled, Apply, ChainsAreItems;
    forall n | n in Apply(cfg, a, s).o ensures ChainsAreItems(Apply(cfg, a, s).o[n]) {
      SameKeys(cfg, a, s);
      ChainsStay(cfg, a, s, n);
    }
  }

  lemma SameKeys(cfg: Config, a: Action, s: State)
    requires Enabled(cfg, a, s)
    ensures Apply(cfg, a, s).o.Keys == s.o.Keys
  {
    if FarFromOwners(a) {
      hide Enabled, Apply;
      SameOwners(cfg, a, s);
    } else {
      hide MayRead, Payload, PartOf, Landed, Received, Items, GetRound;
    }
  }

  /** A receive of the host as a step. */
  lemma ReceiveIs(cfg: Config, s: State, n: nat)
    requires Enabled(cfg, HReceive(n), s)
    ensures Apply(cfg, HReceive(n), s).h == Landed(s.h, Next(cfg.size, s.o[n].link))
    ensures var c := Next(cfg.size, s.o[n].link); |c.bytes| == Len(cfg.size, c.tag)
  {
    hide Landed, Received;
  }

  lemma LandedKeeps(cfg: Config, h: HostState, c: Chunk)
    requires HostHasItems(h) && |c.bytes| == Len(cfg.size, c.tag)
    ensures HostHasItems(Landed(h, c))
    ensures CopiesSized(cfg, h.cache) ==>
              CopiesSized(cfg, Landed(h, c).cache) && h.cache.Keys <= Landed(h, c).cache.Keys
  {
    hide Patched;
  }

  lemma HostKeepsItems(cfg: Config, a: Action, s: State)
    requires HostHasItems(s.h) && Enabled(cfg, a, s)
    ensures HostHasItems(Apply(cfg, a, s).h)
  {
    if FarFromHost(a) {
      hide Enabled, Apply;
      SameHost(cfg, a, s);
    } else if a.HReceive? {
      hide Enabled, Apply, Landed, HostHasItems;
      ReceiveIs(cfg, s, a.n);
      LandedKeeps(cfg, s.h, Next(cfg.size, s.o[a.n].link));
    } else {
      if a.HSync? {
        ItemsOfRound(cfg, s.w.asked.log[s.w.asked.seen]);
      }
      hide Received, Items, GetRound, Landed, Put, Posted, Sent, Outgoing, MayRead, MayWrite, Unused, FreshDown;
    }
  }

  lemma WaiterKeepsItems(cfg: Config, a: Action, s: State)
    requires WaiterHasItems(s.w) && Enabled(cfg, a, s)
    ensures WaiterHasItems(Apply(cfg, a, s).w)
  {
    if a.WSync? {
      ItemsOfRound(cfg, a.r);
      hide MayStart, Items;
    } else if OfWaiter(a) {
      hide Received, CanReceive, Overlay, Items;
    } else {
      hide Enabled, Apply, WaiterHasItems;
      NothingArrives(cfg, a, s);
      SameChains(s.w, Apply(cfg, a, s).w);
    }
  }

  lemma SameChains(w: Waiter, w': Waiter)
    requires WaiterHasItems(w) && w'.loop == w.loop && w'.lanes == w.lanes
    ensures WaiterHasItems(w')
  {
  }

  /** The host's copies keep their sizes, and none is given up. */
  lemma CopiesStaySized(cfg: Config, a: Action, s: State)
    requires CopiesSized(cfg, s.h.cache) && HostHasItems(s.h) && Enabled(cfg, a, s)
    ensures CopiesSized(cfg, Apply(cfg, a, s).h.cache) && s.h.cache.Keys <= Apply(cfg, a, s).h.cache.Keys
  {
    if FarFromHost(a) {
      hide Enabled, Apply;
      SameHost(cfg, a, s);
    } else if a.HReceive? {
      hide Enabled, Apply, Landed, HostHasItems, CopiesSized;
      ReceiveIs(cfg, s, a.n);
      LandedKeeps(cfg, s.h, Next(cfg.size, s.o[a.n].link));
    } else {
      hide Received, Items, GetRound, Landed, Put, Posted, Sent, Outgoing, MayRead, MayWrite, Unused, FreshDown;
    }
  }

  lemma FitsMore(cfg: Config, cache: map<Obj, Bytes>, cache': map<Obj, Bytes>, tag: Label)
    requires Fits(cfg, cache, tag) && cache.Keys <= cache'.Keys
    ensures Fits(cfg, cache', tag)
  {
  }

  lemma MapsStayFit(cfg: Config, a: Action, s: State)
    requires MapsFit(cfg, s.o, s.h.cache) && OwnersHaveItems(s.o) && HostHasItems(s.h) && Enabled(cfg, a, s)
    requires s.h.cache.Keys <= Apply(cfg, a, s).h.cache.Keys
    ensures MapsFit(cfg, Apply(cfg, a, s).o, Apply(cfg, a, s).h.cache)
  {
    var t := Apply(cfg, a, s);
    forall n, tag | n in t.o && UnderWay(t.o[n].link, tag) && IsMap(tag) ensures Fits(cfg, t.h.cache, tag) {
      MapStaysFit(cfg, a, s, n, tag);
    }
  }

  lemma MapStaysFit(cfg: Config, a: Action, s: State, n: nat, tag: Label)
    requires MapsFit(cfg, s.o, s.h.cache) && OwnersHaveItems(s.o) && HostHasItems(s.h) && Enabled(cfg, a, s)
    requires s.h.cache.Keys <= Apply(cfg, a, s).h.cache.Keys
    requires n in Apply(cfg, a, s).o && UnderWay(Apply(cfg, a, s).o[n].link, tag) && IsMap(tag)
    ensures Fits(cfg, Apply(cfg, a, s).h.cache, tag)
  {
    hide Enabled, Apply, UnderWay, HostHasItems, OwnersHaveItems, Fits;
    if a.ReadSend? || a.ReadPost? {
      NewMapFits(cfg, a, s, n, tag);
    } else {
      if a.OSend? {
        HeadIsItem(cfg, s, a.n);
      }
      if a.HPost? {
        NextIsItem(cfg, s);
      }
      OldMaps(cfg, a, s, n);
      assert UnderWay(s.o[n].link, tag);
      FitsMore(cfg, s.h.cache, Apply(cfg, a, s).h.cache, tag);
    }
  }

  lemma NextIsItem(cfg: Config, s: State)
    requires HostHasItems(s.h) && Enabled(cfg, HPost, s)
    ensures s.h.loop[0].Item?
  {
  }

  lemma HeadIsItem(cfg: Config, s: State, n: nat)
    requires OwnersHaveItems(s.o) && Enabled(cfg, OSend(n), s)
    ensures Head(s.o[n].lane).Item?
  {
    assert ChainsAreItems(s.o[n]) && Head(s.o[n].lane) in s.o[n].lane.log;
  }

  lemma NewMapFits(cfg: Config, a: Action, s: State, n: nat, tag: Label)
    requires MapsFit(cfg, s.o, s.h.cache) && Enabled(cfg, a, s) && (a.ReadSend? || a.ReadPost?)
    requires n in Apply(cfg, a, s).o && UnderWay(Apply(cfg, a, s).o[n].link, tag) && IsMap(tag)
    ensures Fits(cfg, Apply(cfg, a, s).h.cache, tag)
  {
    hide MayRead, Payload, UnderWay;
    if n == a.n && tag != a.tag {
      BeginsOne(s.o[n].link, Apply(cfg, a, s).o[n].link, a.tag, tag);
    }
  }

  lemma DownStaysFit(cfg: Config, a: Action, s: State)
    requires DownFits(cfg, s.w, s.h.sends, s.h.cache) && HostHasItems(s.h) && WaiterHasItems(s.w) && Enabled(cfg, a, s)
    requires s.h.cache.Keys <= Apply(cfg, a, s).h.cache.Keys
    ensures var t := Apply(cfg, a, s); DownFits(cfg, t.w, t.h.sends, t.h.cache)
  {
    var t := Apply(cfg, a, s);
    PostedFits(cfg, a, s);
    SendsFit(cfg, a, s);
  }

  /** What a step posts on the stream to the waiting node. */
  lemma PostedFrom(cfg: Config, a: Action, s: State) returns (l: Label)
    requires Enabled(cfg, a, s) && WaiterHasItems(s.w)
    ensures var posted, posted' := s.w.link.posted, Apply(cfg, a, s).w.link.posted;
            posted' == posted || posted' == posted + [l]
    ensures l.Item? || (a.WritePostAfter? && l == a.tag && l in SendTags(s.h.sends))
            || (a.WritePost? && l == a.tag && FreshDown(cfg, s, l))
  {
    l := Item(0, 0);
    if a.WPost? {
      l := Head(LaneOf(s.w, a.q));
      assert l in LaneOf(s.w, a.q).log;
    } else if a.WritePostAfter? || a.WritePost? {
      l := a.tag;
      hide MayWrite, FreshDown;
    } else {
      hide Enabled, Apply;
      NoPost(cfg, a, s);
    }
  }

  lemma NoPost(cfg: Config, a: Action, s: State)
    requires Enabled(cfg, a, s) && !a.WPost? && !a.WritePostAfter? && !a.WritePost?
    ensures Apply(cfg, a, s).w.link.posted == s.w.link.posted
  {
    if OfWaiter(a) {
      hide Overlay, Head, Unmapped, Enqueued;
    } else {
      hide Enabled, Received, Landed, Transmitted, Outgoing, WaiterReceived, Items, GetRound, LaneOf, PutLane, Enqueued,
        Unmapped, Head, Patched, Posted;
    }
  }

  /** What was posted or sent, or begins now, fits. */
  lemma OneFits(cfg: Config, s: State, l: Label)
    requires DownFits(cfg, s.w, s.h.sends, s.h.cache)
    requires l.Item? || l in SendTags(s.h.sends) || l in s.w.link.posted || FreshDown(cfg, s, l)
    ensures Fits(cfg, s.h.cache, l)
  {
    if l in SendTags(s.h.sends) {
      var i :| 0 <= i < |s.h.sends| && SendTags(s.h.sends)[i] == l;
    }
  }

  lemma PostedFits(cfg: Config, a: Action, s: State)
    requires DownFits(cfg, s.w, s.h.sends, s.h.cache) && WaiterHasItems(s.w) && Enabled(cfg, a, s)
    requires s.h.cache.Keys <= Apply(cfg, a, s).h.cache.Keys
    ensures forall l :: l in Apply(cfg, a, s).w.link.posted ==> Fits(cfg, Apply(cfg, a, s).h.cache, l)
  {
    hide *;
    var l := PostedFrom(cfg, a, s);
    forall m | m in s.w.link.posted || m == l ensures Fits(cfg, Apply(cfg, a, s).h.cache, m) {
      OneFits(cfg, s, m);
      FitsMore(cfg, s.h.cache, Apply(cfg, a, s).h.cache, m);
    }
  }

  /** What a step posts to be sent to the waiting node. */
  lemma SendFrom(cfg: Config, a: Action, s: State)
    requires Enabled(cfg, a, s) && HostHasItems(s.h)
    ensures var sends, sends' := s.h.sends, Apply(cfg, a, s).h.sends;
            && |sends| <= |sends'| <= |sends| + 1 && sends'[..|sends|] == sends
            && (|sends| < |sends'| ==>
                  var l := SendTag(sends'[|sends|]);
                  && (sends'[|sends|].Region? ==> IsMap(l))
                  && (l.Item? || (a.WriteSend? && l == a.tag && FreshDown(cfg, s, l))
                      || (a.WriteSendAfter? && l == a.tag && l in s.w.link.posted)))
  {
    if OfWaiter(a) || a.WSync? {
      hide Enabled, Apply;
      WaiterOnly(cfg, a, s);
    } else if a.WriteSend? || a.WriteSendAfter? {
      hide MayWrite, FreshDown;
    } else {
      hide Received, Transmitted, Items, GetRound, MayRead, Payload, PartOf, Patched, Head, LaneOf, PutLane,
        WaiterReceived, Enqueued, Unmapped, Posted, Sent;
    }
  }

  lemma SendsFit(cfg: Config, a: Action, s: State)
    requires DownFits(cfg, s.w, s.h.sends, s.h.cache) && HostHasItems(s.h) && Enabled(cfg, a, s)
    requires s.h.cache.Keys <= Apply(cfg, a, s).h.cache.Keys
    ensures var t := Apply(cfg, a, s); forall i :: 0 <= i < |t.h.sends| ==> SendFits(cfg, t.h.cache, t.h.sends[i])
  {
    hide *;
    SendFrom(cfg, a, s);
    var sends', cache' := Apply(cfg, a, s).h.sends, Apply(cfg, a, s).h.cache;
    forall i | 0 <= i < |sends'| ensures SendFits(cfg, cache', sends'[i]) {
      if i < |s.h.sends| {
        assert sends'[..|s.h.sends|][i] == s.h.sends[i];
        OldSendFits(cfg, s, i);
      } else {
        OneFits(cfg, s, SendTag(sends'[i]));
      }
      SendFitsMore(cfg, s.h.cache, cache', sends'[i]);
    }
  }

  lemma OldSendFits(cfg: Config, s: State, i: nat)
    requires DownFits(cfg, s.w, s.h.sends, s.h.cache) && i < |s.h.sends|
    ensures Fits(cfg, s.h.cache, SendTag(s.h.sends[i])) && (s.h.sends[i].Region? ==> IsMap(SendTag(s.h.sends[i])))
  {
  }

  lemma SendFitsMore(cfg: Config, cache: map<Obj, Bytes>, cache': map<Obj, Bytes>, x: Send)
    requires Fits(cfg, cache, SendTag(x)) && (x.Region? ==> IsMap(SendTag(x))) && cache.Keys <= cache'.Keys
    ensures SendFits(cfg, cache', x)
  {
  }

  lemma StepFits(cfg: Config, a: Action, s: State)
    requires PartsFit(cfg, s) && Enabled(cfg, a, s)
    ensures PartsFit(cfg, Apply(cfg, a, s))
  {
    hide Enabled, Apply, MapsFit, CopiesSized, DownFits, HostHasItems, WaiterHasItems, OwnersHaveItems;
    CopiesStaySized(cfg, a, s);
    OwnersKeepItems(cfg, a, s);
    HostKeepsItems(cfg, a, s);
    WaiterKeepsItems(cfg, a, s);
    MapsStayFit(cfg, a, s);
    DownStaysFit(cfg, a, s);
  }

  lemma {:induction false} RunFits(cfg: Config, mems: map<nat, map<Obj, Bytes>>, wm: map<Obj, Bytes>, run: seq<Action>)
    requires Exec(cfg, Init(mems, wm), run).Some?
    ensures PartsFit(cfg, Exec(cfg, Init(mems, wm), run).value)
    decreases |run|
  {
    hide Enabled, Apply;
    if run != [] {
      hide PartsFit, Init;
      RunFits(cfg, mems, wm, run[..|run| - 1]);
      StepFits(cfg, run[|run| - 1], Exec(cfg, Init(mems, wm), run[..|run| - 1]).value);
    }
  }

  lemma ReachedFits(cfg: Config, run: seq<Action>, s: State)
    requires Reaches(cfg, run, s)
    ensures PartsFit(cfg, s)
  {
    hide PartsFit, Exec, Init, Memory;
    var mems, wm :| Memory(cfg, mems) && Exec(cfg, Init(mems, wm), run) == Some(s);
    RunFits(cfg, mems, wm, run);
  }

  // ---- a transfer begins on either side ----

  /** Both halves of a read or a map are posted. */
  function ReadPosted(s: State, n: nat, tag: Label, data: Bytes): State
    requires n in s.o
  {
    var link := s.o[n].link.(sent := s.o[n].link.sent + [Chunk(tag, data)], posted := s.o[n].link.posted + [tag],
                             wire := s.o[n].link.wire + data);
    s.(o := s.o[n := s.o[n].(link := link, segs := s.o[n].segs + [Apart(tag)])])
  }

  lemma NodeFirst(cfg: Config, s: State, n: nat, tag: Label, data: Bytes)
    requires Enabled(cfg, ReadSend(n, tag, data), s)
    ensures var t := Apply(cfg, ReadSend(n, tag, data), s);
            Enabled(cfg, ReadPostAfter(n, tag), t)
            && Apply(cfg, ReadPostAfter(n, tag), t) == ReadPosted(s, n, tag, data)
  {
    hide MayRead, PartOf;
    var t := Apply(cfg, ReadSend(n, tag, data), s);
    assert Labels(t.o[n].link.sent)[|s.o[n].link.sent|] == tag;
    assert s.o[n := t.o[n]][n := ReadPosted(s, n, tag, data).o[n]] == ReadPosted(s, n, tag, data).o;
  }

  lemma HostFirst(cfg: Config, s: State, n: nat, tag: Label, data: Bytes)
    requires Enabled(cfg, ReadPost(n, tag), s) && Payload(tag, data)
    ensures var t := Apply(cfg, ReadPost(n, tag), s);
            Enabled(cfg, ReadSendAfter(n, tag, data), t)
            && Apply(cfg, ReadSendAfter(n, tag, data), t) == ReadPosted(s, n, tag, data)
  {
    hide MayRead, PartOf;
    var t := Apply(cfg, ReadPost(n, tag), s);
    assert t.o[n].link.posted[|s.o[n].link.posted|] == tag;
    assert s.o[n := t.o[n]][n := ReadPosted(s, n, tag, data).o[n]] == ReadPosted(s, n, tag, data).o;
  }

  /** The host and the node can post their halves of a read or a map in either order, with the same effect. */
  lemma ReadFromEitherSide(cfg: Config, s: State, n: nat, tag: Label, data: Bytes)
    requires Payload(tag, data) && FreshUp(cfg, s, n, tag) && (cfg.apart ==> MayRead(cfg, s, n, tag))
    ensures Exec(cfg, s, [ReadSend(n, tag, data), ReadPostAfter(n, tag)]) == Some(ReadPosted(s, n, tag, data))
    ensures Exec(cfg, s, [ReadPost(n, tag), ReadSendAfter(n, tag, data)]) == Some(ReadPosted(s, n, tag, data))
  {
    hide Exec, Apply, MayRead, FreshUp, ReadPosted;
    assert Enabled(cfg, ReadSend(n, tag, data), s) && Enabled(cfg, ReadPost(n, tag), s);
    hide Enabled;
    NodeFirst(cfg, s, n, tag, data);
    HostFirst(cfg, s, n, tag, data);
    TwoSteps(cfg, s, ReadSend(n, tag, data), ReadPostAfter(n, tag));
    TwoSteps(cfg, s, ReadPost(n, tag), ReadSendAfter(n, tag, data));
  }

  function WritePosted(s: State, tag: Label, data: Bytes): State {
    s.(h := s.h.(sends := s.h.sends + [Outgoing(tag, data)]),
       w := s.w.(link := s.w.link.(posted := s.w.link.posted + [tag]), segs := s.w.segs + [Apart(tag)]))
  }

  lemma HostWritesFirst(cfg: Config, s: State, tag: Label, data: Bytes)
    requires Enabled(cfg, WriteSend(tag, data), s)
    ensures var t := Apply(cfg, WriteSend(tag, data), s);
            Enabled(cfg, WritePostAfter(tag), t) && Apply(cfg, WritePostAfter(tag), t) == WritePosted(s, tag, data)
  {
    hide MayWrite, PartOf;
    var sends := Apply(cfg, WriteSend(tag, data), s).h.sends;
    assert SendTags(sends)[|s.h.sends|] == tag;
    hide SendTags, Outgoing;
  }

  lemma NodeReceivesFirst(cfg: Config, s: State, tag: Label, data: Bytes)
    requires Source(tag, data) && Enabled(cfg, WritePost(tag), s)
    ensures var t := Apply(cfg, WritePost(tag), s);
            Enabled(cfg, WriteSendAfter(tag, data), t)
            && Apply(cfg, WriteSendAfter(tag, data), t) == WritePosted(s, tag, data)
  {
    hide MayWrite, PartOf, Outgoing, SendTags;
    assert Apply(cfg, WritePost(tag), s).w.link.posted[|s.w.link.posted|] == tag;
  }

  /** The same for a write or an unmap to the waiting node. */
  lemma WriteFromEitherSide(cfg: Config, s: State, tag: Label, data: Bytes)
    requires Source(tag, data) && FreshDown(cfg, s, tag) && (cfg.apart ==> MayWrite(s))
    ensures Exec(cfg, s, [WriteSend(tag, data), WritePostAfter(tag)]) == Some(WritePosted(s, tag, data))
    ensures Exec(cfg, s, [WritePost(tag), WriteSendAfter(tag, data)]) == Some(WritePosted(s, tag, data))
  {
    hide Exec, Apply, MayWrite, FreshDown, Source, WritePosted;
    assert Enabled(cfg, WriteSend(tag, data), s) && Enabled(cfg, WritePost(tag), s);
    hide Enabled;
    HostWritesFirst(cfg, s, tag, data);
    NodeReceivesFirst(cfg, s, tag, data);
    TwoSteps(cfg, s, WriteSend(tag, data), WritePostAfter(tag));
    TwoSteps(cfg, s, WritePost(tag), WriteSendAfter(tag, data));
  }

  // ---- what arrives and what is sent ----

  /** When the receive of a map is complete, the host's copy has its bytes from the offset on, and is otherwise
      as it was. */
  lemma MapArrivesInPlace(cfg: Config, run: seq<Action>, s: State, n: nat)
    requires Reaches(cfg, run, s) && Enabled(cfg, HReceive(n), s) && IsMap(Next(cfg.size, s.o[n].link).tag)
    ensures var c := Next(cfg.size, s.o[n].link);
            && |c.bytes| == c.tag.len
            && ReplacedIn(s.h.cache, Apply(cfg, HReceive(n), s).h.cache, c.tag.place, c.bytes)
  {
    hide Reaches, Overlay, Received;
    ReachedFits(cfg, run, s);
    var link := s.o[n].link;
    assert Tail(link)[0] == link.posted[|link.got|];
    assert UnderWay(link, link.posted[|link.got|]);
    OverlayReplaces(s.h.cache, Next(cfg.size, link).tag.place, Next(cfg.size, link).bytes);
  }

  /** When a write or an unmap arrives, the buffer on the waiting node has its bytes from the offset on. */
  lemma WriteArrivesInPlace(cfg: Config, run: seq<Action>, s: State)
    requires Reaches(cfg, run, s) && Enabled(cfg, WReceive, s) && Next(cfg.size, s.w.link).tag.Other?
    requires var x := Next(cfg.size, s.w.link).tag.place.obj; x in s.w.mem && |s.w.mem[x]| == cfg.size(x)
    ensures var c := Next(cfg.size, s.w.link);
            && |c.bytes| == c.tag.len
            && ReplacedIn(s.w.mem, Apply(cfg, WReceive, s).w.mem, c.tag.place, c.bytes)
  {
    hide Reaches, Overlay, Received;
    ReachedFits(cfg, run, s);
    var link := s.w.link;
    assert link.posted[|link.got|] in link.posted;
    OverlayReplaces(s.w.mem, Next(cfg.size, link).tag.place, Next(cfg.size, link).bytes);
  }

  /** The bytes that the stream writes for an unmap are those of its part of the host's copy at that time. */
  lemma UnmapSendsPart(cfg: Config, run: seq<Action>, s: State)
    requires Reaches(cfg, run, s) && Enabled(cfg, HTransmit, s) && s.h.sends[|s.w.link.sent|].Region?
    ensures var tag := s.h.sends[|s.w.link.sent|].tag; var link := Apply(cfg, HTransmit, s).w.link;
            && IsMap(tag) && tag.place.obj in s.h.cache
            && tag.place.offset + tag.len <= |s.h.cache[tag.place.obj]|
            && |link.sent| == |s.w.link.sent| + 1 && link.sent[|s.w.link.sent|].tag == tag
            && link.wire == s.w.link.wire + link.sent[|s.w.link.sent|].bytes
            && link.sent[|s.w.link.sent|].bytes
                 == s.h.cache[tag.place.obj][tag.place.offset..tag.place.offset + tag.len]
  {
    hide Reaches;
    ReachedFits(cfg, run, s);
    assert SendFits(cfg, s.h.cache, s.h.sends[|s.w.link.sent|]);
  }
}
