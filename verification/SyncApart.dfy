/** Applications whose rounds and other transfers cannot get in each other's way keep them apart by themselves. */
module SyncApart {
  import opened Seqs
  import opened Links
  import opened SyncProtocol
  import opened SyncLists
  import opened SyncInvariant
  import opened SyncDrained
  import opened SyncRuns
  import opened SyncSteps
  import opened SyncContents
  import opened SyncDelivery
  import opened SyncCrossing
  import opened SyncProgress
  import opened SyncExact

  /** Nothing is read or mapped from the owner of the round; none of its objects is mapped from any node, or
      written on the host. */
  ghost predicate Undisturbed(cfg: Config, q: Round) {
    && (forall x :: (q.owner, x) !in cfg.readFrom && (q.owner, x) !in cfg.maps)
    && (forall x :: x in q.host ==> x !in cfg.stored && forall n :: (n, x) !in cfg.maps)
  }

  /** No two rounds share an object of the host, all have one owner and one queue, none is disturbed, and nothing
      is written to the waiting node. */
  ghost predicate Peaceful(cfg: Config) {
    && (forall a, b :: 0 <= a < |cfg.rounds| && 0 <= b < |cfg.rounds| && a != b ==> Compatible(cfg, a, b))
    && (forall r :: 0 <= r < |cfg.rounds| ==> Undisturbed(cfg, cfg.rounds[r])) && cfg.writes == cfg.unmaps == {}
  }

  function KeptApart(cfg: Config): Config {
    cfg.(apart := true)
  }

  // ---- the same steps ----

  lemma SameLists(cfg: Config)
    ensures forall r :: GetRound(KeptApart(cfg), r) == GetRound(cfg, r)
    ensures forall side, r :: List(KeptApart(cfg), side, r) == List(cfg, side, r)
    ensures forall side, r :: Items(KeptApart(cfg), side, r) == Items(cfg, side, r)
  {
  }

  lemma SameApply(cfg: Config, a: Action, s: State)
    requires Enabled(cfg, a, s) && Enabled(KeptApart(cfg), a, s)
    ensures Apply(KeptApart(cfg), a, s) == Apply(cfg, a, s)
  {
    SameLists(cfg);
    hide MayStart, MayRead, MayWrite, GetRound, List, Received, Landed, CanReceive, Ready;
  }

  lemma SameEnabled(cfg: Config, a: Action, s: State)
    requires Enabled(cfg, a, s)
    requires a.WSync? ==> MayStart(KeptApart(cfg), s, a.r)
    requires a.ReadSend? || a.ReadPost? ==> MayRead(KeptApart(cfg), s, a.n, a.tag)
    requires a.HostStores? ==> Unused(KeptApart(cfg), s.w, a.x)
    requires a.WritePost? || a.WriteSend? ==> MayWrite(s)
    ensures Enabled(KeptApart(cfg), a, s)
  {
    SameLists(cfg);
    hide MayStart, MayRead, MayWrite, GetRound, List, CanReceive, Ready, Payload;
  }

  // ---- the guards hold ----

  /** No other transfer was ever begun on a stream that rounds use. */
  ghost predicate NoApart(cfg: Config, s: State) {
    OnlySync(s.w.segs) && forall m :: m in s.o && Uses(cfg, m) ==> OnlySync(s.o[m].segs)
  }

  predicate OnlySync(segs: seq<Seg>) {
    forall g :: g in segs ==> g.Sync?
  }

  lemma SameSegs(cfg: Config, a: Action, s: State)
    requires Enabled(cfg, a, s) && !a.ReadSend? && !a.ReadPost? && !a.WritePost? && !a.WriteSend? && !a.WSync?
             && !a.HSync?
    ensures var t := Apply(cfg, a, s);
            t.w.segs == s.w.segs && forall m :: m in t.o ==> m in s.o && t.o[m].segs == s.o[m].segs
  {
    if FarFromOwners(a) {
      SameOwners(cfg, a, s);
      hide Enabled, Received, Landed, Transmitted, Outgoing, Items, GetRound, Patched;
    } else {
      hide MayRead, Received, Landed, CanReceive, Payload, PartOf;
    }
  }

  lemma NoApartStep(cfg: Config, a: Action, s: State)
    requires Peaceful(cfg) && Enabled(cfg, a, s) && NoApart(cfg, s)
    ensures NoApart(cfg, Apply(cfg, a, s))
  {
    if a.ReadSend? || a.ReadPost? {
      ReadNotUsed(cfg, a, s);
      hide Peaceful, MayRead, Uses, OnlySync, PartOf;
    } else if a.WSync? || a.HSync? {
      hide Peaceful, MayStart, Uses;
    } else {
      hide Apply, OnlySync, Uses;
      NeverWrites(cfg, a, s);
      SameSegs(cfg, a, s);
    }
  }

  lemma NeverWrites(cfg: Config, a: Action, s: State)
    requires Peaceful(cfg) && Enabled(cfg, a, s)
    ensures !a.WritePost? && !a.WriteSend?
  {
  }

  lemma NotUsed(cfg: Config, m: nat)
    requires Peaceful(cfg) && exists x :: (m, x) in cfg.readFrom || (m, x) in cfg.maps
    ensures !Uses(cfg, m) && !Uses(KeptApart(cfg), m)
  {
    forall r | 0 <= r < |cfg.rounds| ensures cfg.rounds[r].owner != m {
      assert Undisturbed(cfg, cfg.rounds[r]);
    }
  }

  lemma ReadNotUsed(cfg: Config, a: Action, s: State)
    requires Peaceful(cfg) && Enabled(cfg, a, s) && (a.ReadSend? || a.ReadPost?)
    ensures !Uses(cfg, a.n) && !Uses(KeptApart(cfg), a.n)
  {
    hide Peaceful, MayRead;
    var x := a.tag.place.obj;
    assert (a.n, x) in cfg.readFrom || (a.n, x) in cfg.maps;
    NotUsed(cfg, a.n);
  }

  // ---- maps ----

  /** What is under way of maps is of buffers that the application maps. */
  ghost predicate MapsKnown(cfg: Config, o: map<nat, Owner>) {
    forall n, tag :: n in o && UnderWay(o[n].link, tag) && IsMap(tag) ==> (n, tag.place.obj) in cfg.maps
  }

  lemma OldMapsKnown(cfg: Config, a: Action, s: State)
    requires Enabled(cfg, a, s) && MapsKnown(cfg, s.o) && !a.ReadSend? && !a.ReadPost?
    requires a.OSend? ==> Head(s.o[a.n].lane).Item?
    requires a.HPost? ==> s.h.loop[0].Item?
    ensures MapsKnown(cfg, Apply(cfg, a, s).o)
  {
    hide Enabled, Apply, UnderWay;
    var t := Apply(cfg, a, s);
    forall n, tag | n in t.o && UnderWay(t.o[n].link, tag) && IsMap(tag) ensures (n, tag.place.obj) in cfg.maps {
      OldMaps(cfg, a, s, n);
      assert UnderWay(s.o[n].link, tag);
    }
  }

  lemma NewMapKnown(cfg: Config, a: Action, s: State)
    requires Enabled(cfg, a, s) && MapsKnown(cfg, s.o) && (a.ReadSend? || a.ReadPost?)
    ensures MapsKnown(cfg, Apply(cfg, a, s).o)
  {
    hide MayRead, PartOf, Payload;
    var link, link' := s.o[a.n].link, Apply(cfg, a, s).o[a.n].link;
    forall tag | UnderWay(link', tag) && tag != a.tag ensures UnderWay(link, tag) {
      BeginsOne(link, link', a.tag, tag);
    }
    hide UnderWay;
  }

  lemma MapsKnownStep(cfg: Config, a: Action, s: State, n: nat, q: nat)
    requires Inv(cfg, s, n, q) && MapsKnown(cfg, s.o) && Enabled(cfg, a, s)
    ensures MapsKnown(cfg, Apply(cfg, a, s).o)
  {
    hide InvAt, Told, MapsKnown, Apply, InstalledTold, MapsApart;
    if a.ReadSend? || a.ReadPost? {
      NewMapKnown(cfg, a, s);
    } else {
      if a.OSend? {
        SendsItems(cfg, s, n, q, a.n);
      } else if a.HPost? {
        PostsItems(cfg, s, n, q);
      }
      OldMapsKnown(cfg, a, s);
    }
  }

  /** So no object of a round is mapped. */
  lemma NoneMapped(cfg: Config, s: State, m: nat, r: nat)
    requires Peaceful(cfg) && MapsKnown(cfg, s.o) && m in s.o && r < |cfg.rounds|
    ensures MapsNone(cfg, s.o[m].link, r)
  {
    hide UnderWay, Compatible;
    assert Undisturbed(cfg, cfg.rounds[r]);
    forall tag | UnderWay(s.o[m].link, tag) && IsMap(tag) ensures tag.place.obj !in Set(List(cfg, AtHost, r)) {
      assert (m, tag.place.obj) in cfg.maps;
    }
  }

  /** An object that is mapped or stored is of no round. */
  lemma NotOfRounds(cfg: Config, s: State, n: nat, q: nat, x: Obj)
    requires InvAt(cfg, s, n, q) && Peaceful(cfg) && (x in cfg.stored || exists m :: (m, x) in cfg.maps)
    ensures Unused(cfg, s.w, x)
  {
    hide InvAt, Unfinished, Compatible;
    forall l | Unfinished(s.w, l) ensures x !in Set(List(cfg, AtHost, RoundOf(l))) {
      UnfinishedRound(cfg, s, n, q, l);
      assert Undisturbed(cfg, cfg.rounds[RoundOf(l)]);
    }
  }

  /** So no other transfer is under way. */
  lemma QuietOwnerStream(cfg: Config, m: nat, o: Owner, part: seq<Label>)
    requires WellFormed(cfg) && UpOk(cfg, m, o, part) && OnlySync(o.segs)
    ensures OthersDone(o.link)
  {
    hide Expand, Proper, Conserved, Holds, OwnerPart;
    forall l | l in o.link.posted ensures l.Item? {
      if l.Other? {
        PostedIsKnown(cfg, AtHost, o.segs, o.link.posted, part, l);
      }
    }
    forall l | l in Labels(o.link.sent) ensures l.Item? {
      if l.Other? {
        SentIsKnown(cfg, m, o, part, l);
      }
    }
  }

  lemma QuietWaiterStream(cfg: Config, w: Waiter, h: HostState, tail: seq<Label>, q: nat)
    requires WellFormed(cfg) && DownOk(cfg, w, h, tail, q) && OnlySync(w.segs)
    ensures OthersDone(w.link) && SendsDone(w.link, h.sends)
  {
    BasicsAre(cfg, w, h);
    hide Expand, Proper, Conserved, DownBasics, TailOk, LaneOk, PostingOk, HostPending, Rest, SendOk;
    forall l | l in w.link.posted ensures l.Item? {
      if l.Other? {
        PostedIsKnown(cfg, AtWaiter, w.segs, w.link.posted, Rest(LaneOf(w, q)) + w.loop, l);
      }
    }
    forall l | l in SendTags(h.sends) ensures l.Item? {
      if l.Other? {
        PostedIsKnown(cfg, AtHost, w.segs, SendTags(h.sends), HostPending(cfg, w, h, tail), l);
      }
    }
    SentAmongSends(w.link, h.sends);
  }

  /** A round that is requested is not unfinished. */
  lemma OthersUnfinished(cfg: Config, s: State, r: nat, l: Label)
    requires Ok(cfg, s) && r !in s.w.asked.log && Unfinished(s.w, l)
    ensures RoundOf(l) != r
  {
    hide OwnersAreOk, HostOk, StreamOk;
    if l !in s.w.loop {
      var q :| q in s.w.lanes && l in Undone(s.w.lanes[q]);
      assert l in s.w.lanes[q].log;
    }
  }

  lemma MayAlwaysStart(cfg: Config, s: State, n: nat, q: nat, r: nat)
    requires WellFormed(cfg) && Peaceful(cfg) && Inv(cfg, s, n, q) && Ok(cfg, s) && NoApart(cfg, s)
    requires MapsKnown(cfg, s.o) && r < |cfg.rounds| && r !in s.w.asked.log
    ensures MayStart(cfg, s, r)
  {
    hide InvAt, Told, InstalledTold, MapsApart, Ok, UpOk, DownOk, OnlySync, OthersDone, SendsDone, Unfinished, Uses,
      Compatible, MapsNone, MapsKnown, Undisturbed;
    forall p | p in s.o ensures MapsNone(cfg, s.o[p].link, r) {
      NoneMapped(cfg, s, p, r);
    }
    OwnerThere(cfg, s, n, q, r);
    var m := GetRound(cfg, r).owner;
    QuietOwnerStream(cfg, m, s.o[m], Part(s.h, m, n));
    DownIsOk(cfg, s, n, q);
    QuietWaiterStream(cfg, s.w, s.h, TailAt(s.o, n), q);
    SendsDoneIs(s);
    forall l | Unfinished(s.w, l) ensures Compatible(cfg, RoundOf(l), r) {
      OthersUnfinished(cfg, s, r, l);
      UnfinishedRound(cfg, s, n, q, l);
    }
    hide DownOthersDone;
  }

  lemma UnfinishedRound(cfg: Config, s: State, n: nat, q: nat, l: Label)
    requires InvAt(cfg, s, n, q) && Unfinished(s.w, l)
    ensures RoundOf(l) < |cfg.rounds|
  {
    hide OwnersOk, TailsOk, LanesOk, TailAt, Present, SeenOk, DownOk, Alone, Unfinished;
    UnfinishedIsPending(cfg, s.w, q, l);
    assert Fits(cfg, l, n, q);
  }

  // ---- every run keeps apart ----

  lemma PeacefulApart(cfg: Config)
    requires Peaceful(cfg)
    ensures Peaceful(KeptApart(cfg))
  {
    SameLists(cfg);
    hide GetRound, List, Set;
    forall a, b | 0 <= a < |cfg.rounds| && 0 <= b < |cfg.rounds| && a != b ensures Compatible(KeptApart(cfg), a, b) {
      assert Compatible(cfg, a, b);
    }
    forall r | 0 <= r < |cfg.rounds| ensures Undisturbed(KeptApart(cfg), cfg.rounds[r]) {
      assert Undisturbed(cfg, cfg.rounds[r]);
    }
  }

  lemma {:induction false} KeepsApart(cfg: Config, mems: map<nat, map<Obj, Bytes>>, wm: map<Obj, Bytes>,
          run: seq<Action>)
    requires WellFormed(cfg) && Peaceful(cfg) && Memory(cfg, mems) && Exec(cfg, Init(mems, wm), run).Some?
    ensures Exec(KeptApart(cfg), Init(mems, wm), run) == Exec(cfg, Init(mems, wm), run)
    ensures NoApart(KeptApart(cfg), Exec(cfg, Init(mems, wm), run).value)
    ensures MapsKnown(KeptApart(cfg), Exec(cfg, Init(mems, wm), run).value.o)
    decreases |run|
  {
    hide Ok, Peaceful, Enabled, Apply, Inv, NoApart, MapsKnown;
    var cfg' := KeptApart(cfg);
    PeacefulApart(cfg);
    SameMemory(cfg, mems);
    if run == [] {
      InitNoApart(cfg', mems, wm);
    } else {
      hide WellFormed, Memory, Init;
      var front, a := run[..|run| - 1], run[|run| - 1];
      KeepsApart(cfg, mems, wm, front);
      var s := Exec(cfg, Init(mems, wm), front).value;
      var n, q := RunInv(cfg', mems, wm, front);
      RunOk(cfg', mems, wm, front);
      StaysEnabled(cfg, a, s, n, q);
      SameApply(cfg, a, s);
      NoApartStep(cfg', a, s);
      MapsKnownStep(cfg', a, s, n, q);
    }
  }

  lemma SameMemory(cfg: Config, mems: map<nat, map<Obj, Bytes>>)
    requires WellFormed(cfg) && Memory(cfg, mems)
    ensures WellFormed(KeptApart(cfg)) && Memory(KeptApart(cfg), mems)
  {
  }

  lemma InitNoApart(cfg: Config, mems: map<nat, map<Obj, Bytes>>, wm: map<Obj, Bytes>)
    ensures NoApart(cfg, Init(mems, wm)) && MapsKnown(cfg, Init(mems, wm).o)
  {
    hide Uses;
  }

  lemma ApartIs(cfg: Config, s: State, n: nat, q: nat)
    requires Inv(cfg, s, n, q)
    ensures InvAt(cfg, s, n, q)
  {
  }

  lemma MayAlwaysRead(cfg: Config, s: State, n: nat, q: nat, m: nat, tag: Label)
    requires Inv(cfg, s, n, q) && Peaceful(cfg) && !Uses(cfg, m)
    requires IsMap(tag) ==> (m, tag.place.obj) in cfg.maps
    ensures MayRead(cfg, s, m, tag)
  {
    hide InvAt, Told, InstalledTold, MapsApart, Peaceful, Uses, Unused;
    if IsMap(tag) {
      NotOfRounds(cfg, s, n, q, tag.place.obj);
    }
  }

  lemma StaysEnabled(cfg: Config, a: Action, s: State, n: nat, q: nat)
    requires WellFormed(KeptApart(cfg)) && Peaceful(cfg) && Enabled(cfg, a, s)
    requires Inv(KeptApart(cfg), s, n, q) && Ok(KeptApart(cfg), s) && NoApart(KeptApart(cfg), s)
    requires MapsKnown(KeptApart(cfg), s.o)
    ensures Enabled(KeptApart(cfg), a, s)
  {
    hide Inv, Ok, NoApart, MapsKnown, WellFormed, Peaceful, MayStart, Uses, Unused, OwnerFree;
    PeacefulApart(cfg);
    NeverWrites(cfg, a, s);
    if a.WSync? {
      MayAlwaysStart(KeptApart(cfg), s, n, q, a.r);
    }
    if a.ReadSend? || a.ReadPost? {
      ReadNotUsed(cfg, a, s);
      MayAlwaysRead(KeptApart(cfg), s, n, q, a.n, a.tag);
    }
    if a.HostStores? {
      ApartIs(KeptApart(cfg), s, n, q);
      NotOfRounds(KeptApart(cfg), s, n, q, a.x);
    }
    SameEnabled(cfg, a, s);
  }

  /** A peaceful application is always right if its lists are in one order. */
  lemma PeaceIsRight(cfg: Config, run: seq<Action>, s: State, c: Chunk)
    requires WellFormed(cfg) && Peaceful(cfg) && OneOrder(cfg) && Reaches(cfg, run, s) && c in s.w.installed
    ensures Right(s, c)
  {
    hide Peaceful, Memory, Exec, Init, WellFormed;
    var mems, wm :| Memory(cfg, mems) && Exec(cfg, Init(mems, wm), run) == Some(s);
    KeepsApart(cfg, mems, wm, run);
    SameMemory(cfg, mems);
    assert Memory(KeptApart(cfg), mems) && Exec(KeptApart(cfg), Init(mems, wm), run) == Some(s);
    InOrderIsRight(KeptApart(cfg), run, s, c);
  }
}
