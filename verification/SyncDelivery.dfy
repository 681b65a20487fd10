/**
 Delivery: what the acquire chains install is what the release chains read. The bytes of a round arrive in
 order whatever the list orders are; they reach the right objects exactly if the orders agree.
 */
module SyncDelivery {
  import opened Seqs
  import opened Links
  import opened SyncProtocol
  import opened SyncLists
  import opened SyncInvariant
  import opened SyncDrained
  import opened SyncRuns
  import opened SyncSteps
  import opened SyncContents
  import opened SyncRounds

  // ---- what each process has of a round ----

  function OwnerOf(cfg: Config, s: State, r: nat): Owner {
    At(s, GetRound(cfg, r).owner)
  }

  /** All that the owner's release maps have read, in order. */
  function MappedChunks(o: Owner): seq<Chunk> {
    o.link.sent + if AtStage(o.lane, Mapped) then [Chunk(Head(o.lane), o.lane.buffer)] else []
  }

  /** What was released for a round, in the order of the owner's list. */
  function ReleasedOf(cfg: Config, s: State, r: nat): seq<Chunk> {
    OfRound(MappedChunks(OwnerOf(cfg, s, r)), r)
  }

  /** What was acquired for a round, in the order of the waiting node's list. */
  function AcquiredOf(s: State, r: nat): seq<Chunk> {
    OfRound(s.w.installed, r)
  }

  // ---- an owner's stream ----

  lemma OwnerLists(cfg: Config, m: nat, o: Owner, part: seq<Label>)
    requires WellFormed(cfg) && UpOk(cfg, m, o, part)
    ensures Labels(MappedChunks(o)) <= Expand(cfg, AtOwner, o.segs)
            && Labels(o.link.sent) <= Expand(cfg, AtOwner, o.segs)
    ensures Labels(o.link.got) <= Expand(cfg, AtHost, o.segs) && Proper(cfg, o.segs) && Conserved(cfg.size, o.link)
  {
    CoversPrefix(cfg, AtHost, o.segs, o.link.posted + part);
    CoversPrefix(cfg, AtOwner, o.segs, Labels(o.link.sent) + OwnerPart(cfg, o));
    hide Expand, Requested, Covers, Lacks, Proper, Data, Sized, Holds, Begun, LaneOk;
    MappedLabels(o, o.loop + Requested(cfg, AtOwner, Unseen(o.orders)));
    hide Rest, MappedChunks;
  }

  lemma MappedLabels(o: Owner, more: seq<Label>)
    requires LaneOk(o.lane)
    ensures Labels(MappedChunks(o)) <= Labels(o.link.sent) + (Rest(o.lane) + more)
  {
    if AtStage(o.lane, Mapped) {
      assert Rest(o.lane)[0] == Head(o.lane);
      assert Labels(MappedChunks(o)) == Labels(o.link.sent) + [Head(o.lane)];
    }
  }

  lemma OwnerThere(cfg: Config, s: State, n: nat, q: nat, r: nat)
    requires InvAt(cfg, s, n, q) && r < |cfg.rounds|
    ensures var m := GetRound(cfg, r).owner; m in s.o && Uses(cfg, m) && UpOk(cfg, m, s.o[m], Part(s.h, m, n))
  {
    hide TailsOk, LanesOk, Flow, TailAt, SeenOk, DownOk, Alone, UpOk;
    InTheMap(cfg, s.o, r);
    assert cfg.rounds[r].owner == GetRound(cfg, r).owner;
  }

  /** A chunk counts as released if and only if the history says so. */
  lemma ReleasedIsTold(cfg: Config, s: State, n: nat, q: nat, r: nat, c: Chunk)
    requires InvAt(cfg, s, n, q) && Told(cfg, s) && r < |cfg.rounds|
    ensures c in ReleasedOf(cfg, s, r) <==> Of(c.tag, r) && c.tag in s.released && s.released[c.tag] == c.bytes
  {
    hide InvAt, AfterEvent, LandedTold, CacheTold, GotTold, Window, MemoryTold, OfRound;
    var m := GetRound(cfg, r).owner;
    OwnerThere(cfg, s, n, q, r);
    InOfRound(MappedChunks(s.o[m]), r, c);
    TellsOwner(cfg, s, m);
    MappedIsTold(s.o[m], s.released, c);
    if Of(c.tag, r) && c.tag in s.released {
      assert Released(cfg, s.o, c.tag);
    }
  }

  lemma MappedIsTold(o: Owner, released: map<Label, Bytes>, c: Chunk)
    requires OwnerTold(o, released)
    ensures c in MappedChunks(o) && c.tag.Item? ==> c.tag in released && released[c.tag] == c.bytes
    ensures c.tag.Item? && c.tag in released && released[c.tag] == c.bytes && HasMapped(o, c.tag)
            ==> c in MappedChunks(o)
  {
    if c in MappedChunks(o) && c !in o.link.sent {
      assert c == Chunk(Head(o.lane), o.lane.buffer);
    }
    if c.tag.Item? && c.tag in released && released[c.tag] == c.bytes && c.tag in Labels(o.link.sent) {
      var k :| 0 <= k < |o.link.sent| && Labels(o.link.sent)[k] == c.tag;
      assert Recorded(o.link.sent[k], released) && o.link.sent[k] == c;
    }
  }

  // ---- through the host ----

  /** What the host has forwarded for a round is a beginning of what it has received for it. */
  lemma ForwardsLanded(cfg: Config, r: nat, got: seq<Chunk>, sent: seq<Chunk>, landed: map<Label, Bytes>)
    requires WellFormed(cfg) && GotTold(got, landed) && GotTold(sent, landed)
    requires Labels(OfRound(got, r)) <= Items(cfg, AtHost, r) && Labels(OfRound(sent, r)) <= Items(cfg, AtHost, r)
    requires forall l :: l in landed && Of(l, r) ==> Chunk(l, landed[l]) in got
    ensures OfRound(sent, r) <= OfRound(got, r)
  {
    var a, b := OfRound(sent, r), OfRound(got, r);
    if a != [] {
      PartLanded(cfg, r, got, sent, landed, |a| - 1);
    }
    forall k | 0 <= k < |a| ensures a[k] == b[k] {
      PartLanded(cfg, r, got, sent, landed, k);
    }
  }

  lemma PartLanded(cfg: Config, r: nat, got: seq<Chunk>, sent: seq<Chunk>, landed: map<Label, Bytes>, k: nat)
    requires WellFormed(cfg) && GotTold(got, landed) && GotTold(sent, landed) && k < |OfRound(sent, r)|
    requires Labels(OfRound(got, r)) <= Items(cfg, AtHost, r) && Labels(OfRound(sent, r)) <= Items(cfg, AtHost, r)
    requires forall l :: l in landed && Of(l, r) ==> Chunk(l, landed[l]) in got
    ensures k < |OfRound(got, r)| && OfRound(sent, r)[k] == OfRound(got, r)[k]
  {
    var a, b := OfRound(sent, r), OfRound(got, r);
    PartTold(sent, landed, r, k);
    InOfRound(got, r, a[k]);
    var i :| 0 <= i < |b| && b[i] == a[k];
    PositionIsLabel(cfg, r, a, b, k, i);
  }

  lemma PartTold(cs: seq<Chunk>, landed: map<Label, Bytes>, r: nat, k: nat)
    requires GotTold(cs, landed) && k < |OfRound(cs, r)|
    ensures var c := OfRound(cs, r)[k]; c in cs && Of(c.tag, r) && c.tag in landed && landed[c.tag] == c.bytes
  {
    InOfRound(cs, r, OfRound(cs, r)[k]);
    var i :| 0 <= i < |cs| && cs[i] == OfRound(cs, r)[k];
    assert Recorded(cs[i], landed);
  }

  lemma PositionIsLabel(cfg: Config, r: nat, a: seq<Chunk>, b: seq<Chunk>, k: nat, i: nat)
    requires WellFormed(cfg) && Labels(a) <= Items(cfg, AtHost, r) && Labels(b) <= Items(cfg, AtHost, r)
    requires k < |a| && i < |b| && b[i] == a[k]
    ensures i == k
  {
    ListIsDistinct(cfg, AtHost, r);
    assert Labels(a)[k] == Items(cfg, AtHost, r)[k] && Labels(b)[i] == Items(cfg, AtHost, r)[i];
  }

  lemma DataBegins(a: seq<Chunk>, b: seq<Chunk>)
    requires a <= b
    ensures Begins(Data(a), Data(b))
  {
    hide Data;
    DataPrefix(b, |a|);
    assert b[..|a|] == a;
  }

  lemma BeginsTrans(a: Bytes, b: Bytes, c: Bytes)
    requires Begins(a, b) && Begins(b, c)
    ensures Begins(a, c)
  {
  }

  // ---- at the waiting node ----

  lemma {:induction false} ItemsOfRound(cs: seq<Chunk>, r: nat)
    ensures OfRound(ItemsOf(cs), r) == OfRound(cs, r)
  {
    if cs != [] {
      var front, c := cs[..|cs| - 1], cs[|cs| - 1];
      ItemsOfRound(front, r);
      if c.tag.Item? {
        OfRoundConcat(ItemsOf(front), [c], r);
        OfRoundConcat(front, [c], r);
        assert front + [c] == cs;
      }
    }
  }

  lemma AcquiredBegins(s: State, q: nat, r: nat)
    requires InstalledTold(s.w, q)
    ensures AcquiredOf(s, r) <= OfRound(s.w.link.got, r)
    ensures Arrived(LaneOf(s.w, q)) == [] ==> AcquiredOf(s, r) == OfRound(s.w.link.got, r)
  {
    ItemsOfRound(s.w.link.got, r);
    hide OfRound;
    var more := Arrived(LaneOf(s.w, q));
    OfRoundConcat(s.w.installed, more, r);
    if more == [] {
      assert s.w.installed + more == s.w.installed;
    }
  }

  lemma WaiterLists(cfg: Config, w: Waiter, h: HostState, tail: seq<Label>, q: nat)
    requires WellFormed(cfg) && DownOk(cfg, w, h, tail, q)
    ensures Labels(w.link.sent) <= Expand(cfg, AtHost, w.segs) && Labels(w.link.got) <= Expand(cfg, AtWaiter, w.segs)
    ensures Proper(cfg, w.segs) && Conserved(cfg.size, w.link) && Sized(cfg.size, w.link.got)
  {
    BasicsAre(cfg, w, h);
    SentIsPrefix(cfg, w.link.sent, h.sends, HostPending(cfg, w, h, tail));
    CoversPrefix(cfg, AtHost, w.segs, HostList(cfg, w, h, tail));
    CoversPrefix(cfg, AtWaiter, w.segs, w.link.posted + (Rest(LaneOf(w, q)) + w.loop));
    hide Expand, HostPending, Covers, Lacks, Rest, Data, Sized, DownBasics, Proper, TailOk, LaneOk;
  }

  // ---- from end to end ----

  /** In every reachable state, for any list orders and sizes: the bytes acquired for a round are a beginning
      of the bytes released for it, and both sides deal with its objects in the order of their own lists. */
  lemma EndToEnd(cfg: Config, s: State, n: nat, q: nat, r: nat)
    requires WellFormed(cfg) && Inv(cfg, s, n, q) && r < |cfg.rounds|
    ensures Begins(Data(AcquiredOf(s, r)), Data(ReleasedOf(cfg, s, r)))
    ensures Labels(ReleasedOf(cfg, s, r)) <= Items(cfg, AtOwner, r)
            && Labels(AcquiredOf(s, r)) <= Items(cfg, AtWaiter, r)
    ensures Sized(cfg.size, ReleasedOf(cfg, s, r)) && Sized(cfg.size, AcquiredOf(s, r))
  {
    hide InvAt, Told, InstalledTold, OfRound, Data, Begins, UpOk, DownOk, Expand, Proper, WellFormed, Conserved,
         MappedChunks;
    var o := OwnerOf(cfg, s, r);
    OwnerThere(cfg, s, n, q, r);
    OwnerLists(cfg, GetRound(cfg, r).owner, o, Part(s.h, GetRound(cfg, r).owner, n));
    DownIsOk(cfg, s, n, q);
    WaiterLists(cfg, s.w, s.h, TailAt(s.o, n), q);
    RoundBytes(cfg, AtOwner, AtHost, o.segs, o.link, r);
    RoundBytes(cfg, AtHost, AtWaiter, s.w.segs, s.w.link, r);
    RoundLabels(cfg, AtHost, o.segs, o.link.got, r);
    RoundLabels(cfg, AtHost, s.w.segs, s.w.link.sent, r);
    RoundLabels(cfg, AtOwner, o.segs, MappedChunks(o), r);
    RoundLabels(cfg, AtWaiter, s.w.segs, s.w.link.got, r);
    Forwards(cfg, s, n, q, r);
    AcquiredBegins(s, q, r);
    SentBegins(o, r);
    DataBegins(OfRound(s.w.link.sent, r), OfRound(o.link.got, r));
    DataBegins(OfRound(o.link.sent, r), ReleasedOf(cfg, s, r));
    DataBegins(AcquiredOf(s, r), OfRound(s.w.link.got, r));
    BeginsTrans(Data(AcquiredOf(s, r)), Data(OfRound(s.w.link.got, r)), Data(OfRound(s.w.link.sent, r)));
    BeginsTrans(Data(AcquiredOf(s, r)), Data(OfRound(s.w.link.sent, r)), Data(OfRound(o.link.got, r)));
    BeginsTrans(Data(AcquiredOf(s, r)), Data(OfRound(o.link.got, r)), Data(OfRound(o.link.sent, r)));
    BeginsTrans(Data(AcquiredOf(s, r)), Data(OfRound(o.link.sent, r)), Data(ReleasedOf(cfg, s, r)));
    SizedRound(cfg, GetRound(cfg, r).owner, o, Part(s.h, GetRound(cfg, r).owner, n), r);
    SizedOf(cfg.size, s.w.link.got, r);
    PrefixFacts(cfg.size, AcquiredOf(s, r), OfRound(s.w.link.got, r), Items(cfg, AtWaiter, r));
  }

  lemma PrefixFacts(size: Obj -> nat, a: seq<Chunk>, b: seq<Chunk>, ls: seq<Label>)
    requires a <= b && Labels(b) <= ls && Sized(size, b)
    ensures Labels(a) <= ls && Sized(size, a)
  {
  }

  lemma DownIsOk(cfg: Config, s: State, n: nat, q: nat)
    requires InvAt(cfg, s, n, q)
    ensures DownOk(cfg, s.w, s.h, TailAt(s.o, n), q)
  {
    hide OwnersOk, TailsOk, LanesOk, Flow, TailAt, Present, SeenOk, DownOk, Alone;
  }

  lemma SizedOf(size: Obj -> nat, cs: seq<Chunk>, r: nat)
    requires Sized(size, cs)
    ensures Sized(size, OfRound(cs, r))
  {
    forall k | 0 <= k < |OfRound(cs, r)| ensures |OfRound(cs, r)[k].bytes| == Len(size, OfRound(cs, r)[k].tag) {
      InOfRound(cs, r, OfRound(cs, r)[k]);
    }
  }

  lemma SizedRound(cfg: Config, m: nat, o: Owner, part: seq<Label>, r: nat)
    requires UpOk(cfg, m, o, part)
    ensures Sized(cfg.size, OfRound(MappedChunks(o), r)) && Sized(cfg.size, o.link.got)
  {
    hide OfRound, Proper, SideOk, Expand, Data, LaneOk;
    assert Sized(cfg.size, MappedChunks(o));
    SizedOf(cfg.size, MappedChunks(o), r);
  }

  lemma SentBegins(o: Owner, r: nat)
    ensures OfRound(o.link.sent, r) <= OfRound(MappedChunks(o), r)
  {
    OfRoundConcat(o.link.sent, MappedChunks(o)[|o.link.sent|..], r);
    hide OfRound;
    assert o.link.sent + MappedChunks(o)[|o.link.sent|..] == MappedChunks(o);
  }

  lemma Forwards(cfg: Config, s: State, n: nat, q: nat, r: nat)
    requires WellFormed(cfg) && InvAt(cfg, s, n, q) && Told(cfg, s) && r < |cfg.rounds|
    requires var o := OwnerOf(cfg, s, r);
             Labels(OfRound(o.link.got, r)) <= Items(cfg, AtHost, r)
             && Labels(OfRound(s.w.link.sent, r)) <= Items(cfg, AtHost, r)
    ensures OfRound(s.w.link.sent, r) <= OfRound(OwnerOf(cfg, s, r).link.got, r)
  {
    hide InvAt, OfRound, OwnersTold, AfterEvent, CacheTold, Window, MemoryTold, WellFormed, GotTold;
    var m := GetRound(cfg, r).owner;
    OwnerThere(cfg, s, n, q, r);
    forall l | l in s.h.landed && Of(l, r) ensures Chunk(l, s.h.landed[l]) in s.o[m].link.got {
      assert HasLanded(cfg, s.o, Chunk(l, s.h.landed[l]));
    }
    ForwardsLanded(cfg, r, s.o[m].link.got, s.w.link.sent, s.h.landed);
  }

  /** The two ends of a round as one stream. */
  lemma AsLink(cfg: Config, s: State, n: nat, q: nat, r: nat) returns (l: Link)
    requires WellFormed(cfg) && Inv(cfg, s, n, q) && r < |cfg.rounds|
    ensures l.sent == ReleasedOf(cfg, s, r) && l.got == AcquiredOf(s, r) && Conserved(cfg.size, l)
    ensures Positive(cfg.size, Labels(l.got))
  {
    hide InvAt, Told, InstalledTold, OfRound, Data, Sized, WellFormed, Labels, MappedChunks, Begins;
    EndToEnd(cfg, s, n, q, r);
    var a, b := ReleasedOf(cfg, s, r), AcquiredOf(s, r);
    BeginsIs(Data(b), Data(a));
    l := Link(a, Labels(b), b, Data(a)[|Data(b)|..]);
    assert Labels(b)[..|b|] == Labels(b);
    ItemsPositive(cfg, Labels(b), r);
  }

  lemma BeginsIs(a: Bytes, b: Bytes)
    requires Begins(a, b)
    ensures |a| <= |b| && a + b[|a|..] == b
  {
  }

  lemma ItemsPositive(cfg: Config, ls: seq<Label>, r: nat)
    requires WellFormed(cfg) && ls <= Items(cfg, AtWaiter, r)
    ensures Positive(cfg.size, ls)
  {
  }

  // ---- theorems ----

  /** As far as it has been acquired, the round is listed in one order by owner and waiting node. */
  ghost predicate OneOrderSoFar(cfg: Config, s: State, r: nat) {
    var q := GetRound(cfg, r);
    |AcquiredOf(s, r)| <= |q.wait| && |AcquiredOf(s, r)| <= |q.own|
        && q.wait[..|AcquiredOf(s, r)|] == q.own[..|AcquiredOf(s, r)|]
  }

  lemma SoFarIsTags(cfg: Config, s: State, r: nat, k: nat)
    requires Labels(ReleasedOf(cfg, s, r)) <= Items(cfg, AtOwner, r)
             && Labels(AcquiredOf(s, r)) <= Items(cfg, AtWaiter, r)
    requires OneOrderSoFar(cfg, s, r) && k < |AcquiredOf(s, r)| && k < |ReleasedOf(cfg, s, r)|
    ensures AcquiredOf(s, r)[k].tag == ReleasedOf(cfg, s, r)[k].tag
  {
    hide OfRound, MappedChunks;
    var a, b, m := ReleasedOf(cfg, s, r), AcquiredOf(s, r), |AcquiredOf(s, r)|;
    assert GetRound(cfg, r).wait[..m][k] == GetRound(cfg, r).own[..m][k];
    assert Labels(a)[k] == Items(cfg, AtOwner, r)[k] && Labels(b)[k] == Items(cfg, AtWaiter, r)[k];
  }

  lemma TagsAreSoFar(cfg: Config, s: State, r: nat)
    requires Labels(ReleasedOf(cfg, s, r)) <= Items(cfg, AtOwner, r)
             && Labels(AcquiredOf(s, r)) <= Items(cfg, AtWaiter, r)
    requires AcquiredOf(s, r) <= ReleasedOf(cfg, s, r)
    ensures OneOrderSoFar(cfg, s, r)
  {
    hide OfRound, MappedChunks;
    var a, b, m := ReleasedOf(cfg, s, r), AcquiredOf(s, r), |AcquiredOf(s, r)|;
    forall k | 0 <= k < m ensures GetRound(cfg, r).wait[k] == GetRound(cfg, r).own[k] {
      assert a[k] == b[k];
      assert Labels(a)[k] == Items(cfg, AtOwner, r)[k] && Labels(b)[k] == Items(cfg, AtWaiter, r)[k];
    }
  }

  /** Exactly when a round is right, in any reachable state, for any sizes, any list order of the host, and
      whatever else uses the streams: if the released contents can be told apart, every acquired object holds
      its own contents if and only if owner and waiting node list the acquired objects in one order. */
  lemma OrderIsExact(cfg: Config, run: seq<Action>, s: State, r: nat)
    requires WellFormed(cfg) && cfg.apart && Reaches(cfg, run, s) && r < |cfg.rounds|
    requires Incomparable(ReleasedOf(cfg, s, r))
    ensures (forall c :: c in AcquiredOf(s, r) ==> Right(s, c)) <==> OneOrderSoFar(cfg, s, r)
  {
    hide Inv, OfRound, MappedChunks, WellFormed, Reaches, Incomparable, OneOrderSoFar, Conserved, Positive, Agree,
         Right;
    var n, q := Reachable(cfg, run, s);
    EndToEnd(cfg, s, n, q, r);
    var l := AsLink(cfg, s, n, q, r);
    if OneOrderSoFar(cfg, s, r) {
      InOrderAgrees(cfg, s, n, q, r, l);
      AgreeIsRight(cfg, s, n, q, r, l);
    }
    if forall c :: c in AcquiredOf(s, r) ==> Right(s, c) {
      RightIsReleased(cfg, s, n, q, r, l);
      RightAgrees(cfg.size, l, |l.got|);
      AgreeIsPrefix(l);
      TagsAreSoFar(cfg, s, r);
    }
  }

  lemma AgreeIsPrefix(l: Link)
    requires Agree(l, |l.got|)
    ensures l.got <= l.sent
  {
    assert l.got[..|l.got|] == l.got;
  }

  lemma InOrderAgrees(cfg: Config, s: State, n: nat, q: nat, r: nat, l: Link)
    requires l.sent == ReleasedOf(cfg, s, r) && l.got == AcquiredOf(s, r) && Conserved(cfg.size, l)
    requires Labels(l.sent) <= Items(cfg, AtOwner, r) && Labels(l.got) <= Items(cfg, AtWaiter, r)
    requires Positive(cfg.size, Labels(l.got)) && OneOrderSoFar(cfg, s, r)
    ensures Agree(l, |l.got|)
  {
    hide OfRound, MappedChunks, OneOrderSoFar, Conserved, Positive, Agree;
    forall k | 0 <= k < |l.got| && k < |l.sent| ensures l.got[k].tag == l.sent[k].tag {
      SoFarIsTags(cfg, s, r, k);
    }
    OrderMatches(cfg.size, l, |l.got|);
  }

  lemma AgreeIsRight(cfg: Config, s: State, n: nat, q: nat, r: nat, l: Link)
    requires Inv(cfg, s, n, q) && r < |cfg.rounds| && l.sent == ReleasedOf(cfg, s, r) && l.got == AcquiredOf(s, r)
    requires Agree(l, |l.got|)
    ensures forall c :: c in AcquiredOf(s, r) ==> Right(s, c)
  {
    hide InvAt, Told, InstalledTold, OfRound, MappedChunks;
    AgreeIsPrefix(l);
    forall c | c in AcquiredOf(s, r) ensures Right(s, c) {
      ReleasedIsTold(cfg, s, n, q, r, c);
    }
  }

  lemma RightIsReleased(cfg: Config, s: State, n: nat, q: nat, r: nat, l: Link)
    requires Inv(cfg, s, n, q) && r < |cfg.rounds| && l.sent == ReleasedOf(cfg, s, r) && l.got == AcquiredOf(s, r)
    requires forall c :: c in AcquiredOf(s, r) ==> Right(s, c)
    ensures AllRight(l)
  {
    hide InvAt, Told, InstalledTold, OfRound, MappedChunks;
    forall k | 0 <= k < |l.got| ensures l.got[k] in l.sent {
      InOfRound(s.w.installed, r, l.got[k]);
      ReleasedIsTold(cfg, s, n, q, r, l.got[k]);
    }
  }

  /** What has been installed is an item of a known round. */
  lemma InstalledItem(cfg: Config, s: State, n: nat, q: nat, c: Chunk)
    requires WellFormed(cfg) && Inv(cfg, s, n, q) && c in s.w.installed
    ensures c.tag.Item? && c.tag.round < |cfg.rounds| && c in AcquiredOf(s, c.tag.round)
    ensures c.tag.obj in List(cfg, AtWaiter, c.tag.round)
  {
    hide InvAt, Told, OfRound, WellFormed, DownOk, Expand, Proper, ItemsOf;
    assert c in ItemsOf(s.w.link.got);
    InItems(s.w.link.got, c);
    DownIsOk(cfg, s, n, q);
    WaiterLists(cfg, s.w, s.h, TailAt(s.o, n), q);
    KnownItem(cfg, s.w.segs, s.w.link.got, c);
    InOfRound(s.w.installed, c.tag.round, c);
  }

  lemma {:induction false} InItems(cs: seq<Chunk>, c: Chunk)
    ensures c in ItemsOf(cs) <==> c in cs && c.tag.Item?
  {
    if cs != [] {
      InItems(cs[..|cs| - 1], c);
      assert cs == cs[..|cs| - 1] + [cs[|cs| - 1]];
    }
  }

  lemma KnownItem(cfg: Config, segs: seq<Seg>, got: seq<Chunk>, c: Chunk)
    requires Proper(cfg, segs) && Labels(got) <= Expand(cfg, AtWaiter, segs) && c in got && c.tag.Item?
    ensures c.tag.round < |cfg.rounds| && c.tag.obj in List(cfg, AtWaiter, c.tag.round)
  {
    LabelOf(got, c);
    ItemInExpand(cfg, AtWaiter, segs, c.tag);
    hide Expand;
  }

  /** Delivery: with one list order on owner and waiting node, what an acquire chain has installed is what the
      release chain of the same object read after the event had completed; an object that has been neither
      acquired again nor written on the waiting node since holds it. */
  lemma Delivery(cfg: Config, run: seq<Action>, s: State, k: nat)
    requires WellFormed(cfg) && cfg.apart && Reaches(cfg, run, s) && k < |s.w.installed|
    requires var r := RoundOf(s.w.installed[k].tag); GetRound(cfg, r).own == GetRound(cfg, r).wait
    ensures var c := s.w.installed[k];
            && c.tag.Item? && c.tag in s.released && s.released[c.tag] == c.bytes && c.tag.round in s.events
            && (LastOf(s.w.installed, k) && c.tag.obj in s.w.kept ==>
                  c.tag.obj in s.w.mem && s.w.mem[c.tag.obj] == c.bytes)
  {
    hide OfRound, MappedChunks, WellFormed, Reaches, OneOrderSoFar, Conserved, Positive, Agree, InvAt, Told,
         InstalledTold;
    var n, q := Reachable(cfg, run, s);
    var c := s.w.installed[k];
    InstalledItem(cfg, s, n, q, c);
    var r := c.tag.round;
    EndToEnd(cfg, s, n, q, r);
    var l := AsLink(cfg, s, n, q, r);
    SameSoFar(cfg, s, r);
    InOrderAgrees(cfg, s, n, q, r, l);
    AgreeIsRight(cfg, s, n, q, r, l);
    AfterItsEvent(cfg, s, c.tag);
    if LastOf(s.w.installed, k) && c.tag.obj in s.w.kept {
      InMemory(cfg, s, k);
    }
  }

  lemma SameSoFar(cfg: Config, s: State, r: nat)
    requires GetRound(cfg, r).own == GetRound(cfg, r).wait && Labels(AcquiredOf(s, r)) <= Items(cfg, AtWaiter, r)
    ensures OneOrderSoFar(cfg, s, r)
  {
  }

  lemma AfterItsEvent(cfg: Config, s: State, l: Label)
    requires Told(cfg, s) && l in s.released
    ensures RoundOf(l) in s.events
  {
    hide OwnersTold, LandedTold, CacheTold, GotTold, Window, MemoryTold;
  }

  lemma InMemory(cfg: Config, s: State, k: nat)
    requires Told(cfg, s) && k < |s.w.installed| && LastOf(s.w.installed, k)
    requires ObjectOf(s.w.installed[k].tag) in s.w.kept
    ensures var x := ObjectOf(s.w.installed[k].tag); x in s.w.mem && s.w.mem[x] == s.w.installed[k].bytes
  {
    hide OwnersTold, LandedTold, CacheTold, GotTold, Window, AfterEvent;
  }

  // ---- all legs ----

  /** With one order, what was received is a beginning of what was sent. */
  lemma SamePrefix(cfg: Config, side: Side, r: nat, sent: seq<Chunk>, got: seq<Chunk>)
    requires WellFormed(cfg) && Begins(Data(got), Data(sent)) && Sized(cfg.size, sent) && Sized(cfg.size, got)
    requires Labels(sent) <= Items(cfg, side, r) && Labels(got) <= Items(cfg, side, r)
    ensures got <= sent
  {
    hide Data, Begins;
    BeginsIs(Data(got), Data(sent));
    var l := Link(sent, Labels(got), got, Data(sent)[|Data(got)|..]);
    assert Labels(got)[..|got|] == Labels(got);
    forall k | 0 <= k < |got| && k < |sent| ensures got[k].tag == sent[k].tag {
      assert Labels(got)[k] == Items(cfg, side, r)[k] == Labels(sent)[k];
    }
    assert Positive(cfg.size, Labels(got));
    OrderMatches(cfg.size, l, |got|);
    AgreeIsPrefix(l);
  }

  /** In every reachable state, for a round that all three processes list alike: what was acquired, received,
      forwarded, received by the host, sent and released are beginnings of each other, object by object. */
  lemma TransfersMatch(cfg: Config, run: seq<Action>, s: State, r: nat)
    requires WellFormed(cfg) && cfg.apart && Reaches(cfg, run, s) && r < |cfg.rounds|
    requires cfg.rounds[r].own == cfg.rounds[r].host == cfg.rounds[r].wait
    ensures var o := OwnerOf(cfg, s, r);
            && AcquiredOf(s, r) <= OfRound(s.w.link.got, r) <= OfRound(s.w.link.sent, r) <= OfRound(o.link.got, r)
            && OfRound(o.link.got, r) <= OfRound(o.link.sent, r) <= ReleasedOf(cfg, s, r)
  {
    hide InvAt, Told, InstalledTold, OfRound, Data, Begins, UpOk, DownOk, Expand, Proper, WellFormed, Conserved,
         Reaches;
    var n, q := Reachable(cfg, run, s);
    var o, m := OwnerOf(cfg, s, r), GetRound(cfg, r).owner;
    OwnerThere(cfg, s, n, q, r);
    OwnerLists(cfg, m, o, Part(s.h, m, n));
    DownIsOk(cfg, s, n, q);
    WaiterLists(cfg, s.w, s.h, TailAt(s.o, n), q);
    RoundBytes(cfg, AtOwner, AtHost, o.segs, o.link, r);
    RoundBytes(cfg, AtHost, AtWaiter, s.w.segs, s.w.link, r);
    RoundLabels(cfg, AtOwner, o.segs, o.link.sent, r);
    RoundLabels(cfg, AtHost, o.segs, o.link.got, r);
    RoundLabels(cfg, AtHost, s.w.segs, s.w.link.sent, r);
    RoundLabels(cfg, AtWaiter, s.w.segs, s.w.link.got, r);
    SizedEnds(cfg.size, o.link, r);
    SizedEnds(cfg.size, s.w.link, r);
    hide MappedChunks;
    SamePrefix(cfg, AtOwner, r, OfRound(o.link.sent, r), OfRound(o.link.got, r));
    SamePrefix(cfg, AtHost, r, OfRound(s.w.link.sent, r), OfRound(s.w.link.got, r));
    Forwards(cfg, s, n, q, r);
    AcquiredBegins(s, q, r);
    SentBegins(o, r);
  }

  lemma SizedEnds(size: Obj -> nat, l: Link, r: nat)
    requires Conserved(size, l)
    ensures Sized(size, OfRound(l.sent, r)) && Sized(size, OfRound(l.got, r))
  {
    hide OfRound, Data;
    SizedOf(size, l.sent, r);
    SizedOf(size, l.got, r);
  }

  // ---- complete rounds ----

  /** The round was requested and all its acquire chains are complete. */
  ghost predicate Acquired(s: State, r: nat) {
    r in s.w.asked.log && forall l :: Unfinished(s.w, l) ==> RoundOf(l) != r
  }

  /** Every object of a complete round is installed. */
  lemma AllInstalled(cfg: Config, s: State, n: nat, q: nat, r: nat, l: Label)
    requires WellFormed(cfg) && Inv(cfg, s, n, q) && Acquired(s, r) && l in Items(cfg, AtWaiter, r)
    ensures l in Labels(AcquiredOf(s, r))
  {
    hide InvAt, Told, OfRound, WellFormed, DownBasics, HostSide, WaiterSide, LanesOk, Alone, AllFit, TailAt, ItemsOf,
      Expand, Proper, Unfinished;
    DownIs(cfg, s, n, q);
    BasicsAre(cfg, s.w, s.h);
    AskedIsKnown(cfg, s.w, s.h, r);
    if l in Pending(s.w, q) {
      IsUnfinished(s.w, q, l);
    }
    ArrivedOrTodo(cfg, s.w.segs, s.w.link, LaneOf(s.w, q), s.w.loop, r, l);
    GotIsInstalled(s.w, q, l);
    IsAcquired(s, r, l);
  }

  lemma AskedIsKnown(cfg: Config, w: Waiter, h: HostState, r: nat)
    requires DownBasics(cfg, w, h) && r in w.asked.log
    ensures Sync(r) in w.segs && r < |cfg.rounds|
  {
    hide Conserved, SendsOk, Begun, Holds, AllItems;
  }

  lemma ArrivedOrTodo(cfg: Config, segs: seq<Seg>, link: Link, lane: Lane, loop: seq<Label>, r: nat, l: Label)
    requires Proper(cfg, segs) && WaiterSide(cfg, segs, link, lane, loop) && Conserved(cfg.size, link)
    requires Sync(r) in segs && l in Items(cfg, AtWaiter, r)
    requires l !in Undone(lane) + loop
    ensures l in Labels(link.got)
  {
    var full := link.posted + (Rest(lane) + loop);
    StillCovered(cfg, segs, full, r, l);
    RestInUndone(lane);
    hide SideOk, Data, Sized, Expand, Proper;
    if l !in Labels(link.got) {
      NotInTail(link, lane, l);
    }
  }

  lemma StillCovered(cfg: Config, segs: seq<Seg>, full: seq<Label>, r: nat, l: Label)
    requires Proper(cfg, segs) && Covers(cfg, AtWaiter, segs, full) && Sync(r) in segs && l in Items(cfg, AtWaiter, r)
    ensures l in full
  {
    ItemInExpand(cfg, AtWaiter, segs, l);
    if Lacks(cfg, AtWaiter, segs, full) {
      var front := segs[..|segs| - 1];
      assert segs == front + [segs[|segs| - 1]];
      ProperPrefix(cfg, segs, |segs| - 1);
      ItemInExpand(cfg, AtWaiter, front, l);
    }
  }

  lemma NotInTail(link: Link, lane: Lane, l: Label)
    requires TailOk(link, lane) && LaneOk(lane) && l.Item? && l !in Undone(lane)
    requires |link.got| <= |link.posted| && Labels(link.got) == link.posted[..|link.got|] && l !in Labels(link.got)
    ensures l !in link.posted
  {
    assert l !in Tail(link) by {
      if AtStage(lane, Waiting) {
        assert Undone(lane)[0] == Head(lane);
      }
    }
    assert link.posted == link.posted[..|link.got|] + Tail(link);
  }

  lemma GotIsInstalled(w: Waiter, q: nat, l: Label)
    requires InstalledTold(w, q) && l in Labels(w.link.got) && l.Item? && l !in Undone(LaneOf(w, q))
    ensures l in Labels(w.installed)
  {
    var k :| 0 <= k < |w.link.got| && Labels(w.link.got)[k] == l;
    var c := w.link.got[k];
    InItems(w.link.got, c);
    assert c in w.installed || c in Arrived(LaneOf(w, q));
    var lane := LaneOf(w, q);
    assert AtStage(lane, Moved) ==> Undone(lane)[0] == Head(lane);
    LabelOf(w.installed, c);
  }

  lemma IsAcquired(s: State, r: nat, l: Label)
    requires l in Labels(s.w.installed) && Of(l, r)
    ensures l in Labels(AcquiredOf(s, r))
  {
    hide OfRound;
    var k :| 0 <= k < |s.w.installed| && Labels(s.w.installed)[k] == l;
    InOfRound(s.w.installed, r, s.w.installed[k]);
    LabelOf(AcquiredOf(s, r), s.w.installed[k]);
  }

  /** A beginning of a list without duplicates that has the list's last element is the whole list. */
  lemma WholeItems(cfg: Config, r: nat, ls: seq<Label>)
    requires WellFormed(cfg) && ls <= Items(cfg, AtWaiter, r) && forall l :: l in Items(cfg, AtWaiter, r) ==> l in ls
    ensures ls == Items(cfg, AtWaiter, r)
  {
    var all := Items(cfg, AtWaiter, r);
    ListIsDistinct(cfg, AtWaiter, r);
    if all != [] {
      assert all[|all| - 1] in ls;
      var i :| 0 <= i < |ls| && ls[i] == all[|all| - 1];
      assert all[i] == all[|all| - 1];
    }
  }

  /** When all acquire chains of a round are complete, for any list orders and sizes: every listed object was
      released and acquired exactly once, and the bytes acquired are the bytes released, in order. */
  lemma CompleteRound(cfg: Config, run: seq<Action>, s: State, r: nat)
    requires WellFormed(cfg) && cfg.apart && Reaches(cfg, run, s) && r < |cfg.rounds| && Acquired(s, r)
    ensures Labels(ReleasedOf(cfg, s, r)) == Items(cfg, AtOwner, r)
            && Labels(AcquiredOf(s, r)) == Items(cfg, AtWaiter, r)
    ensures Data(AcquiredOf(s, r)) == Data(ReleasedOf(cfg, s, r))
  {
    hide InvAt, Told, InstalledTold, OfRound, WellFormed, Reaches, Acquired, MappedChunks, Data, Total, Begins, Sized;
    var n, q := Reachable(cfg, run, s);
    EndToEnd(cfg, s, n, q, r);
    forall l | l in Items(cfg, AtWaiter, r) ensures l in Labels(AcquiredOf(s, r)) {
      AllInstalled(cfg, s, n, q, r, l);
    }
    WholeItems(cfg, r, Labels(AcquiredOf(s, r)));
    SizedPart(cfg.size, AcquiredOf(s, r), Items(cfg, AtWaiter, r));
    SizedPart(cfg.size, ReleasedOf(cfg, s, r), Items(cfg, AtOwner, r));
    TotalSeg(cfg, AtOwner, AtWaiter, Sync(r));
    BeginsIs(Data(AcquiredOf(s, r)), Data(ReleasedOf(cfg, s, r)));
    AllReleased(cfg, r, ReleasedOf(cfg, s, r));
    SameLength(Data(AcquiredOf(s, r)), Data(ReleasedOf(cfg, s, r)));
  }

  lemma AllReleased(cfg: Config, r: nat, cs: seq<Chunk>)
    requires WellFormed(cfg) && Sized(cfg.size, cs) && Labels(cs) <= Items(cfg, AtOwner, r)
    requires |Data(cs)| >= Total(cfg.size, Items(cfg, AtOwner, r))
    ensures Labels(cs) == Items(cfg, AtOwner, r)
  {
    hide Data, Total;
    DataLength(cfg.size, cs);
    assert Positive(cfg.size, Items(cfg, AtOwner, r));
    Shorter(cfg.size, Labels(cs), Items(cfg, AtOwner, r));
  }

  lemma SameLength(a: Bytes, b: Bytes)
    requires Begins(a, b) && |a| >= |b|
    ensures a == b
  {
  }
}
