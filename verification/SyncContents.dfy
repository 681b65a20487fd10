/**
 Contents: what the histories say about the bytes. Every copy that is still to be used is the one that its
 transfer brought; the host's copy of an object is not overwritten before it is sent on.
 */
module SyncContents {
  import opened Seqs
  import opened Links
  import opened SyncProtocol
  import opened SyncLists
  import opened SyncInvariant
  import opened SyncDrained
  import opened SyncRuns
  import opened SyncSteps

  // ---- the owners ----

  /** Sent is what the release maps read. */
  ghost predicate OwnerTold(o: Owner, released: map<Label, Bytes>) {
    && (forall k :: 0 <= k < |o.link.sent| ==> Recorded(o.link.sent[k], released))
    && (AtStage(o.lane, Mapped) ==> Recorded(Chunk(Head(o.lane), o.lane.buffer), released))
  }

  predicate Recorded(c: Chunk, m: map<Label, Bytes>) {
    c.tag.Item? ==> c.tag in m && m[c.tag] == c.bytes
  }

  /** No request reaches an owner that is not concerned. */
  predicate Untouched(o: Owner) {
    o.orders.log == [] && o.loop == [] && o.lane.log == []
  }

  /** The owner's release chain has got as far as the map. */
  ghost predicate Released(cfg: Config, o: map<nat, Owner>, l: Label) {
    l.Item? && GetRound(cfg, l.round).owner in o && HasMapped(o[GetRound(cfg, l.round).owner], l)
  }

  ghost predicate HasMapped(o: Owner, l: Label) {
    l in Labels(o.link.sent) || (AtStage(o.lane, Mapped) && Head(o.lane) == l)
  }

  ghost predicate OwnersTold(cfg: Config, o: map<nat, Owner>, released: map<Label, Bytes>) {
    && (forall m :: m in o ==> OwnerTold(o[m], released) && (!Uses(cfg, m) ==> Untouched(o[m])))
    && (forall l :: l in released ==> Released(cfg, o, l))
  }

  ghost predicate AfterEvent(released: map<Label, Bytes>, events: set<nat>) {
    forall l :: l in released ==> RoundOf(l) in events
  }

  lemma OwnersToldPut(cfg: Config, o: map<nat, Owner>, released: map<Label, Bytes>, m: nat, o': Owner)
    requires OwnersTold(cfg, o, released) && m in o && OwnerTold(o', released) && (!Uses(cfg, m) ==> Untouched(o'))
    requires forall l :: HasMapped(o[m], l) ==> HasMapped(o', l)
    ensures OwnersTold(cfg, o[m := o'], released)
  {
    hide OwnerTold, Uses, HasMapped, Untouched;
    forall l | l in released ensures Released(cfg, o[m := o'], l) {
      assert Released(cfg, o, l);
    }
  }

  /** The history of an owner does not change if nothing is mapped, sent or unmapped. */
  lemma ToldSame(o: Owner, o': Owner, released: map<Label, Bytes>)
    requires OwnerTold(o, released) && o'.link.sent == o.link.sent && o'.lane.stage == o.lane.stage
    requires o'.lane.pos == o.lane.pos && o'.lane.buffer == o.lane.buffer && o.lane.log <= o'.lane.log
    requires AtStage(o'.lane, Mapped) ==> o.lane.pos < |o.lane.log|
    ensures OwnerTold(o', released) && forall l :: HasMapped(o, l) ==> HasMapped(o', l)
  {
  }

  lemma ToldSend(o: Owner, released: map<Label, Bytes>)
    requires OwnerTold(o, released) && AtStage(o.lane, Mapped)
    ensures var o' := o.(lane := o.lane.(stage := Moved), link := Sent(o.link, Chunk(Head(o.lane), o.lane.buffer)));
            OwnerTold(o', released) && forall l :: HasMapped(o, l) ==> HasMapped(o', l)
  {
    var c := Chunk(Head(o.lane), o.lane.buffer);
    assert Labels(o.link.sent + [c]) == Labels(o.link.sent) + [c.tag];
  }

  lemma ToldUnmap(o: Owner, released: map<Label, Bytes>)
    requires OwnerTold(o, released) && AtStage(o.lane, Moved)
    ensures OwnerTold(o.(lane := Unmapped(o.lane)), released)
    ensures forall l :: HasMapped(o, l) ==> HasMapped(o.(lane := Unmapped(o.lane)), l)
  {
  }

  lemma ToldRead(o: Owner, o': Owner, released: map<Label, Bytes>, c: Chunk)
    requires OwnerTold(o, released) && c.tag.Other? && o' == o.(link := Sent(o.link, c), segs := o'.segs)
    ensures OwnerTold(o', released) && forall l :: HasMapped(o, l) ==> HasMapped(o', l)
  {
    assert Labels(o.link.sent + [c]) == Labels(o.link.sent) + [c.tag];
  }

  /** The release map of the chain at the head of an owner's queue has not happened before. */
  lemma NewRelease(cfg: Config, m: nat, o: Owner, part: seq<Label>)
    requires WellFormed(cfg) && UpOk(cfg, m, o, part) && AtStage(o.lane, Idle)
    ensures !HasMapped(o, Head(o.lane)) && Head(o.lane).Item? && GetRound(cfg, Head(o.lane).round).owner == m
    ensures Head(o.lane).round < |cfg.rounds| && Head(o.lane).obj in List(cfg, AtOwner, Head(o.lane).round)
  {
    var l, sent, rest := Head(o.lane), Labels(o.link.sent), OwnerPart(cfg, o);
    assert l in o.lane.log;
    assert Rest(o.lane)[0] == l;
    assert rest[0] == l;
    CoversPrefix(cfg, AtOwner, o.segs, sent + rest);
    ItemInExpand(cfg, AtOwner, o.segs, l);
    hide Expand, Rest, Requested, Conserved, Holds, Covers, Lacks, OwnerPart, Begun;
    assert (sent + rest)[|sent|] == l;
    assert Expand(cfg, AtOwner, o.segs)[|sent|] == l;
    NewLabel(sent, rest);
  }

  lemma NewLabel(sent: seq<Label>, rest: seq<Label>)
    requires NoDup(sent + rest) && rest != []
    ensures rest[0] !in sent
  {
    var all := sent + rest;
    forall i | 0 <= i < |sent| ensures sent[i] != rest[0] {
      assert all[i] != all[|sent|];
    }
  }

  lemma ToldMap(cfg: Config, o: map<nat, Owner>, released: map<Label, Bytes>, m: nat, o': Owner, l: Label, bytes: Bytes)
    requires OwnersTold(cfg, o, released) && m in o && AtStage(o[m].lane, Idle) && Head(o[m].lane) == l && l.Item?
    requires !HasMapped(o[m], l) && GetRound(cfg, l.round).owner == m && Uses(cfg, m)
    requires o' == o[m].(lane := o[m].lane.(stage := Mapped, buffer := bytes))
    ensures OwnersTold(cfg, o[m := o'], released[l := bytes])
  {
    hide Uses;
    var t, more := o[m := o'], released[l := bytes];
    assert l in released ==> Released(cfg, o, l);
    forall p | p in t ensures OwnerTold(t[p], more) {
      assert OwnerTold(o[p], released);
      NotRecorded(o[p], released, l, bytes);
    }
    forall x | x in more ensures Released(cfg, t, x) {
      if x != l {
        assert Released(cfg, o, x);
      }
    }
  }

  /** Recording a new label changes nothing that was recorded. */
  lemma NotRecorded(o: Owner, released: map<Label, Bytes>, l: Label, bytes: Bytes)
    requires OwnerTold(o, released) && l !in released && l.Item?
    ensures OwnerTold(o, released[l := bytes])
  {
  }

  // ---- the host ----

  /** Received items are recorded. */
  ghost predicate LandedTold(cfg: Config, o: map<nat, Owner>, landed: map<Label, Bytes>) {
    && (forall m :: m in o ==> GotTold(o[m].link.got, landed))
    && (forall l :: l in landed ==> HasLanded(cfg, o, Chunk(l, landed[l])))
  }

  ghost predicate GotTold(got: seq<Chunk>, landed: map<Label, Bytes>) {
    forall k :: 0 <= k < |got| ==> Recorded(got[k], landed)
  }

  ghost predicate HasLanded(cfg: Config, o: map<nat, Owner>, c: Chunk) {
    c.tag.Item? && GetRound(cfg, c.tag.round).owner in o && c in o[GetRound(cfg, c.tag.round).owner].link.got
  }

  /** The host's copy is what the receive brought. */
  predicate InCache(h: HostState, l: Label) {
    l.Item? && l in h.landed && l.obj in h.cache && h.cache[l.obj] == h.landed[l]
  }

  /** What is still to be sent is kept. */
  ghost predicate CacheTold(h: HostState, k: nat) {
    && (forall i :: k <= i < |h.sends| && h.sends[i].Cached? ==> InCache(h, h.sends[i].tag))
    && (h.trigger.Some? ==> InCache(h, h.trigger.value))
       && (h.posting.Some? && h.postingLanded ==> InCache(h, h.posting.value))
  }

  ghost predicate DistinctObjects(ls: seq<Label>) {
    forall i, j :: 0 <= i < j < |ls| && ls[i].Item? && ls[j].Item? ==> ls[i].obj != ls[j].obj
  }

  /** No two items that the host has still to send are of one object. */
  ghost predicate Window(cfg: Config, segs: seq<Seg>, k: nat) {
    k <= |Expand(cfg, AtHost, segs)| ==> DistinctObjects(Expand(cfg, AtHost, segs)[k..])
  }

  // ---- the waiting node ----

  /** The items among the chunks. */
  function ItemsOf(cs: seq<Chunk>): seq<Chunk> {
    if cs == [] then [] else
    var front, c := ItemsOf(cs[..|cs| - 1]), cs[|cs| - 1];
    if c.tag.Item? then front + [c] else front
  }

  /** What has arrived for the chain at the head and is not installed yet. */
  function Arrived(lane: Lane): seq<Chunk> {
    if AtStage(lane, Moved) then [Chunk(Head(lane), lane.buffer)] else []
  }

  /** Items are installed as they arrive. */
  ghost predicate InstalledTold(w: Waiter, q: nat) {
    ItemsOf(w.link.got) == w.installed + Arrived(LaneOf(w, q))
  }

  predicate LastOf(cs: seq<Chunk>, k: nat) {
    k < |cs| && forall j :: k < j < |cs| ==> ObjectOf(cs[j].tag) != ObjectOf(cs[k].tag)
  }

  /** The waiting node's memory holds what was installed last, unless something has written it since. */
  ghost predicate MemoryTold(mem: map<Obj, Bytes>, installed: seq<Chunk>, kept: set<Obj>) {
    forall k :: 0 <= k < |installed| && LastOf(installed, k) && ObjectOf(installed[k].tag) in kept ==>
      ObjectOf(installed[k].tag) in mem && mem[ObjectOf(installed[k].tag)] == installed[k].bytes
  }

  ghost predicate Told(cfg: Config, s: State) {
    && OwnersTold(cfg, s.o, s.released) && AfterEvent(s.released, s.events) && LandedTold(cfg, s.o, s.h.landed)
    && CacheTold(s.h, |s.w.link.sent|) && GotTold(s.w.link.sent, s.h.landed) && Window(cfg, s.w.segs, |s.w.link.sent|)
    && MemoryTold(s.w.mem, s.w.installed, s.w.kept)
  }

  /** No map of an object of an unfinished round is under way. */
  ghost predicate MapsApart(cfg: Config, o: map<nat, Owner>, w: Waiter) {
    forall n, l :: n in o && Unfinished(w, l) ==> MapsNone(cfg, o[n].link, RoundOf(l))
  }

  // ---- landing ----

  lemma InCacheStays(h: HostState, c: Chunk, l: Label)
    requires InCache(h, l) && c.tag.Item? && c.tag !in h.landed && l.obj != c.tag.obj
    ensures InCache(Landed(h, c), l)
  {
  }

  lemma RecordedStays(cs: seq<Chunk>, landed: map<Label, Bytes>, l: Label, bytes: Bytes)
    requires GotTold(cs, landed) && l !in landed
    ensures GotTold(cs, landed[l := bytes])
  {
    forall k | 0 <= k < |cs| ensures Recorded(cs[k], landed[l := bytes]) {
      assert Recorded(cs[k], landed);
    }
  }

  /** An item that lands is of another object than those that are still to be sent. */
  lemma LandsApart(cfg: Config, w: Waiter, h: HostState, tail: seq<Label>, i: nat)
    requires WellFormed(cfg) && DownBasics(cfg, w, h) && HostSide(cfg, w, h, tail) && Window(cfg, w.segs, |w.link.sent|)
    requires h.trigger == None && tail != [] && tail[0].Item? && |w.link.sent| <= i < |h.sends|
             && SendTag(h.sends[i]).Item?
    ensures SendTag(h.sends[i]).obj != tail[0].obj
  {
    HostListPrefix(cfg, w, h, tail);
    TailIsNext(cfg, w, h, tail);
    hide Expand, DownBasics, HostSide, WellFormed, HostPending, DistinctObjects;
    var full := HostList(cfg, w, h, tail);
    assert full[i] == SendTag(h.sends[i]) && full[|h.sends|] == tail[0];
    TwoOfWindow(Expand(cfg, AtHost, w.segs), full, |w.link.sent|, i, |h.sends|);
  }

  lemma TwoOfWindow(all: seq<Label>, full: seq<Label>, k: nat, i: nat, j: nat)
    requires full <= all && k <= i < j < |full| && DistinctObjects(all[k..]) && full[i].Item? && full[j].Item?
    ensures full[i].obj != full[j].obj
  {
    assert all[k..][i - k] == full[i] && all[k..][j - k] == full[j];
  }

  lemma HostListPrefix(cfg: Config, w: Waiter, h: HostState, tail: seq<Label>)
    requires WellFormed(cfg) && DownBasics(cfg, w, h) && HostSide(cfg, w, h, tail)
    ensures HostList(cfg, w, h, tail) <= Expand(cfg, AtHost, w.segs)
  {
    hide Expand, HostPending, WellFormed;
    CoversPrefix(cfg, AtHost, w.segs, HostList(cfg, w, h, tail));
  }

  lemma TailIsNext(cfg: Config, w: Waiter, h: HostState, tail: seq<Label>)
    requires HostSide(cfg, w, h, tail) && h.trigger == None && tail != []
    ensures HostPending(cfg, w, h, tail) != [] && HostPending(cfg, w, h, tail)[0] == tail[0]
  {
    hide SideOk, Requested;
  }

  lemma CacheLands(cfg: Config, w: Waiter, h: HostState, tail: seq<Label>, c: Chunk)
    requires WellFormed(cfg) && DownBasics(cfg, w, h) && HostSide(cfg, w, h, tail) && Window(cfg, w.segs, |w.link.sent|)
    requires h.trigger == None && tail != [] && tail[0] == c.tag && c.tag.Item? && c.tag !in h.landed
    requires CacheTold(h, |w.link.sent|)
    ensures CacheTold(Landed(h, c), |w.link.sent|)
  {
    var h' := Landed(h, c);
    forall i | |w.link.sent| <= i < |h.sends| && h.sends[i].Cached? ensures InCache(h', h.sends[i].tag) {
      LandsApart(cfg, w, h, tail, i);
      InCacheStays(h, c, h.sends[i].tag);
    }
    hide DownBasics, Window, HostPending, SideOk;
  }

  /** A receive completes only once. */
  lemma NotLandedYet(cfg: Config, m: nat, o: Owner, part: seq<Label>, l: Label, bytes: Bytes)
    requires WellFormed(cfg) && UpOk(cfg, m, o, part) && CanReceive(cfg.size, o.link)
             && l == o.link.posted[|o.link.got|]
    ensures Chunk(l, bytes) !in o.link.got
  {
    PostedNoDup(cfg, AtHost, o.segs, o.link.posted, part);
    NotEarlier(o.link.posted, |o.link.got|, |o.link.got|);
    hide Proper, SideOk, Expand, Data, Sized, LaneOk, NoDup;
    if Chunk(l, bytes) in o.link.got {
      LabelOf(o.link.got, Chunk(l, bytes));
    }
  }

  lemma LabelOf(cs: seq<Chunk>, c: Chunk)
    requires c in cs
    ensures c.tag in Labels(cs)
  {
    var k :| 0 <= k < |cs| && cs[k] == c;
    assert Labels(cs)[k] == c.tag;
  }

  lemma LandedPut(cfg: Config, o: map<nat, Owner>, landed: map<Label, Bytes>, m: nat, o': Owner, c: Chunk)
    requires LandedTold(cfg, o, landed) && m in o && o'.link.got == o[m].link.got + [c]
    requires c.tag.Item? ==> c.tag !in landed && GetRound(cfg, c.tag.round).owner == m
    ensures LandedTold(cfg, o[m := o'], if c.tag.Item? then landed[c.tag := c.bytes] else landed)
  {
    var t, more := o[m := o'], if c.tag.Item? then landed[c.tag := c.bytes] else landed;
    forall p | p in t ensures GotTold(t[p].link.got, more) {
      if c.tag.Item? {
        RecordedStays(o[p].link.got, landed, c.tag, c.bytes);
      }
    }
    forall l | l in more ensures HasLanded(cfg, t, Chunk(l, more[l])) {
      if c.tag.Item? && l == c.tag {
        assert o'.link.got[|o[m].link.got|] == c;
      } else {
        assert HasLanded(cfg, o, Chunk(l, landed[l]));
      }
    }
  }

  lemma LandedSame(cfg: Config, o: map<nat, Owner>, landed: map<Label, Bytes>, m: nat, o': Owner)
    requires LandedTold(cfg, o, landed) && m in o && o'.link.got == o[m].link.got
    ensures LandedTold(cfg, o[m := o'], landed)
  {
    hide GotTold;
    forall l | l in landed ensures HasLanded(cfg, o[m := o'], Chunk(l, landed[l])) {
      assert HasLanded(cfg, o, Chunk(l, landed[l]));
    }
  }

  // ---- the window ----

  lemma DistinctConcat(a: seq<Label>, b: seq<Label>)
    requires DistinctObjects(a) && DistinctObjects(b)
    requires forall x, y :: x in a && y in b && x.Item? && y.Item? ==> x.obj != y.obj
    ensures DistinctObjects(a + b)
  {
    forall i, j | 0 <= i < j < |a + b| && (a + b)[i].Item? && (a + b)[j].Item?
      ensures (a + b)[i].obj != (a + b)[j].obj
    {
      if i < |a| <= j {
        assert a[i] in a && b[j - |a|] in b;
      }
    }
  }

  lemma WindowAppend(cfg: Config, segs: seq<Seg>, g: Seg, k: nat)
    requires k <= |Expand(cfg, AtHost, segs)| && Window(cfg, segs, k) && DistinctObjects(OneSeg(cfg, AtHost, g))
    requires forall x, y :: x in Expand(cfg, AtHost, segs)[k..] && y in OneSeg(cfg, AtHost, g) && x.Item? && y.Item? ==>
               x.obj != y.obj
    ensures Window(cfg, segs + [g], k)
  {
    ExpandAppend(cfg, AtHost, segs, g);
    hide Expand, OneSeg;
    var a, b := Expand(cfg, AtHost, segs), OneSeg(cfg, AtHost, g);
    assert (a + b)[k..] == a[k..] + b;
    DistinctConcat(a[k..], b);
  }

  lemma WindowShrinks(cfg: Config, segs: seq<Seg>, k: nat)
    requires Window(cfg, segs, k)
    ensures Window(cfg, segs, k + 1)
  {
    var all := Expand(cfg, AtHost, segs);
    hide Expand;
    if k + 1 <= |all| {
      assert all[k..][1..] == all[k + 1..];
      DistinctRest(all[k..]);
    }
  }

  lemma DistinctRest(ls: seq<Label>)
    requires DistinctObjects(ls) && ls != []
    ensures DistinctObjects(ls[1..])
  {
    var rest := ls[1..];
    forall i, j | 0 <= i < j < |rest| && rest[i].Item? && rest[j].Item? ensures rest[i].obj != rest[j].obj {
      assert ls[i + 1].obj != ls[j + 1].obj;
    }
  }

  /** What the host has still to send is of rounds that are not complete. */
  lemma UnsentAtWork(cfg: Config, w: Waiter, h: HostState, tail: seq<Label>, q: nat, x: Label)
    requires WellFormed(cfg) && DownOk(cfg, w, h, tail, q) && x.Item?
    requires |w.link.sent| <= |HostList(cfg, w, h, tail)| && x in HostList(cfg, w, h, tail)[|w.link.sent|..]
    ensures x.obj in List(cfg, AtHost, x.round) && exists l :: l in Pending(w, q) && RoundOf(l) == x.round
  {
    hide Expand, WaiterSide, HostSide, HostPending, Undone, Proper, DownBasics, WellFormed, SendsOk, Conserved, Lacks;
    BasicsAre(cfg, w, h);
    var full, k := HostList(cfg, w, h, tail), |w.link.sent|;
    var i := IndexFrom(full, k, x);
    HostCovers(cfg, w, h, tail);
    CoversPrefix(cfg, AtHost, w.segs, full);
    assert x == Expand(cfg, AtHost, w.segs)[i];
    ItemInExpand(cfg, AtHost, w.segs, x);
    SentIsPrefix(cfg, w.link.sent, h.sends, HostPending(cfg, w, h, tail));
    var l := PendingRound(cfg, w.segs, w.link, LaneOf(w, q), w.loop, full, i);
    assert l in Pending(w, q);
  }

  lemma HostCovers(cfg: Config, w: Waiter, h: HostState, tail: seq<Label>)
    requires HostSide(cfg, w, h, tail)
    ensures Covers(cfg, AtHost, w.segs, HostList(cfg, w, h, tail))
  {
    hide Expand, HostPending;
  }

  /** What the host has received and not sent yet is of other objects than one that no unfinished round has. */
  lemma UnsentIsUsed(cfg: Config, s: State, n: nat, q: nat, x: Obj, l: Label)
    requires WellFormed(cfg) && InvAt(cfg, s, n, q) && Unused(cfg, s.w, x) && l.Item?
    requires var full := HostList(cfg, s.w, s.h, TailAt(s.o, n));
             |s.w.link.sent| <= |full| && l in full[|s.w.link.sent|..]
    ensures l.obj != x
  {
    hide OwnersOk, TailsOk, LanesOk, Flow, TailAt, Present, SeenOk, Alone, WellFormed, Pending, Unfinished, HostList;
    UnsentAtWork(cfg, s.w, s.h, TailAt(s.o, n), q, l);
    var u :| u in Pending(s.w, q) && RoundOf(u) == l.round;
    IsUnfinished(s.w, q, u);
    assert l.obj in Set(List(cfg, AtHost, RoundOf(u)));
  }

  lemma PendingIsUsed(cfg: Config, s: State, n: nat, q: nat, x: Obj, l: Label)
    requires WellFormed(cfg) && InvAt(cfg, s, n, q) && Unused(cfg, s.w, x) && l.Item?
    requires l in HostPending(cfg, s.w, s.h, TailAt(s.o, n)) && |s.w.link.sent| <= |s.h.sends|
    ensures l.obj != x
  {
    hide InvAt, WellFormed, TailAt, Unused, HostPending;
    var pending := HostPending(cfg, s.w, s.h, TailAt(s.o, n));
    InPending(SendTags(s.h.sends), pending, |s.w.link.sent|, l);
    UnsentIsUsed(cfg, s, n, q, x, l);
  }

  lemma SendIsUsed(cfg: Config, s: State, n: nat, q: nat, x: Obj, i: nat)
    requires WellFormed(cfg) && InvAt(cfg, s, n, q) && Unused(cfg, s.w, x)
    requires |s.w.link.sent| <= i < |s.h.sends| && SendTag(s.h.sends[i]).Item?
    ensures SendTag(s.h.sends[i]).obj != x
  {
    var full := HostList(cfg, s.w, s.h, TailAt(s.o, n));
    hide InvAt, WellFormed, TailAt, Unused, HostPending;
    assert full[|s.w.link.sent|..][i - |s.w.link.sent|] == SendTag(s.h.sends[i]);
    UnsentIsUsed(cfg, s, n, q, x, SendTag(s.h.sends[i]));
  }

  lemma SentFewer(cfg: Config, s: State, n: nat, q: nat)
    requires InvAt(cfg, s, n, q)
    ensures |s.w.link.sent| <= |s.h.sends|
  {
    var tail := TailAt(s.o, n);
    DownIs(cfg, s, n, q);
    hide InvAt, TailAt, HostSide, WaiterSide, LanesOk, Alone, AllFit, Pending;
    BasicsAre(cfg, s.w, s.h);
    SentIsPrefix(cfg, s.w.link.sent, s.h.sends, HostPending(cfg, s.w, s.h, tail));
  }

  /** The same, for all that is kept to be sent. */
  lemma HeldIsUsed(cfg: Config, s: State, n: nat, q: nat, x: Obj)
    requires WellFormed(cfg) && InvAt(cfg, s, n, q) && Unused(cfg, s.w, x)
    ensures forall i :: |s.w.link.sent| <= i < |s.h.sends| && SendTag(s.h.sends[i]).Item? ==>
              SendTag(s.h.sends[i]).obj != x
    ensures s.h.trigger.Some? && s.h.trigger.value.Item? ==> s.h.trigger.value.obj != x
    ensures s.h.posting.Some? && s.h.postingLanded && s.h.posting.value.Item? ==> s.h.posting.value.obj != x
  {
    hide InvAt, WellFormed, TailAt, Unused, HostPending;
    SentFewer(cfg, s, n, q);
    FirstPending(cfg, s.w, s.h, TailAt(s.o, n));
    forall i | |s.w.link.sent| <= i < |s.h.sends| && SendTag(s.h.sends[i]).Item?
      ensures SendTag(s.h.sends[i]).obj != x
    {
      SendIsUsed(cfg, s, n, q, x, i);
    }
    forall l | l in HostPending(cfg, s.w, s.h, TailAt(s.o, n)) && l.Item? ensures l.obj != x {
      PendingIsUsed(cfg, s, n, q, x, l);
    }
  }

  lemma FirstPending(cfg: Config, w: Waiter, h: HostState, tail: seq<Label>)
    ensures h.trigger.Some? ==> h.trigger.value in HostPending(cfg, w, h, tail)
    ensures h.posting.Some? && h.postingLanded ==> h.posting.value in HostPending(cfg, w, h, tail)
  {
    var rest := tail + (h.loop + Requested(cfg, AtHost, Unseen(w.asked)));
    if h.trigger.Some? {
      assert Opt(h.trigger)[0] == h.trigger.value;
      assert (Opt(h.trigger) + (PostLanded(h) + rest))[0] == h.trigger.value;
    }
    if h.posting.Some? && h.postingLanded {
      assert (PostLanded(h) + rest)[0] == h.posting.value;
      assert (Opt(h.trigger) + (PostLanded(h) + rest))[|Opt(h.trigger)|] == h.posting.value;
    }
  }

  lemma InPending(sends: seq<Label>, pending: seq<Label>, k: nat, l: Label)
    requires k <= |sends| && l in pending
    ensures l in (sends + pending)[k..]
  {
    var i :| 0 <= i < |pending| && pending[i] == l;
    assert (sends + pending)[k..][|sends| - k + i] == l;
  }

  /** Another object's copy changes. */
  lemma OtherCopy(cfg: Config, s: State, n: nat, q: nat, x: Obj, cache: map<Obj, Bytes>)
    requires WellFormed(cfg) && InvAt(cfg, s, n, q) && Unused(cfg, s.w, x) && CacheTold(s.h, |s.w.link.sent|)
    requires forall y :: y in s.h.cache && y != x ==> y in cache && cache[y] == s.h.cache[y]
    ensures CacheTold(s.h.(cache := cache), |s.w.link.sent|)
  {
    HeldIsUsed(cfg, s, n, q, x);
    hide InvAt, WellFormed, Unused;
    var h := s.h.(cache := cache);
    forall i | |s.w.link.sent| <= i < |h.sends| && h.sends[i].Cached? ensures InCache(h, h.sends[i].tag) {
      assert InCache(s.h, s.h.sends[i].tag) && SendTag(s.h.sends[i]) == s.h.sends[i].tag;
    }
  }

  /** Memory that the host had not allocated holds nothing that is to be sent. */
  lemma NewCopy(cfg: Config, s: State, x: Obj, data: Bytes)
    requires Told(cfg, s) && x !in s.h.cache
    ensures Told(cfg, s.(h := s.h.(cache := s.h.cache[x := data])))
  {
    hide OwnersTold, AfterEvent, LandedTold, GotTold, Window, MemoryTold;
    var h := s.h.(cache := s.h.cache[x := data]);
    forall i | |s.w.link.sent| <= i < |h.sends| && h.sends[i].Cached? ensures InCache(h, h.sends[i].tag) {
      assert InCache(s.h, s.h.sends[i].tag);
    }
  }

  lemma StoresTells(cfg: Config, s: State, n: nat, q: nat, x: Obj, data: Bytes)
    requires WellFormed(cfg) && InvAt(cfg, s, n, q) && Told(cfg, s) && Unused(cfg, s.w, x)
    ensures Told(cfg, s.(h := s.h.(cache := s.h.cache[x := data])))
  {
    hide OwnersTold, AfterEvent, LandedTold, GotTold, Window, MemoryTold, CacheTold, InvAt, WellFormed, Unused;
    OtherCopy(cfg, s, n, q, x, s.h.cache[x := data]);
  }

  lemma BasicsAre(cfg: Config, w: Waiter, h: HostState)
    requires DownBasics(cfg, w, h)
    ensures Conserved(cfg.size, w.link) && Proper(cfg, w.segs) && SendsOk(cfg, w.link.sent, h.sends)
  {
    hide Conserved, Proper, SendsOk, Begun, Holds, AllItems;
  }

  lemma IndexFrom(ls: seq<Label>, k: nat, x: Label) returns (i: nat)
    requires k <= |ls| && x in ls[k..]
    ensures k <= i < |ls| && ls[i] == x
  {
    var j :| 0 <= j < |ls[k..]| && ls[k..][j] == x;
    i := k + j;
  }

  lemma WindowAsks(cfg: Config, s: State, n: nat, q: nat, r: nat)
    requires WellFormed(cfg) && InvAt(cfg, s, n, q) && MayStart(cfg, s, r) && r < |cfg.rounds|
    requires Window(cfg, s.w.segs, |s.w.link.sent|)
    ensures Window(cfg, s.w.segs + [Sync(r)], |s.w.link.sent|)
  {
    var full, k := Expand(cfg, AtHost, s.w.segs), |s.w.link.sent|;
    WholeHostList(cfg, s, n, q, r);
    forall x, y | x in full[k..] && y in Items(cfg, AtHost, r) && x.Item? && y.Item? ensures x.obj != y.obj {
      assert x in HostList(cfg, s.w, s.h, TailAt(s.o, n))[k..];
      UnsentAtWork(cfg, s.w, s.h, TailAt(s.o, n), q, x);
      var l :| l in Pending(s.w, q) && RoundOf(l) == x.round;
      IsUnfinished(s.w, q, l);
      hide InvAt, Expand, Unfinished, Pending, Window;
      assert Compatible(cfg, x.round, r);
      assert y.obj in Set(List(cfg, AtHost, r)) && x.obj in Set(List(cfg, AtHost, x.round));
    }
    ListIsDistinct(cfg, AtHost, r);
    hide InvAt, Expand, MayStart, Window;
    WindowAppend(cfg, s.w.segs, Sync(r), k);
  }

  lemma WholeHostList(cfg: Config, s: State, n: nat, q: nat, r: nat)
    requires WellFormed(cfg) && InvAt(cfg, s, n, q) && MayStart(cfg, s, r)
    ensures HostList(cfg, s.w, s.h, TailAt(s.o, n)) == Expand(cfg, AtHost, s.w.segs)
    ensures |s.w.link.sent| <= |Expand(cfg, AtHost, s.w.segs)| && DownOk(cfg, s.w, s.h, TailAt(s.o, n), q)
  {
    hide OwnersOk, TailsOk, LanesOk, Flow, TailAt, Present, SeenOk, OthersDone, WellFormed, Pending, Uses, Unfinished,
      WaiterSide, HostPending, Expand, Lacks, PostingOk, Conserved, Begun, Holds, AskedOk, SendOk;
    HostNotLacking(cfg, s.w, s.h, TailAt(s.o, n), LaneOf(s.w, q));
  }

  // ---- steps of the owners ----

  /** A step of an owner that maps nothing. */
  lemma OwnerTells(cfg: Config, s: State, m: nat, o: Owner)
    requires Told(cfg, s) && m in s.o && OwnerTold(o, s.released) && o.link.got == s.o[m].link.got
    requires (!Uses(cfg, m) ==> Untouched(o)) && forall l :: HasMapped(s.o[m], l) ==> HasMapped(o, l)
    ensures Told(cfg, Put(s, m, o))
  {
    hide OwnerTold, Uses, Untouched, HasMapped, OwnersTold, AfterEvent, LandedTold, CacheTold, GotTold, Window,
         MemoryTold;
    OwnersToldPut(cfg, s.o, s.released, m, o);
    LandedSame(cfg, s.o, s.h.landed, m, o);
  }

  lemma TellsOwner(cfg: Config, s: State, m: nat)
    requires Told(cfg, s) && m in s.o
    ensures OwnerTold(s.o[m], s.released) && (!Uses(cfg, m) ==> Untouched(s.o[m]))
  {
    hide OwnerTold, Uses, Untouched, AfterEvent, LandedTold, CacheTold, GotTold, Window, MemoryTold;
  }

  lemma EventsTell(cfg: Config, s: State, events: set<nat>, replicas: set<nat>)
    requires Told(cfg, s) && s.events <= events
    ensures Told(cfg, s.(events := events, replicas := replicas))
  {
    hide OwnersTold, LandedTold, CacheTold, GotTold, Window, MemoryTold;
  }

  lemma OWritesTells(cfg: Config, s: State, m: nat, x: Obj, data: Bytes)
    requires Told(cfg, s) && m in s.o
    ensures Told(cfg, Put(s, m, s.o[m].(mem := s.o[m].mem[x := data])))
  {
    hide Told, Uses, OwnerTold, HasMapped;
    TellsOwner(cfg, s, m);
    ToldSame(s.o[m], s.o[m].(mem := s.o[m].mem[x := data]), s.released);
    OwnerTells(cfg, s, m, s.o[m].(mem := s.o[m].mem[x := data]));
  }

  lemma OSyncTells(cfg: Config, s: State, m: nat)
    requires Told(cfg, s) && Enabled(cfg, OSync(m), s)
    ensures Told(cfg, Apply(cfg, OSync(m), s))
  {
    hide Told, Uses, OwnerTold, HasMapped;
    var o := s.o[m];
    var o' := o.(orders := o.orders.(seen := o.orders.seen + 1),
        loop := Items(cfg, AtOwner, o.orders.log[o.orders.seen]));
    TellsOwner(cfg, s, m);
    ToldSame(o, o', s.released);
    OwnerTells(cfg, s, m, o');
  }

  lemma OEnqueueTells(cfg: Config, s: State, n: nat, q: nat, m: nat)
    requires InvAt(cfg, s, n, q) && Told(cfg, s) && Enabled(cfg, OEnqueue(m), s)
    ensures Told(cfg, Apply(cfg, OEnqueue(m), s))
  {
    hide Told, Uses, OwnerTold, HasMapped, InvAt, UpOk;
    var o := s.o[m];
    var o' := o.(lane := Enqueued(o.lane, o.loop[0]), loop := o.loop[1..]);
    TellsOwner(cfg, s, m);
    OwnerIsOk(cfg, s, n, q, m);
    OwnerLane(cfg, m, o, Part(s.h, m, n));
    ToldSame(o, o', s.released);
    OwnerTells(cfg, s, m, o');
  }

  lemma OwnerLane(cfg: Config, m: nat, o: Owner, part: seq<Label>)
    requires UpOk(cfg, m, o, part)
    ensures LaneOk(o.lane)
  {
    hide Conserved, Proper, SideOk, Expand, LaneOk, Holds;
  }

  lemma OMapTells(cfg: Config, s: State, n: nat, q: nat, m: nat)
    requires WellFormed(cfg) && InvAt(cfg, s, n, q) && Told(cfg, s) && Enabled(cfg, OMap(m), s)
    ensures Told(cfg, Apply(cfg, OMap(m), s))
  {
    hide Uses, OwnerTold, HasMapped, InvAt, UpOk, WellFormed, OwnersTold, LandedTold, CacheTold, GotTold, Window,
         MemoryTold;
    var o := s.o[m];
    var l, bytes := Head(o.lane), o.mem[ObjectOf(Head(o.lane))];
    var o' := o.(lane := o.lane.(stage := Mapped, buffer := bytes));
    TellsOwner(cfg, s, m);
    OwnerIsOk(cfg, s, n, q, m);
    NewRelease(cfg, m, o, Part(s.h, m, n));
    ToldMap(cfg, s.o, s.released, m, o', l, bytes);
    LandedSame(cfg, s.o, s.h.landed, m, o');
  }

  lemma OSendTells(cfg: Config, s: State, m: nat)
    requires Told(cfg, s) && Enabled(cfg, OSend(m), s)
    ensures Told(cfg, Apply(cfg, OSend(m), s))
  {
    hide Told, Uses, OwnerTold, HasMapped;
    var o := s.o[m];
    TellsOwner(cfg, s, m);
    ToldSend(o, s.released);
    OwnerTells(cfg, s, m, o.(lane := o.lane.(stage := Moved),
        link := Sent(o.link, Chunk(Head(o.lane), o.lane.buffer))));
  }

  lemma OUnmapTells(cfg: Config, s: State, m: nat)
    requires Told(cfg, s) && Enabled(cfg, OUnmap(m), s)
    ensures Told(cfg, Apply(cfg, OUnmap(m), s))
  {
    hide Told, Uses, OwnerTold, HasMapped;
    TellsOwner(cfg, s, m);
    ToldUnmap(s.o[m], s.released);
    OwnerTells(cfg, s, m, s.o[m].(lane := Unmapped(s.o[m].lane)));
  }

  lemma ReadSendTells(cfg: Config, s: State, m: nat, tag: Label, data: Bytes)
    requires Told(cfg, s) && Enabled(cfg, ReadSend(m, tag, data), s)
    ensures Told(cfg, Apply(cfg, ReadSend(m, tag, data), s))
  {
    hide Told, Uses, OwnerTold, HasMapped, MayRead;
    var o, c := s.o[m], Chunk(tag, data);
    var o' := o.(link := Sent(o.link, c), segs := o.segs + [Apart(tag)]);
    TellsOwner(cfg, s, m);
    ToldRead(o, o', s.released, c);
    OwnerTells(cfg, s, m, o');
  }

  lemma ReadPostAfterTells(cfg: Config, s: State, m: nat, tag: Label)
    requires Told(cfg, s) && Enabled(cfg, ReadPostAfter(m, tag), s)
    ensures Told(cfg, Apply(cfg, ReadPostAfter(m, tag), s))
  {
    hide Told, Uses, OwnerTold, HasMapped;
    var o' := s.o[m].(link := Posted(s.o[m].link, tag));
    TellsOwner(cfg, s, m);
    ToldSame(s.o[m], o', s.released);
    OwnerTells(cfg, s, m, o');
  }

  lemma ReadPostTells(cfg: Config, s: State, m: nat, tag: Label)
    requires Told(cfg, s) && Enabled(cfg, ReadPost(m, tag), s)
    ensures Told(cfg, Apply(cfg, ReadPost(m, tag), s))
  {
    hide Told, Uses, OwnerTold, HasMapped, MayRead;
    var o' := s.o[m].(link := Posted(s.o[m].link, tag), segs := s.o[m].segs + [Apart(tag)]);
    TellsOwner(cfg, s, m);
    ToldSame(s.o[m], o', s.released);
    OwnerTells(cfg, s, m, o');
  }

  lemma ReadSendAfterTells(cfg: Config, s: State, m: nat, tag: Label, data: Bytes)
    requires Told(cfg, s) && Enabled(cfg, ReadSendAfter(m, tag, data), s)
    ensures Told(cfg, Apply(cfg, ReadSendAfter(m, tag, data), s))
  {
    hide Told, Uses, OwnerTold, HasMapped;
    var o' := s.o[m].(link := Sent(s.o[m].link, Chunk(tag, data)));
    TellsOwner(cfg, s, m);
    ToldRead(s.o[m], o', s.released, Chunk(tag, data));
    OwnerTells(cfg, s, m, o');
  }

  // ---- steps of the host ----

  lemma HSyncTells(cfg: Config, s: State, n: nat, q: nat)
    requires WellFormed(cfg) && InvAt(cfg, s, n, q) && Told(cfg, s) && Enabled(cfg, HSync, s)
    ensures Told(cfg, Apply(cfg, HSync, s))
  {
    hide InvAt, Uses, OwnerTold, HasMapped, OwnersTold, AfterEvent, LandedTold, GotTold, Window, MemoryTold,
      WellFormed, Untouched;
    var r := s.w.asked.log[s.w.asked.seen];
    var m := GetRound(cfg, r).owner;
    var o' := s.o[m].(orders := s.o[m].orders.(log := s.o[m].orders.log + [r]), segs := s.o[m].segs + [Sync(r)]);
    TellsOwner(cfg, s, m);
    RequestUses(cfg, s, n, q);
    ToldSame(s.o[m], o', s.released);
    OwnersToldPut(cfg, s.o, s.released, m, o');
    LandedSame(cfg, s.o, s.h.landed, m, o');
  }

  lemma RequestUses(cfg: Config, s: State, n: nat, q: nat)
    requires WellFormed(cfg) && InvAt(cfg, s, n, q) && s.w.asked.seen < |s.w.asked.log|
    ensures GetRound(cfg, s.w.asked.log[s.w.asked.seen]).owner == n && Uses(cfg, n)
  {
    hide OwnersOk, TailsOk, LanesOk, TailAt, Present, SeenOk, Alone, DownOk;
    assert Unseen(s.w.asked)[0] == s.w.asked.log[s.w.asked.seen];
    assert Unseen(s.w.asked)[0] in Unseen(s.w.asked);
  }

  lemma HPostTells(cfg: Config, s: State)
    requires Told(cfg, s) && Enabled(cfg, HPost, s)
    ensures Told(cfg, Apply(cfg, HPost, s))
  {
    hide Uses, OwnerTold, HasMapped, OwnersTold, AfterEvent, LandedTold, GotTold, Window, MemoryTold,
      WellFormed, InCache;
    var m := GetRound(cfg, RoundOf(s.h.loop[0])).owner;
    var o' := s.o[m].(link := Posted(s.o[m].link, s.h.loop[0]));
    TellsOwner(cfg, s, m);
    ToldSame(s.o[m], o', s.released);
    OwnersToldPut(cfg, s.o, s.released, m, o');
    LandedSame(cfg, s.o, s.h.landed, m, o');
    var h' := s.h.(loop := s.h.loop[1..], posting := Some(s.h.loop[0]), postingLanded := false);
    CacheMore(s.h, h', |s.w.link.sent|, []);
  }

  /** Sends are added whose bytes are kept, or that are not of the host's copies. */
  lemma CacheMore(h: HostState, h': HostState, k: nat, more: seq<Send>)
    requires CacheTold(h, k) && h'.sends == h.sends + more && h'.cache == h.cache && h'.landed == h.landed
    requires forall x :: x in more && x.Cached? ==> InCache(h, x.tag)
    requires h'.trigger == h.trigger || h'.trigger == None
    requires (h'.posting == h.posting && h'.postingLanded == h.postingLanded) || h'.posting == None || !h'.postingLanded
    ensures CacheTold(h', k)
  {
    forall i | k <= i < |h'.sends| && h'.sends[i].Cached? ensures InCache(h', h'.sends[i].tag) {
      if i >= |h.sends| {
        assert h'.sends[i] == more[i - |h.sends|] && more[i - |h.sends|] in more;
      } else {
        assert h'.sends[i] == h.sends[i];
      }
    }
  }

  lemma HSetCallbackTells(cfg: Config, s: State)
    requires Told(cfg, s) && Enabled(cfg, HSetCallback, s)
    ensures Told(cfg, Apply(cfg, HSetCallback, s))
  {
    hide OwnersTold, AfterEvent, LandedTold, GotTold, Window, MemoryTold, InCache;
    var more := if s.h.postingLanded then [Cached(s.h.posting.value)] else [];
    CacheMore(s.h, s.h.(posting := None, sends := s.h.sends + more), |s.w.link.sent|, more);
  }

  lemma HTriggerTells(cfg: Config, s: State)
    requires Told(cfg, s) && Enabled(cfg, HTrigger, s)
    ensures Told(cfg, Apply(cfg, HTrigger, s))
  {
    hide OwnersTold, AfterEvent, LandedTold, GotTold, Window, MemoryTold, InCache;
    var more := [Cached(s.h.trigger.value)];
    CacheMore(s.h, s.h.(trigger := None, sends := s.h.sends + more), |s.w.link.sent|, more);
  }

  lemma OutgoingTells(cfg: Config, s: State, x: Send)
    requires Told(cfg, s) && !x.Cached?
    ensures Told(cfg, s.(h := s.h.(sends := s.h.sends + [x])))
  {
    hide OwnersTold, AfterEvent, LandedTold, GotTold, Window, MemoryTold, InCache;
    CacheMore(s.h, s.h.(sends := s.h.sends + [x]), |s.w.link.sent|, [x]);
  }

  lemma HTransmitTells(cfg: Config, s: State, n: nat, q: nat)
    requires InvAt(cfg, s, n, q) && Told(cfg, s) && Enabled(cfg, HTransmit, s)
    ensures Told(cfg, Apply(cfg, HTransmit, s))
  {
    hide OwnersTold, AfterEvent, LandedTold, Window, MemoryTold, InvAt;
    var k := |s.w.link.sent|;
    var c := Transmitted(s.h, s.h.sends[k]);
    WindowShrinks(cfg, s.w.segs, k);
    SendIsOk(cfg, s, n, q, k);
  }

  lemma SendIsOk(cfg: Config, s: State, n: nat, q: nat, k: nat)
    requires InvAt(cfg, s, n, q) && k < |s.h.sends|
    ensures SendOk(cfg, s.h.sends[k])
  {
    DownIs(cfg, s, n, q);
    hide OwnersOk, TailsOk, LanesOk, Flow, TailAt, Present, SeenOk, Alone, WaiterSide, HostSide, Conserved, AskedOk,
         Begun, Holds;
  }

  lemma HReceiveTells(cfg: Config, s: State, n: nat, q: nat, m: nat)
    requires WellFormed(cfg) && InvAt(cfg, s, n, q) && Told(cfg, s) && Enabled(cfg, HReceive(m), s)
    requires MapsApart(cfg, s.o, s.w)
    ensures Told(cfg, Apply(cfg, HReceive(m), s))
  {
    hide MapsApart, Unused, IsMap;
    hide OwnersTold, AfterEvent, LandedTold, CacheTold, GotTold, Window, MemoryTold, InvAt, WellFormed,
      OwnerTold, HasMapped, Uses, Landed, TailOf, CanReceive, UpOk, DownBasics, HostSide, WaiterSide, ItemsTail, Tail;
    var link := s.o[m].link;
    var c, o' := Next(cfg.size, link), s.o[m].(link := Received(cfg.size, link));
    TellsOwner(cfg, s, m);
    ToldSame(s.o[m], o', s.released);
    OwnersToldPut(cfg, s.o, s.released, m, o');
    TailIs(cfg, s, n, q, m);
    HeadTag(cfg, m, link, n);
    LandingIs(cfg.size, s.h, link);
    if c.tag.Item? {
      LandsNew(cfg, s, n, q, m);
      DownIs(cfg, s, n, q);
      CacheLands(cfg, s.w, s.h, TailAt(s.o, n), c);
      RecordedStays(s.w.link.sent, s.h.landed, c.tag, c.bytes);
    } else if IsMap(c.tag) {
      MapLands(cfg, s, m);
      OtherCopy(cfg, s, n, q, c.tag.place.obj, Landed(s.h, c).cache);
    }
    LandedPut(cfg, s.o, s.h.landed, m, o', c);
  }

  lemma LandingIs(size: Obj -> nat, h: HostState, link: Link)
    requires CanReceive(size, link)
    ensures var c := Next(size, link);
            && Received(size, link).got == link.got + [c] && c.tag == link.posted[|link.got|]
            && Landed(h, c).landed == (if c.tag.Item? then h.landed[c.tag := c.bytes] else h.landed)
            && (c.tag.Other? ==> Landed(h, c) == h.(cache := Landed(h, c).cache))
            && (c.tag.Other? && !IsMap(c.tag) ==> Landed(h, c).cache == h.cache)
            && (IsMap(c.tag) ==> forall y :: y in h.cache && y != c.tag.place.obj ==>
                  y in Landed(h, c).cache && Landed(h, c).cache[y] == h.cache[y])
  {
    hide Patched;
  }

  /** A map that lands is of an object that no unfinished round has. */
  lemma MapLands(cfg: Config, s: State, m: nat)
    requires MapsApart(cfg, s.o, s.w) && m in s.o && CanReceive(cfg.size, s.o[m].link)
    requires IsMap(Next(cfg.size, s.o[m].link).tag)
    ensures Unused(cfg, s.w, Next(cfg.size, s.o[m].link).tag.place.obj)
  {
    var link := s.o[m].link;
    var tag := Next(cfg.size, link).tag;
    assert Tail(link)[0] == tag;
    assert UnderWay(link, tag);
    hide Unfinished, Set, Received;
    forall l | Unfinished(s.w, l) ensures tag.place.obj !in Set(List(cfg, AtHost, RoundOf(l))) {
      assert MapsNone(cfg, link, RoundOf(l));
    }
  }

  lemma TailIs(cfg: Config, s: State, n: nat, q: nat, m: nat)
    requires InvAt(cfg, s, n, q) && m in s.o
    ensures TailOf(cfg, m, s.o[m].link, n)
  {
    hide OwnersOk, LanesOk, Flow, TailAt, Present, SeenOk, Alone, DownOk, TailOf;
  }

  /** An item that lands is of the owner at work, and lands only once. */
  lemma LandsNew(cfg: Config, s: State, n: nat, q: nat, m: nat)
    requires WellFormed(cfg) && InvAt(cfg, s, n, q) && Told(cfg, s) && m in s.o && m == n && Uses(cfg, m)
    requires CanReceive(cfg.size, s.o[m].link) && Next(cfg.size, s.o[m].link).tag.Item?
    ensures GetRound(cfg, Next(cfg.size, s.o[m].link).tag.round).owner == m
    ensures Next(cfg.size, s.o[m].link).tag !in s.h.landed
  {
    hide OwnersTold, AfterEvent, CacheTold, GotTold, Window, MemoryTold, InvAt, WellFormed, UpOk, Uses;
    var o, l := s.o[m], Next(cfg.size, s.o[m].link).tag;
    OwnerIsOk(cfg, s, n, q, m);
    PostedOwner(cfg, m, o, Part(s.h, m, n), l);
    if l in s.h.landed {
      assert HasLanded(cfg, s.o, Chunk(l, s.h.landed[l]));
      NotLandedYet(cfg, m, o, Part(s.h, m, n), l, s.h.landed[l]);
    }
  }

  lemma PostedOwner(cfg: Config, m: nat, o: Owner, part: seq<Label>, l: Label)
    requires WellFormed(cfg) && UpOk(cfg, m, o, part) && l in o.link.posted && l.Item?
    ensures GetRound(cfg, l.round).owner == m
  {
    CoversPrefix(cfg, AtHost, o.segs, o.link.posted + part);
    ItemInExpand(cfg, AtHost, o.segs, l);
    hide Expand, Covers, Lacks, Conserved, Proper, LaneOk, Holds;
    assert l in o.link.posted + part;
  }

  // ---- steps of the waiting node ----

  lemma WSyncTells(cfg: Config, s: State, n: nat, q: nat, r: nat)
    requires WellFormed(cfg) && cfg.apart && InvAt(cfg, s, n, q) && Told(cfg, s) && Enabled(cfg, WSync(r), s)
    ensures Told(cfg, Apply(cfg, WSync(r), s))
  {
    hide InvAt, OwnersTold, AfterEvent, LandedTold, CacheTold, GotTold, Window, MemoryTold, WellFormed, MayStart;
    WindowAsks(cfg, s, n, q, r);
  }

  /** Another transfer to the waiting node is begun. */
  lemma WriteTells(cfg: Config, s: State, n: nat, q: nat, tag: Label, link: Link)
    requires WellFormed(cfg) && InvAt(cfg, s, n, q) && Told(cfg, s) && tag.Other?
    requires link.got == s.w.link.got && link.sent == s.w.link.sent
    ensures Told(cfg, s.(w := s.w.(segs := s.w.segs + [Apart(tag)], link := link)))
  {
    hide InvAt, OwnersTold, AfterEvent, LandedTold, CacheTold, GotTold, MemoryTold, WellFormed;
    SentBound(cfg, s, n, q);
    WindowOther(cfg, s.w.segs, tag, |s.w.link.sent|);
    hide Window;
  }

  lemma WindowOther(cfg: Config, segs: seq<Seg>, tag: Label, k: nat)
    requires k <= |Expand(cfg, AtHost, segs)| && Window(cfg, segs, k) && tag.Other?
    ensures Window(cfg, segs + [Apart(tag)], k)
  {
    hide Window, Expand;
    WindowAppend(cfg, segs, Apart(tag), k);
  }

  lemma SentBound(cfg: Config, s: State, n: nat, q: nat)
    requires WellFormed(cfg) && InvAt(cfg, s, n, q)
    ensures |s.w.link.sent| <= |Expand(cfg, AtHost, s.w.segs)|
  {
    hide InvAt, WellFormed, DownBasics, HostSide, WaiterSide, HostPending, Expand, Covers, Lacks;
    DownIs(cfg, s, n, q);
    BasicsAre(cfg, s.w, s.h);
    SideBound(cfg, s.w, s.h, TailAt(s.o, n));
  }

  lemma SideBound(cfg: Config, w: Waiter, h: HostState, tail: seq<Label>)
    requires WellFormed(cfg) && Proper(cfg, w.segs) && SendsOk(cfg, w.link.sent, h.sends) && HostSide(cfg, w, h, tail)
    ensures |w.link.sent| <= |Expand(cfg, AtHost, w.segs)|
  {
    CoversPrefix(cfg, AtHost, w.segs, HostList(cfg, w, h, tail));
    hide Expand, HostPending, SendOk, Lacks, Proper, WellFormed;
  }

  lemma WritePostAfterTells(cfg: Config, s: State, tag: Label)
    requires Told(cfg, s)
    ensures Told(cfg, s.(w := s.w.(link := Posted(s.w.link, tag))))
  {
    hide OwnersTold, AfterEvent, LandedTold, CacheTold, GotTold, Window, MemoryTold;
  }

  /** A step of the waiting node that sends and installs nothing. */
  lemma WaiterTells(cfg: Config, s: State, w: Waiter)
    requires Told(cfg, s) && w.link.sent == s.w.link.sent && w.segs == s.w.segs && w.installed == s.w.installed
    requires w.kept <= s.w.kept && SameKept(s.w.mem, w.mem, w.kept)
    ensures Told(cfg, s.(w := w))
  {
    hide OwnersTold, AfterEvent, LandedTold, CacheTold, GotTold, Window, LastOf;
  }

  predicate SameKept(mem: map<Obj, Bytes>, mem': map<Obj, Bytes>, kept: set<Obj>) {
    forall x :: x in kept && x in mem ==> x in mem' && mem'[x] == mem[x]
  }

  /** What another command's bytes are written to is kept no more. */
  lemma ReceivedKeeps(cfg: Config, w: Waiter)
    requires CanReceive(cfg.size, w.link)
    ensures var w' := WaiterReceived(cfg, w);
            && w'.link.sent == w.link.sent && w'.segs == w.segs && w'.installed == w.installed
            && w'.kept <= w.kept && SameKept(w.mem, w'.mem, w'.kept)
  {
    hide Patched;
  }

  lemma WUnmapTells(cfg: Config, s: State, p: nat)
    requires Told(cfg, s) && Enabled(cfg, WUnmap(p), s)
    ensures Told(cfg, Apply(cfg, WUnmap(p), s))
  {
    hide OwnersTold, AfterEvent, LandedTold, CacheTold, GotTold, Window;
    InstalledLast(s.w.mem, s.w.installed, s.w.kept, Chunk(Head(LaneOf(s.w, p)), LaneOf(s.w, p).buffer));
    hide MemoryTold;
  }

  lemma InstalledLast(mem: map<Obj, Bytes>, installed: seq<Chunk>, kept: set<Obj>, c: Chunk)
    requires MemoryTold(mem, installed, kept)
    ensures MemoryTold(mem[ObjectOf(c.tag) := c.bytes], installed + [c], kept + {ObjectOf(c.tag)})
  {
    var all := installed + [c];
    forall k | 0 <= k < |all| && LastOf(all, k) && ObjectOf(all[k].tag) in kept + {ObjectOf(c.tag)}
      ensures ObjectOf(all[k].tag) in mem[ObjectOf(c.tag) := c.bytes]
      ensures mem[ObjectOf(c.tag) := c.bytes][ObjectOf(all[k].tag)] == all[k].bytes
    {
      if k < |installed| {
        assert all[|installed|] == c;
        assert forall j :: k < j < |installed| ==> all[j] == installed[j];
        assert LastOf(installed, k);
      }
    }
  }

  // ---- all steps ----

  lemma StepTold(cfg: Config, a: Action, s: State, n: nat, q: nat)
    requires WellFormed(cfg) && cfg.apart && InvAt(cfg, s, n, q) && Told(cfg, s) && Enabled(cfg, a, s)
    requires MapsApart(cfg, s.o, s.w)
    ensures Told(cfg, Apply(cfg, a, s))
  {
    if Plain(a) {
      hide InvAt, Told, WellFormed, MapsApart;
      PlainStepTold(cfg, a, s, n, q);
    } else if a.WEnqueue? || a.WMap? || a.WPost? || a.WReceive? {
      hide Told, Enabled, WellFormed, InvAt, Received, WaiterReceived, MapsApart;
      if a.WReceive? {
        ReceivedKeeps(cfg, s.w);
      }
      WaiterTells(cfg, s, Apply(cfg, a, s).w);
    } else {
      hide InvAt, Told, WellFormed, Enabled, Apply, MapsApart;
      match a
      case OSync(m) => OSyncTells(cfg, s, m);
      case OEnqueue(m) => OEnqueueTells(cfg, s, n, q, m);
      case OMap(m) => OMapTells(cfg, s, n, q, m);
      case OSend(m) => OSendTells(cfg, s, m);
      case OUnmap(m) => OUnmapTells(cfg, s, m);
      case ReadSend(m, tag, data) => ReadSendTells(cfg, s, m, tag, data);
      case ReadPostAfter(m, tag) => ReadPostAfterTells(cfg, s, m, tag);
      case ReadPost(m, tag) => ReadPostTells(cfg, s, m, tag);
      case ReadSendAfter(m, tag, data) => ReadSendAfterTells(cfg, s, m, tag, data);
      case HSync => HSyncTells(cfg, s, n, q);
      case HPost => HPostTells(cfg, s);
      case HSetCallback => HSetCallbackTells(cfg, s);
      case HReceive(m) => HReceiveTells(cfg, s, n, q, m);
      case HTrigger => HTriggerTells(cfg, s);
      case HTransmit => HTransmitTells(cfg, s, n, q);
      case WSync(r) => WSyncTells(cfg, s, n, q, r);
      case WUnmap(p) => WUnmapTells(cfg, s, p);
    }
  }

  /** Steps that have no part in rounds. */
  predicate Plain(a: Action) {
    a.EventCompletes? || a.ReplicaCompletes? || a.OwnerWrites? || a.WaiterWrites? || a.Allocates? || a.HostStores?
    || a.WritePost? || a.WriteSendAfter? || a.WriteSend? || a.WritePostAfter?
  }

  predicate IsWrite(a: Action) {
    a.WritePost? || a.WriteSendAfter? || a.WriteSend? || a.WritePostAfter?
  }

  lemma WriteStepTold(cfg: Config, a: Action, s: State, n: nat, q: nat)
    requires WellFormed(cfg) && cfg.apart && InvAt(cfg, s, n, q) && Told(cfg, s) && Enabled(cfg, a, s) && IsWrite(a)
    ensures Told(cfg, Apply(cfg, a, s))
  {
    hide InvAt, Told, WellFormed, MayWrite, Outgoing, Overlay, Patched;
    match a
    case WritePost(tag) => WriteTells(cfg, s, n, q, tag, Posted(s.w.link, tag));
    case WriteSendAfter(tag, data) =>
      NotCached(tag, data);
      OutgoingTells(cfg, s, Outgoing(tag, data));
    case WriteSend(tag, data) => WriteSendTells(cfg, s, n, q, tag, data);
    case WritePostAfter(tag) => WritePostAfterTells(cfg, s, tag);
  }

  lemma PlainStepTold(cfg: Config, a: Action, s: State, n: nat, q: nat)
    requires WellFormed(cfg) && cfg.apart && InvAt(cfg, s, n, q) && Told(cfg, s) && Enabled(cfg, a, s) && Plain(a)
    ensures Told(cfg, Apply(cfg, a, s))
  {
    hide InvAt, Told, WellFormed, MayWrite, Unused, MayStart, MayRead, FreshUp, FreshDown, Source, CanReceive, Ready,
      Landed, WaiterReceived, Transmitted, Received, Outgoing;
    match a
    case EventCompletes(r) => EventsTell(cfg, s, s.events + {r}, s.replicas);
    case ReplicaCompletes(r) => EventsTell(cfg, s, s.events, s.replicas + {r});
    case OwnerWrites(m, x, data) => OWritesTells(cfg, s, m, x, data);
    case WaiterWrites(x, data) => WaiterTells(cfg, s, Apply(cfg, a, s).w);
    case Allocates(x, data) => NewCopy(cfg, s, x, data);
    case HostStores(x, data) => StoresTells(cfg, s, n, q, x, data);
    case _ => WriteStepTold(cfg, a, s, n, q);
  }

  lemma NotCached(tag: Label, data: Bytes)
    ensures !Outgoing(tag, data).Cached?
  {
  }

  lemma WriteSendTells(cfg: Config, s: State, n: nat, q: nat, tag: Label, data: Bytes)
    requires WellFormed(cfg) && InvAt(cfg, s, n, q) && Told(cfg, s) && tag.Other?
    ensures Told(cfg, s.(h := s.h.(sends := s.h.sends + [Outgoing(tag, data)]),
            w := s.w.(segs := s.w.segs + [Apart(tag)])))
  {
    hide InvAt, Told, WellFormed;
    WriteTells(cfg, s, n, q, tag, s.w.link);
    OutgoingTells(cfg, s.(w := s.w.(segs := s.w.segs + [Apart(tag)], link := s.w.link)), Outgoing(tag, data));
  }

  // ---- installing ----

  lemma ItemsAppend(cs: seq<Chunk>, c: Chunk)
    ensures ItemsOf(cs + [c]) == ItemsOf(cs) + if c.tag.Item? then [c] else []
  {
    assert (cs + [c])[..|cs|] == cs;
  }

  predicate OfWaiter(a: Action) {
    a.WEnqueue? || a.WMap? || a.WPost? || a.WReceive? || a.WUnmap?
  }

  lemma NothingArrives(cfg: Config, a: Action, s: State)
    requires Enabled(cfg, a, s) && !OfWaiter(a)
    ensures var w := Apply(cfg, a, s).w;
            && w.lanes == s.w.lanes && w.installed == s.w.installed && w.link.got == s.w.link.got
            && (!a.WSync? ==> w.loop == s.w.loop)
  {
    hide Enabled, Received, Landed, Transmitted, Outgoing, WaiterReceived, Items, GetRound, LaneOf, PutLane, Enqueued,
      Unmapped, Head, Patched;
  }

  /** When no chain is unfinished, nothing that arrived is waiting. */
  lemma NoneWaits(cfg: Config, w: Waiter, q: nat, q': nat)
    requires LanesOk(cfg, w.lanes, q) && LanesOk(cfg, w.lanes, q') && Pending(w, q) == [] && Pending(w, q') == []
    ensures Arrived(LaneOf(w, q)) == [] && Arrived(LaneOf(w, q')) == []
  {
    hide LanesOk, Undone, LaneOk;
    WaiterLane(cfg, w, q);
    WaiterLane(cfg, w, q');
    assert Undone(LaneOf(w, q)) == [] && Undone(LaneOf(w, q')) == [];
    IdleRest(LaneOf(w, q));
    IdleRest(LaneOf(w, q'));
  }

  lemma WSyncInstalled(cfg: Config, s: State, n: nat, q: nat, r: nat)
    requires WellFormed(cfg) && cfg.apart && InvAt(cfg, s, n, q) && InstalledTold(s.w, q) && Enabled(cfg, WSync(r), s)
    ensures InstalledTold(Apply(cfg, WSync(r), s).w, GetRound(cfg, r).queue)
  {
    hide InvAt, OthersDone, DownOthersDone, WellFormed, Pending, Unfinished, Arrived;
    var n', q' := GetRound(cfg, r).owner, GetRound(cfg, r).queue;
    if Pending(s.w, q) == [] {
      Relead(cfg, s, n, q, n', q');
      BothLanes(cfg, s, n, q, n', q');
      NoneWaits(cfg, s.w, q, q');
    } else {
      var l := Pending(s.w, q)[0];
      IsUnfinished(s.w, q, l);
      WorkOf(cfg, s, n, q);
      assert Compatible(cfg, RoundOf(l), r);
    }
  }

  lemma BothLanes(cfg: Config, s: State, n: nat, q: nat, n': nat, q': nat)
    requires InvAt(cfg, s, n, q) && InvAt(cfg, s, n', q')
    ensures LanesOk(cfg, s.w.lanes, q) && LanesOk(cfg, s.w.lanes, q')
  {
    hide OwnersOk, TailsOk, LanesOk, TailAt, Present, SeenOk, DownOk, Alone, Flow;
  }

  lemma WaiterInstalled(cfg: Config, a: Action, s: State, n: nat, q: nat)
    requires InvAt(cfg, s, n, q) && InstalledTold(s.w, q) && Enabled(cfg, a, s) && OfWaiter(a) && !a.WReceive?
    ensures InstalledTold(Apply(cfg, a, s).w, q)
  {
    hide InvAt, DownBasics, HostSide, WaiterSide, LanesOk, Alone, QueueOk, TailAt, ItemsOf;
    DownIs(cfg, s, n, q);
    WaiterLane(cfg, s.w, q);
    match a
    case WEnqueue =>
      assert s.w.loop[0] in Pending(s.w, q);
      assert Fits(cfg, s.w.loop[0], n, q);
    case WMap(p) => OnlyQueue(cfg, s.w, q, p);
    case WPost(p) => OnlyQueue(cfg, s.w, q, p);
    case WUnmap(p) => OnlyQueue(cfg, s.w, q, p);
  }

  lemma WReceiveInstalled(cfg: Config, s: State, n: nat, q: nat)
    requires WellFormed(cfg) && InvAt(cfg, s, n, q) && InstalledTold(s.w, q) && Enabled(cfg, WReceive, s)
    ensures InstalledTold(Apply(cfg, WReceive, s).w, q)
  {
    hide InvAt, DownBasics, HostSide, WaiterSide, LanesOk, Alone, AllFit, QueueOk, TailAt, ItemsOf, CanReceive;
    var link, lane := s.w.link, LaneOf(s.w, q);
    var c := Next(cfg.size, link);
    DownIs(cfg, s, n, q);
    WaiterLane(cfg, s.w, q);
    NextTag(cfg.size, link);
    ItemsAppend(link.got, c);
    if c.tag.Item? {
      WaiterReceives(cfg, s.w.segs, link, lane, s.w.loop);
      HeadQueue(cfg, lane, q);
    }
  }

  lemma StepInstalled(cfg: Config, a: Action, s: State, n: nat, q: nat, q': nat)
    requires WellFormed(cfg) && cfg.apart && InvAt(cfg, s, n, q) && InstalledTold(s.w, q) && Enabled(cfg, a, s)
    requires q' == if a.WSync? then GetRound(cfg, a.r).queue else q
    ensures InstalledTold(Apply(cfg, a, s).w, q')
  {
    hide InvAt, WellFormed, Enabled, Apply;
    if a.WSync? {
      WSyncInstalled(cfg, s, n, q, a.r);
    } else if a.WReceive? {
      WReceiveInstalled(cfg, s, n, q);
    } else if OfWaiter(a) {
      WaiterInstalled(cfg, a, s, n, q);
    } else {
      NothingArrives(cfg, a, s);
    }
  }

  lemma InitTold(cfg: Config, mems: map<nat, map<Obj, Bytes>>, wm: map<Obj, Bytes>)
    ensures Told(cfg, Init(mems, wm))
  {
    hide Uses;
    EmptyLists(cfg, AtHost);
  }

  // ---- maps ----

  /** No further map is under way. */
  ghost predicate NoNewMap(link: Link, link': Link) {
    forall tag :: UnderWay(link', tag) && IsMap(tag) ==> UnderWay(link, tag)
  }

  lemma SentMaps(link: Link, c: Chunk)
    requires !IsMap(c.tag) || c.tag in link.posted
    ensures NoNewMap(link, Sent(link, c))
  {
    assert Labels(link.sent + [c]) == Labels(link.sent) + [c.tag];
  }

  lemma PostedMaps(link: Link, l: Label)
    requires !IsMap(l) || (l in Labels(link.sent) && l !in link.posted)
    ensures NoNewMap(link, Posted(link, l))
  {
    var link' := Posted(link, l);
    forall tag | UnderWay(link', tag) && IsMap(tag) ensures UnderWay(link, tag) {
      if tag in Tail(link') && tag != l {
        var i :| 0 <= i < |Tail(link')| && Tail(link')[i] == tag;
        assert Tail(link)[i] == tag;
      }
    }
  }

  lemma ReceivedMaps(size: Obj -> nat, link: Link)
    requires CanReceive(size, link)
    ensures NoNewMap(link, Received(size, link))
  {
    assert Tail(Received(size, link)) == Tail(link)[1..];
  }

  lemma MapsNoneStays(cfg: Config, link: Link, link': Link, r: nat)
    requires NoNewMap(link, link') && MapsNone(cfg, link, r)
    ensures MapsNone(cfg, link', r)
  {
    hide UnderWay, Set;
  }

  /** Steps that concern no owner. */
  predicate FarFromOwners(a: Action) {
    OfWaiter(a) || a.WSync? || (Plain(a) && !a.OwnerWrites?) || a.HSetCallback? || a.HTrigger? || a.HTransmit?
  }

  lemma SameOwners(cfg: Config, a: Action, s: State)
    requires Enabled(cfg, a, s) && FarFromOwners(a)
    ensures Apply(cfg, a, s).o == s.o && Apply(cfg, a, s).released == s.released
  {
    hide Enabled, Apply;
    if OfWaiter(a) || a.WSync? {
      WaiterOnly(cfg, a, s);
    } else {
      HostOnly(cfg, a, s);
    }
  }

  lemma WaiterOnly(cfg: Config, a: Action, s: State)
    requires Enabled(cfg, a, s) && (OfWaiter(a) || a.WSync?)
    ensures Apply(cfg, a, s) == s.(w := Apply(cfg, a, s).w)
  {
    hide Enabled, Transmitted, WaiterReceived, Received, Outgoing, Items, GetRound, LaneOf, PutLane, Enqueued, Unmapped,
      Posted, Sent, Landed, Head, Patched;
  }

  lemma HostOnly(cfg: Config, a: Action, s: State)
    requires Enabled(cfg, a, s) && FarFromOwners(a) && !OfWaiter(a)
    ensures Apply(cfg, a, s).o == s.o && Apply(cfg, a, s).released == s.released
  {
    hide Enabled, Transmitted, WaiterReceived, Received, Outgoing, Items, GetRound, LaneOf, PutLane, Enqueued, Unmapped,
      Posted, Sent, Landed, Head, Patched;
  }

  /** The streams of the owners after a step that begins no read. */
  lemma BeginsOne(link: Link, link': Link, tag: Label, t: Label)
    requires UnderWay(link', t) && t != tag
    requires link' == Posted(link, tag) || exists data :: link' == Sent(link, Chunk(tag, data))
    ensures UnderWay(link, t)
  {
    if link' == Posted(link, tag) {
      if t in Tail(link') {
        var i :| 0 <= i < |Tail(link')| && Tail(link')[i] == t;
        assert Tail(link)[i] == t;
      }
    } else {
      var data :| link' == Sent(link, Chunk(tag, data));
      assert Labels(link.sent + [Chunk(tag, data)]) == Labels(link.sent) + [tag];
    }
  }

  lemma OldMaps(cfg: Config, a: Action, s: State, n: nat)
    requires Enabled(cfg, a, s) && !a.ReadSend? && !a.ReadPost? && n in Apply(cfg, a, s).o
    requires a.OSend? ==> Head(s.o[a.n].lane).Item?
    requires a.HPost? ==> s.h.loop[0].Item?
    ensures n in s.o && NoNewMap(s.o[n].link, Apply(cfg, a, s).o[n].link)
  {
    hide NoNewMap;
    SameMaps(s, n);
    if FarFromOwners(a) {
      hide Enabled, Apply;
      SameOwners(cfg, a, s);
    } else {
      hide MayRead, Landed, Received, Items;
      match a
      case OSend(m) => SentMaps(s.o[m].link, Chunk(Head(s.o[m].lane), s.o[m].lane.buffer));
      case ReadSendAfter(m, tag, data) => SentMaps(s.o[m].link, Chunk(tag, data));
      case ReadPostAfter(m, tag) => PostedMaps(s.o[m].link, tag);
      case HPost => PostedMaps(s.o[GetRound(cfg, RoundOf(s.h.loop[0])).owner].link, s.h.loop[0]);
      case HReceive(m) => ReceivedMaps(cfg.size, s.o[m].link);
      case _ =>
    }
  }

  lemma SameMaps(s: State, n: nat)
    ensures n in s.o ==> NoNewMap(s.o[n].link, s.o[n].link)
  {
  }

  lemma LaneFalls(w: Waiter, w': Waiter, q: nat, l: Label)
    requires w'.loop == w.loop && w'.lanes == w.lanes[q := LaneOf(w', q)] && Unfinished(w', l)
    requires forall u :: u in Undone(LaneOf(w', q)) ==> u in Undone(LaneOf(w, q))
    ensures Unfinished(w, l)
  {
    hide Undone;
    if l !in w.loop {
      var p :| p in w'.lanes && l in Undone(w'.lanes[p]);
      if p == q {
        assert l in Undone(LaneOf(w, q));
        assert NEW_LANE.log == [] && Undone(NEW_LANE) == [] by { NewLaneDone(); }
        assert q in w.lanes;
      }
    }
  }

  lemma NewLaneDone()
    ensures Undone(NEW_LANE) == []
  {
  }

  lemma EnqueueFalls(w: Waiter, w': Waiter, q: nat, l: Label)
    requires w.loop != [] && w'.loop == w.loop[1..] && Unfinished(w', l)
    requires w'.lanes == w.lanes[q := Enqueued(LaneOf(w, q), w.loop[0])]
    ensures Unfinished(w, l)
  {
    if l !in w.loop {
      var p :| p in w'.lanes && l in Undone(w'.lanes[p]);
      if p == q {
        EnqueuedUndone(LaneOf(w, q), w.loop[0], l);
        assert q in w.lanes;
      }
    }
  }

  lemma EnqueuedUndone(lane: Lane, l: Label, x: Label)
    requires x in Undone(Enqueued(lane, l))
    ensures x == l || x in Undone(lane)
  {
    var all := lane.log + [l];
    var i :| 0 <= i < |all[lane.pos..]| && all[lane.pos..][i] == x;
    if lane.pos + i < |lane.log| {
      assert lane.log[lane.pos..][i] == x;
    }
  }

  lemma UnmappedUndone(lane: Lane, x: Label)
    requires x in Undone(Unmapped(lane))
    ensures x in Undone(lane)
  {
    var i :| 0 <= i < |lane.log[lane.pos + 1..]| && lane.log[lane.pos + 1..][i] == x;
    assert lane.log[lane.pos..][i + 1] == x;
  }

  lemma UnfinishedFalls(cfg: Config, a: Action, s: State, l: Label)
    requires Enabled(cfg, a, s) && !a.WSync? && Unfinished(Apply(cfg, a, s).w, l)
    ensures Unfinished(s.w, l)
  {
    hide Unfinished;
    if OfWaiter(a) {
      WaiterFalls(cfg, a, s, l);
    } else {
      hide Enabled, Apply;
      NothingArrives(cfg, a, s);
      SameUnfinished(s.w, Apply(cfg, a, s).w, l);
    }
  }

  lemma SameUnfinished(w: Waiter, w': Waiter, l: Label)
    requires w'.lanes == w.lanes && w'.loop == w.loop
    ensures Unfinished(w', l) <==> Unfinished(w, l)
  {
  }

  lemma WaiterFalls(cfg: Config, a: Action, s: State, l: Label)
    requires Enabled(cfg, a, s) && OfWaiter(a) && Unfinished(Apply(cfg, a, s).w, l)
    ensures Unfinished(s.w, l)
  {
    hide Unfinished, Received, CanReceive, Transmitted, Landed, Outgoing, Items, Patched;
    var w := Apply(cfg, a, s).w;
    match a
    case WEnqueue => EnqueueFalls(s.w, w, GetRound(cfg, RoundOf(s.w.loop[0])).queue, l);
    case WMap(q) => LaneFalls(s.w, w, q, l);
    case WPost(q) => LaneFalls(s.w, w, q, l);
    case WReceive =>
      var c := Next(cfg.size, s.w.link);
      if c.tag.Item? {
        LaneFalls(s.w, w, GetRound(cfg, c.tag.round).queue, l);
      } else {
        SameUnfinished(s.w, w, l);
      }
    case WUnmap(q) =>
      forall u | u in Undone(LaneOf(w, q)) ensures u in Undone(LaneOf(s.w, q)) {
        UnmappedUndone(LaneOf(s.w, q), u);
      }
      LaneFalls(s.w, w, q, l);
  }

  /** A step that begins nothing keeps maps and rounds apart. */
  lemma StepMaps(cfg: Config, a: Action, s: State)
    requires Enabled(cfg, a, s) && MapsApart(cfg, s.o, s.w) && !a.ReadSend? && !a.ReadPost? && !a.WSync?
    requires a.OSend? ==> Head(s.o[a.n].lane).Item?
    requires a.HPost? ==> s.h.loop[0].Item?
    ensures MapsApart(cfg, Apply(cfg, a, s).o, Apply(cfg, a, s).w)
  {
    hide Enabled, Apply, MapsNone, Unfinished, NoNewMap;
    var t := Apply(cfg, a, s);
    forall n, l | n in t.o && Unfinished(t.w, l) ensures MapsNone(cfg, t.o[n].link, RoundOf(l)) {
      OldMaps(cfg, a, s, n);
      UnfinishedFalls(cfg, a, s, l);
      MapsNoneStays(cfg, s.o[n].link, t.o[n].link, RoundOf(l));
    }
  }

  /** A map begins only if no unfinished round has its object. */
  lemma ReadMaps(cfg: Config, s: State, m: nat, tag: Label, o: Owner)
    requires MapsApart(cfg, s.o, s.w) && m in s.o && MayRead(cfg, s, m, tag)
    requires forall t :: UnderWay(o.link, t) ==> t == tag || UnderWay(s.o[m].link, t)
    ensures MapsApart(cfg, s.o[m := o], s.w)
  {
    hide UnderWay, Unfinished, OwnerFree;
    var owners := s.o[m := o];
    forall n, l | n in owners && Unfinished(s.w, l)
      ensures MapsNone(cfg, owners[n].link, RoundOf(l))
    {
      if n != m {
        assert MapsNone(cfg, s.o[n].link, RoundOf(l));
      } else {
        assert MapsNone(cfg, s.o[m].link, RoundOf(l));
      }
    }
  }

  lemma ReadSendMaps(cfg: Config, s: State, m: nat, tag: Label, data: Bytes)
    requires cfg.apart && MapsApart(cfg, s.o, s.w) && Enabled(cfg, ReadSend(m, tag, data), s)
    ensures MapsApart(cfg, Apply(cfg, ReadSend(m, tag, data), s).o, s.w)
  {
    hide MapsApart, MayRead;
    var link := s.o[m].link;
    assert Labels(link.sent + [Chunk(tag, data)]) == Labels(link.sent) + [tag];
    ReadMaps(cfg, s, m, tag, Apply(cfg, ReadSend(m, tag, data), s).o[m]);
  }

  lemma ReadPostMaps(cfg: Config, s: State, m: nat, tag: Label)
    requires cfg.apart && MapsApart(cfg, s.o, s.w) && Enabled(cfg, ReadPost(m, tag), s)
    ensures MapsApart(cfg, Apply(cfg, ReadPost(m, tag), s).o, s.w)
  {
    hide MapsApart, MayRead;
    var link := s.o[m].link;
    forall t | UnderWay(Posted(link, tag), t) ensures t == tag || UnderWay(link, t) {
      if t in Tail(Posted(link, tag)) && t != tag {
        var i :| 0 <= i < |Tail(Posted(link, tag))| && Tail(Posted(link, tag))[i] == t;
        assert Tail(link)[i] == t;
      }
    }
    ReadMaps(cfg, s, m, tag, Apply(cfg, ReadPost(m, tag), s).o[m]);
  }

  /** A round begins only if no map of its objects is under way. */
  lemma WSyncMaps(cfg: Config, s: State, r: nat)
    requires cfg.apart && MapsApart(cfg, s.o, s.w) && Enabled(cfg, WSync(r), s)
    ensures MapsApart(cfg, s.o, Apply(cfg, WSync(r), s).w)
  {
    hide MapsNone, Undone, Compatible, OthersDone, DownOthersDone;
    var w := Apply(cfg, WSync(r), s).w;
    forall n, l | n in s.o && Unfinished(w, l) ensures MapsNone(cfg, s.o[n].link, RoundOf(l)) {
      if l !in w.loop {
        assert Unfinished(s.w, l);
      }
    }
  }

  lemma SendsItems(cfg: Config, s: State, n: nat, q: nat, m: nat)
    requires InvAt(cfg, s, n, q) && Told(cfg, s) && m in s.o && AtStage(s.o[m].lane, Mapped)
    ensures Head(s.o[m].lane).Item?
  {
    hide InvAt, OwnersTold, AfterEvent, LandedTold, CacheTold, GotTold, Window, MemoryTold, UpOk, Uses;
    if Uses(cfg, m) {
      OwnerIsOk(cfg, s, n, q, m);
      OwnerLane(cfg, m, s.o[m], Part(s.h, m, n));
      assert Head(s.o[m].lane) in s.o[m].lane.log;
    } else {
      hide Told;
      UntouchedLane(cfg, s, m);
    }
  }

  lemma UntouchedLane(cfg: Config, s: State, m: nat)
    requires Told(cfg, s) && m in s.o && !Uses(cfg, m)
    ensures s.o[m].lane.log == []
  {
    hide OwnerTold, AfterEvent, LandedTold, CacheTold, GotTold, Window, MemoryTold, Uses;
  }

  lemma PostsItems(cfg: Config, s: State, n: nat, q: nat)
    requires InvAt(cfg, s, n, q) && s.h.loop != []
    ensures s.h.loop[0].Item?
  {
    hide OwnersOk, TailsOk, LanesOk, TailAt, Present, SeenOk, Alone, DownOk;
    assert Fits(cfg, s.h.loop[0], n, q);
  }

  lemma StepMapsApart(cfg: Config, a: Action, s: State, n: nat, q: nat)
    requires cfg.apart && InvAt(cfg, s, n, q) && Told(cfg, s) && MapsApart(cfg, s.o, s.w) && Enabled(cfg, a, s)
    ensures MapsApart(cfg, Apply(cfg, a, s).o, Apply(cfg, a, s).w)
  {
    hide InvAt, Told, MapsApart;
    if a.ReadSend? {
      ReadSendMaps(cfg, s, a.n, a.tag, a.data);
    } else if a.ReadPost? {
      ReadPostMaps(cfg, s, a.n, a.tag);
    } else if a.WSync? {
      WSyncMaps(cfg, s, a.r);
    } else {
      hide Apply;
      if a.OSend? {
        SendsItems(cfg, s, n, q, a.n);
      } else if a.HPost? {
        PostsItems(cfg, s, n, q);
      }
      StepMaps(cfg, a, s);
    }
  }

  // ---- runs ----

  /** What every run keeps that starts rounds and other transfers apart: the lists of all processes, and the
      contents that are under way between them. */
  ghost predicate Inv(cfg: Config, s: State, n: nat, q: nat) {
    InvAt(cfg, s, n, q) && Told(cfg, s) && InstalledTold(s.w, q) && MapsApart(cfg, s.o, s.w)
  }

  lemma InvStep(cfg: Config, a: Action, s: State, n: nat, q: nat) returns (n': nat, q': nat)
    requires WellFormed(cfg) && cfg.apart && Inv(cfg, s, n, q) && Enabled(cfg, a, s)
    ensures Inv(cfg, Apply(cfg, a, s), n', q')
  {
    hide InvAt, Told, WellFormed, Enabled, Apply, InstalledTold, MapsApart;
    StepMapsApart(cfg, a, s, n, q);
    StepTold(cfg, a, s, n, q);
    n', q' := StepInv(cfg, a, s, n, q);
    StepInstalled(cfg, a, s, n, q, q');
  }

  lemma {:induction false} RunInv(cfg: Config, mems: map<nat, map<Obj, Bytes>>, wm: map<Obj, Bytes>, run: seq<Action>)
    returns (n: nat, q: nat)
    requires WellFormed(cfg) && cfg.apart && Memory(cfg, mems) && Exec(cfg, Init(mems, wm), run).Some?
    ensures Inv(cfg, Exec(cfg, Init(mems, wm), run).value, n, q)
    decreases |run|
  {
    hide Inv, WellFormed, Memory, Enabled, Apply, Init;
    if run == [] {
      n, q := 0, 0;
      InitAll(cfg, mems, wm, n, q);
    } else {
      var front, a := run[..|run| - 1], run[|run| - 1];
      n, q := RunInv(cfg, mems, wm, front);
      n, q := InvStep(cfg, a, Exec(cfg, Init(mems, wm), front).value, n, q);
    }
  }

  lemma InitAll(cfg: Config, mems: map<nat, map<Obj, Bytes>>, wm: map<Obj, Bytes>, n: nat, q: nat)
    requires Memory(cfg, mems)
    ensures Inv(cfg, Init(mems, wm), n, q)
  {
    hide InvAt, Told, Memory;
    InitInv(cfg, mems, wm, n, q);
    InitTold(cfg, mems, wm);
  }

  lemma Reachable(cfg: Config, run: seq<Action>, s: State) returns (n: nat, q: nat)
    requires WellFormed(cfg) && cfg.apart && Reaches(cfg, run, s)
    ensures Inv(cfg, s, n, q)
  {
    hide Inv, WellFormed, Memory, Exec, Init;
    var mems, wm :| Memory(cfg, mems) && Exec(cfg, Init(mems, wm), run) == Some(s);
    n, q := RunInv(cfg, mems, wm, run);
  }
}
