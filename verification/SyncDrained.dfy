/**
 What is still under way: the host has nothing to do for a round whose acquire chains are complete, although
 the lists of a round may be in different orders. The argument counts bytes.
 */
module SyncDrained {
  import opened Seqs
  import opened Links
  import opened SyncProtocol
  import opened SyncLists
  import opened SyncInvariant

  // ---- positions ----

  lemma {:induction false} Shorter(size: Obj -> nat, a: seq<Label>, b: seq<Label>)
    requires a <= b && Positive(size, b)
    ensures Total(size, a) <= Total(size, b) && (|a| < |b| ==> Total(size, a) < Total(size, b))
  {
    var rest := b[|a|..];
    assert a + rest == b;
    TotalConcat(size, a, rest);
    TotalPositive(size, rest);
  }

  /** The segment of an item, and where its part of the list is. */
  lemma {:induction false} SegmentOf(cfg: Config, side: Side, segs: seq<Seg>, k: nat) returns (j: nat)
    requires Proper(cfg, segs) && k < |Expand(cfg, side, segs)| && Expand(cfg, side, segs)[k].Item?
    ensures j < |segs| && segs[j] == Sync(Expand(cfg, side, segs)[k].round)
    ensures |Expand(cfg, side, segs[..j])| <= k < |Expand(cfg, side, segs[..j + 1])|
  {
    var m := |segs| - 1;
    ExpandIs(cfg, side, segs);
    ProperPrefix(cfg, segs, m);
    LastIsProper(cfg, segs);
    hide Proper, Expand, OneSeg;
    var front := Expand(cfg, side, segs[..m]);
    assert segs[..|segs|] == segs;
    if k < |front| {
      j := SegmentOf(cfg, side, segs[..m], k);
      TakenTwice(segs, m, j);
    } else {
      j := m;
      assert OneSeg(cfg, side, segs[m])[k - |front|] == Expand(cfg, side, segs)[k];
      OwnSegment(cfg, side, segs[m], k - |front|);
    }
  }

  lemma TakenTwice(segs: seq<Seg>, m: nat, j: nat)
    requires j < m <= |segs|
    ensures segs[..m][..j] == segs[..j] && segs[..m][..j + 1] == segs[..j + 1]
  {
  }

  lemma ExpandIs(cfg: Config, side: Side, segs: seq<Seg>)
    requires Expand(cfg, side, segs) != []
    ensures segs != []
    ensures Expand(cfg, side, segs) == Expand(cfg, side, segs[..|segs| - 1]) + OneSeg(cfg, side, segs[|segs| - 1])
  {
  }

  lemma LastIsProper(cfg: Config, segs: seq<Seg>)
    requires Proper(cfg, segs) && segs != []
    ensures segs[|segs| - 1].Apart? ==> segs[|segs| - 1].tag.Other?
  {
  }

  lemma OwnSegment(cfg: Config, side: Side, g: Seg, i: nat)
    requires i < |OneSeg(cfg, side, g)| && OneSeg(cfg, side, g)[i].Item? && (g.Apart? ==> g.tag.Other?)
    ensures g == Sync(OneSeg(cfg, side, g)[i].round)
  {
  }

  lemma ProperPrefix(cfg: Config, segs: seq<Seg>, j: nat)
    requires Proper(cfg, segs) && j <= |segs|
    ensures Proper(cfg, segs[..j])
  {
  }

  /** The list of a segment sequence starts with the lists of its beginnings. */
  lemma ExpandPrefix(cfg: Config, side: Side, segs: seq<Seg>, j: nat)
    requires j <= |segs|
    ensures Expand(cfg, side, segs[..j]) <= Expand(cfg, side, segs)
  {
    ExpandConcat(cfg, side, segs[..j], segs[j..]);
    assert segs[..j] + segs[j..] == segs;
  }

  lemma CoversUpTo(cfg: Config, side: Side, segs: seq<Seg>, full: seq<Label>, j: nat)
    requires Covers(cfg, side, segs, full) && j < |segs| && segs[j].Sync?
    ensures Expand(cfg, side, segs[..j + 1]) <= full
  {
    hide Expand;
    ExpandPrefix(cfg, side, segs, j + 1);
    if Lacks(cfg, side, segs, full) {
      var front := segs[..|segs| - 1];
      assert front[..j + 1] == segs[..j + 1];
      ExpandPrefix(cfg, side, front, j + 1);
      PrefixOfPrefix(Expand(cfg, side, segs[..j + 1]), Expand(cfg, side, front), full);
    } else {
      PrefixOfPrefix(Expand(cfg, side, segs[..j + 1]), Expand(cfg, side, segs), full);
    }
  }

  lemma PrefixOfPrefix(a: seq<Label>, b: seq<Label>, c: seq<Label>)
    requires a <= b <= c
    ensures a <= c
  {
  }

  // ---- counting bytes ----

  lemma GotTotal(size: Obj -> nat, l: Link)
    requires Conserved(size, l)
    ensures Total(size, Labels(l.got)) <= Total(size, Labels(l.sent))
    ensures Total(size, Labels(l.got)) + |l.wire| == Total(size, Labels(l.sent))
  {
    DataLength(size, l.got);
    DataLength(size, l.sent);
    hide Data, Total;
    assert |Data(l.got) + l.wire| == |Data(l.got)| + |l.wire|;
  }

  /** What has not been sent cannot have been received: neither the item nor the end of its round. */
  lemma Behind(cfg: Config, segs: seq<Seg>, link: Link, full: seq<Label>, waits: seq<Label>, k: nat) returns (j: nat)
    requires WellFormed(cfg) && Proper(cfg, segs) && Conserved(cfg.size, link)
    requires Covers(cfg, AtHost, segs, full) && Labels(link.sent) <= full && |link.sent| <= k < |full| && full[k].Item?
    requires Covers(cfg, AtWaiter, segs, waits) && link.posted <= waits
    ensures j < |segs| && segs[j] == Sync(full[k].round) && |link.got| < |Expand(cfg, AtWaiter, segs[..j + 1])|
    ensures Expand(cfg, AtWaiter, segs[..j + 1]) <= waits
  {
    CoversPrefix(cfg, AtHost, segs, full);
    j := SegmentOf(cfg, AtHost, segs, k);
    CoversUpTo(cfg, AtWaiter, segs, waits, j);
    ProperPrefix(cfg, segs, j + 1);
    BehindTotals(cfg, segs[..j + 1], segs, link, full, waits, k, j);
  }

  lemma BehindTotals(cfg: Config, a: seq<Seg>, segs: seq<Seg>, link: Link, full: seq<Label>, waits: seq<Label>,
          k: nat, j: nat)
    requires WellFormed(cfg) && Proper(cfg, a) && Conserved(cfg.size, link) && j < |segs| && a == segs[..j + 1]
    requires full <= Expand(cfg, AtHost, segs) && Labels(link.sent) <= full && |link.sent| <= k
    requires k < |Expand(cfg, AtHost, a)|
    requires Expand(cfg, AtWaiter, a) <= waits && link.posted <= waits
    ensures |link.got| < |Expand(cfg, AtWaiter, a)|
  {
    ExpandPrefix(cfg, AtHost, segs, j + 1);
    var host, wait := Expand(cfg, AtHost, a), Expand(cfg, AtWaiter, a);
    TwoPrefixes(Labels(link.sent), host, Expand(cfg, AtHost, segs));
    ExpandPositive(cfg, AtHost, a);
    ExpandPositive(cfg, AtWaiter, a);
    Shorter(cfg.size, Labels(link.sent), host);
    TotalExpand(cfg, AtHost, AtWaiter, a);
    GotTotal(cfg.size, link);
    GotIsPrefix(cfg.size, link, waits);
    hide Expand, Total, Conserved;
    if |link.got| >= |wait| {
      TwoPrefixes(wait, Labels(link.got), waits);
      PrefixTotal(cfg.size, wait, Labels(link.got));
    }
  }

  lemma GotIsPrefix(size: Obj -> nat, link: Link, waits: seq<Label>)
    requires Conserved(size, link) && link.posted <= waits
    ensures Labels(link.got) <= waits
  {
  }

  lemma TwoPrefixes(a: seq<Label>, b: seq<Label>, c: seq<Label>)
    requires a <= c && b <= c && |a| <= |b|
    ensures a <= b
  {
  }

  // ---- pending rounds ----

  /** For every item that the host has still to send, some acquire chain of its round is not complete. */
  lemma PendingRound(cfg: Config, segs: seq<Seg>, link: Link, lane: Lane, loop: seq<Label>, full: seq<Label>, k: nat)
    returns (l: Label)
    requires WellFormed(cfg) && Proper(cfg, segs) && Conserved(cfg.size, link)
             && WaiterSide(cfg, segs, link, lane, loop)
    requires Covers(cfg, AtHost, segs, full) && Labels(link.sent) <= full && |link.sent| <= k < |full| && full[k].Item?
    ensures l in Undone(lane) + loop && l.Item? && l.round == full[k].round
  {
    hide WellFormed, Proper, Expand, Rest, Undone, Tail, Data, Sized, LaneOk, TailOk, Covers, Lacks;
    var waits := link.posted + (Rest(lane) + loop);
    var j := Behind(cfg, segs, link, full, waits, k);
    var r, part := full[k].round, Expand(cfg, AtWaiter, segs[..j + 1]);
    var m := |part| - 1;
    l := part[m];
    LastOfRound(cfg, segs, j, r);
    assert waits[m] == l;
    StillUndone(segs, link, lane, loop, m);
  }

  lemma LastOfRound(cfg: Config, segs: seq<Seg>, j: nat, r: nat)
    requires WellFormed(cfg) && Proper(cfg, segs) && j < |segs| && segs[j] == Sync(r)
    ensures var part := Expand(cfg, AtWaiter, segs[..j + 1]);
            part != [] && part[|part| - 1].Item? && part[|part| - 1].round == r
  {
    assert segs[..j + 1] == segs[..j] + [Sync(r)];
    ExpandAppend(cfg, AtWaiter, segs[..j], Sync(r));
    assert WellFormedRound(cfg.rounds[r]);
    ListNotEmpty(cfg, r);
  }

  lemma ListNotEmpty(cfg: Config, r: nat)
    requires WellFormed(cfg) && r < |cfg.rounds|
    ensures Items(cfg, AtWaiter, r) != [] && Items(cfg, AtHost, r) != [] && Items(cfg, AtOwner, r) != []
  {
    var q := cfg.rounds[r];
    assert WellFormedRound(q);
    NoObjects(q.own);
    NoObjects(q.host);
    NoObjects(q.wait);
  }

  lemma StillUndone(segs: seq<Seg>, link: Link, lane: Lane, loop: seq<Label>, m: nat)
    requires LaneOk(lane) && TailOk(link, lane) && |link.got| <= |link.posted|
    requires var waits := link.posted + (Rest(lane) + loop); |link.got| <= m < |waits| && waits[m].Item?
    ensures (link.posted + (Rest(lane) + loop))[m] in Undone(lane) + loop
  {
    var waits := link.posted + (Rest(lane) + loop);
    var l := waits[m];
    if m < |link.posted| {
      assert Tail(link)[m - |link.got|] == l;
      assert l in Tail(link);
      assert lane.pos < |lane.log| ==> Undone(lane)[0] == lane.log[lane.pos];
    } else {
      assert (Rest(lane) + loop)[m - |link.posted|] == l;
      RestInUndone(lane);
    }
  }

  lemma RestInUndone(lane: Lane)
    requires LaneOk(lane)
    ensures forall l :: l in Rest(lane) ==> l in Undone(lane)
  {
  }

  // ---- others ----

  lemma OtherPosted(posted: seq<Label>, part: seq<Label>, tag: Label)
    requires tag in posted + part && tag.Other? && AllItems(part)
    ensures tag in posted
  {
  }

  lemma SentTotal(size: Obj -> nat, link: Link, full: seq<Label>)
    requires Conserved(size, link) && Labels(link.sent) <= full
    ensures Total(size, Labels(link.got)) <= Total(size, full)
  {
    hide Total, Data;
    GotTotal(size, link);
    PrefixTotal(size, Labels(link.sent), full);
  }

  /** If the bytes of the last transfer are received, they were sent. */
  lemma LastGot(cfg: Config, a: Side, b: Side, segs: seq<Seg>, link: Link, waits: seq<Label>)
    requires WellFormed(cfg) && Proper(cfg, segs) && Conserved(cfg.size, link) && segs != [] && segs[|segs| - 1].Apart?
    requires waits == Expand(cfg, b, segs) && link.posted <= waits && segs[|segs| - 1].tag in Labels(link.got)
    ensures Total(cfg.size, Labels(link.got)) > Total(cfg.size, Expand(cfg, a, segs[..|segs| - 1]))
  {
    hide Expand, Total, Proper, WellFormed, Data, Conserved, Labels;
    var front, tag := segs[..|segs| - 1], segs[|segs| - 1].tag;
    LastIsNew(cfg, b, segs, tag);
    LastSegment(cfg, b, segs);
    GotIsPrefix(cfg.size, link, waits);
    WholeList(Expand(cfg, b, front), tag, Labels(link.got), waits);
    TotalConcat(cfg.size, Expand(cfg, b, front), [tag]);
    TotalOne(cfg.size, tag);
    TotalExpand(cfg, a, b, front);
  }

  lemma LastSegment(cfg: Config, side: Side, segs: seq<Seg>)
    requires Proper(cfg, segs) && segs != [] && segs[|segs| - 1].Apart?
    ensures var tag := segs[|segs| - 1].tag;
            tag.Other? && tag.len > 0 && Expand(cfg, side, segs) == Expand(cfg, side, segs[..|segs| - 1]) + [tag]
  {
    assert segs[|segs| - 1] in segs;
    hide Proper;
  }

  lemma WholeList(part: seq<Label>, tag: Label, got: seq<Label>, waits: seq<Label>)
    requires waits == part + [tag] && got <= waits && tag in got && tag !in part
    ensures got == waits
  {
    var i :| 0 <= i < |got| && got[i] == tag;
    assert forall j :: 0 <= j < |part| ==> part[j] in part;
  }

  /** No side lacks a transfer while none is under way. */
  lemma UpNotLacking(cfg: Config, n: nat, o: Owner, part: seq<Label>)
    requires WellFormed(cfg) && UpOk(cfg, n, o, part) && OthersDone(o.link)
    ensures !Lacks(cfg, AtHost, o.segs, o.link.posted + part)
    ensures !Lacks(cfg, AtOwner, o.segs, Labels(o.link.sent) + OwnerPart(cfg, o))
  {
    hide Expand, Total, Data, WellFormed, Proper, OwnerPart, LaneOk, Holds;
    if o.segs != [] && o.segs[|o.segs| - 1].Apart? {
      var tag := o.segs[|o.segs| - 1].tag;
      assert Apart(tag) in o.segs;
      BegunOnOwner(cfg, n, o, part, tag);
      LastIsNew(cfg, AtHost, o.segs, tag);
      if Lacks(cfg, AtOwner, o.segs, Labels(o.link.sent) + OwnerPart(cfg, o)) {
        SentTotal(cfg.size, o.link, Labels(o.link.sent) + OwnerPart(cfg, o));
        LastGot(cfg, AtOwner, AtHost, o.segs, o.link, o.link.posted + part);
      }
    }
  }

  lemma BegunOnOwner(cfg: Config, n: nat, o: Owner, part: seq<Label>, tag: Label)
    requires UpOk(cfg, n, o, part) && OthersDone(o.link) && Apart(tag) in o.segs
    ensures tag in Labels(o.link.got) && tag in o.link.posted
  {
    assert tag.Other?;
    hide Data, SideOk, OwnerPart, LaneOk, Holds;
    assert tag in o.link.posted || tag in Labels(o.link.sent);
  }

  lemma OwnerPartItems(cfg: Config, o: Owner)
    requires LaneOk(o.lane) && AllItems(o.loop)
    ensures AllItems(OwnerPart(cfg, o))
  {
    RequestedItems(cfg, AtOwner, Unseen(o.orders));
  }

  lemma {:induction false} RequestedItems(cfg: Config, side: Side, rs: seq<nat>)
    ensures AllItems(Requested(cfg, side, rs))
    ensures forall l :: l in Requested(cfg, side, rs) ==> l.round in rs
  {
    if rs != [] {
      RequestedItems(cfg, side, rs[1..]);
    }
  }

  lemma LastIsNew(cfg: Config, side: Side, segs: seq<Seg>, tag: Label)
    requires Proper(cfg, segs) && segs != [] && segs[|segs| - 1] == Apart(tag)
    ensures tag !in Expand(cfg, side, segs[..|segs| - 1])
  {
    assert tag.Other?;
    OtherInExpand(cfg, side, segs[..|segs| - 1], tag);
  }

  /** An owner whose receives are all complete has nothing left to send. */
  lemma OwnerDrained(cfg: Config, n: nat, o: Owner)
    requires WellFormed(cfg) && UpOk(cfg, n, o, []) && Tail(o.link) == [] && OthersDone(o.link)
    ensures UpIdle(cfg, o)
  {
    hide Expand, Total, Data, Proper, LaneOk, Holds, OwnerPart, WellFormed;
    UpNotLacking(cfg, n, o, []);
    var part := OwnerPart(cfg, o);
    assert o.link.posted + [] == o.link.posted;
    assert Labels(o.link.got) == o.link.posted == Expand(cfg, AtHost, o.segs);
    TotalExpand(cfg, AtHost, AtOwner, o.segs);
    GotTotal(cfg.size, o.link);
    TotalConcat(cfg.size, Labels(o.link.sent), part);
    ExpandPositive(cfg, AtOwner, o.segs);
    PartPositive(cfg.size, Labels(o.link.sent), part);
    assert part == [];
  }

  lemma PartPositive(size: Obj -> nat, a: seq<Label>, b: seq<Label>)
    requires Positive(size, a + b)
    ensures Total(size, b) >= |b|
  {
    forall k | 0 <= k < |b| ensures Len(size, b[k]) > 0 {
      assert (a + b)[|a| + k] == b[k];
    }
    TotalPositive(size, b);
  }
}
