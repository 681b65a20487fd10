/**
 The order in which the processes of a synchronization deal with transfers, written out as lists: what a
 stream was used for, and what each side has done and has still to do.
 */
module SyncLists {
  import opened Seqs
  import opened Links
  import opened SyncProtocol

  function OneSeg(cfg: Config, side: Side, g: Seg): seq<Label> {
    match g
    case Sync(r) => Items(cfg, side, r)
    case Apart(tag) => [tag]
  }

  /** The transfers of all segments as one side orders them. */
  function Expand(cfg: Config, side: Side, segs: seq<Seg>): seq<Label> {
    if segs == [] then [] else Expand(cfg, side, segs[..|segs| - 1]) + OneSeg(cfg, side, segs[|segs| - 1])
  }

  /** The items of rounds that were requested and not taken up yet. */
  function Requested(cfg: Config, side: Side, rs: seq<nat>): seq<Label> {
    if rs == [] then [] else Items(cfg, side, rs[0]) + Requested(cfg, side, rs[1..])
  }

  lemma {:induction false} RequestedAppend(cfg: Config, side: Side, rs: seq<nat>, r: nat)
    ensures Requested(cfg, side, rs + [r]) == Requested(cfg, side, rs) + Items(cfg, side, r)
  {
    if rs == [] {
      assert [r][1..] == [];
    } else {
      assert (rs + [r])[1..] == rs[1..] + [r];
      RequestedAppend(cfg, side, rs[1..], r);
    }
  }

  lemma ExpandAppend(cfg: Config, side: Side, segs: seq<Seg>, g: Seg)
    ensures Expand(cfg, side, segs + [g]) == Expand(cfg, side, segs) + OneSeg(cfg, side, g)
  {
    assert (segs + [g])[..|segs|] == segs;
  }

  lemma {:induction false} ExpandConcat(cfg: Config, side: Side, a: seq<Seg>, b: seq<Seg>)
    ensures Expand(cfg, side, a + b) == Expand(cfg, side, a) + Expand(cfg, side, b)
  {
    if b == [] {
      assert a + b == a;
    } else {
      var front := b[..|b| - 1];
      assert (a + b)[..|a + b| - 1] == a + front;
      ExpandConcat(cfg, side, a, front);
    }
  }

  // ---- what is in an expansion ----

  predicate Belongs(l: Label, g: Seg) {
    match g
    case Sync(r) => l.Item? && l.round == r
    case Apart(tag) => l == tag
  }

  /** Every round and every other transfer occurs once; others are not items. */
  ghost predicate Proper(cfg: Config, segs: seq<Seg>) {
    && (forall i, j :: 0 <= i < j < |segs| ==> segs[i] != segs[j])
    && (forall g :: g in segs ==> if g.Sync? then g.round < |cfg.rounds| else g.tag.Other? && g.tag.len > 0)
  }

  lemma {:induction false} InExpand(cfg: Config, side: Side, segs: seq<Seg>, l: Label)
    ensures l in Expand(cfg, side, segs) <==> exists g :: g in segs && l in OneSeg(cfg, side, g)
  {
    if segs != [] {
      var front, g := segs[..|segs| - 1], segs[|segs| - 1];
      InExpand(cfg, side, front, l);
      assert segs == front + [g];
    }
  }

  lemma InOneSeg(cfg: Config, side: Side, g: Seg, l: Label)
    ensures l in OneSeg(cfg, side, g) ==> Belongs(l, g)
    ensures g.Sync? ==> (l in OneSeg(cfg, side, g) <==> Belongs(l, g) && l.obj in List(cfg, side, g.round))
  {
    if g.Sync? && Belongs(l, g) && l.obj in List(cfg, side, g.round) {
      var i :| 0 <= i < |List(cfg, side, g.round)| && List(cfg, side, g.round)[i] == l.obj;
      assert Items(cfg, side, g.round)[i] == l;
    }
  }

  lemma OtherInExpand(cfg: Config, side: Side, segs: seq<Seg>, l: Label)
    requires l.Other?
    ensures l in Expand(cfg, side, segs) <==> Apart(l) in segs
  {
    InExpand(cfg, side, segs, l);
    forall g | g in segs && l in OneSeg(cfg, side, g) ensures g == Apart(l) {
      InOneSeg(cfg, side, g, l);
    }
    if Apart(l) in segs {
      assert l in OneSeg(cfg, side, Apart(l));
    }
  }

  lemma ItemInExpand(cfg: Config, side: Side, segs: seq<Seg>, l: Label)
    requires l.Item? && Proper(cfg, segs)
    ensures l in Expand(cfg, side, segs) <==> Sync(l.round) in segs && l.obj in List(cfg, side, l.round)
  {
    InExpand(cfg, side, segs, l);
    forall g | g in segs && l in OneSeg(cfg, side, g) ensures g == Sync(l.round) && l.obj in List(cfg, side, l.round) {
      InOneSeg(cfg, side, g, l);
    }
    if Sync(l.round) in segs {
      InOneSeg(cfg, side, Sync(l.round), l);
    }
  }

  ghost predicate NoDup(ls: seq<Label>) {
    forall i, j :: 0 <= i < j < |ls| ==> ls[i] != ls[j]
  }

  lemma ListIsDistinct(cfg: Config, side: Side, r: nat)
    requires WellFormed(cfg)
    ensures Distinct(List(cfg, side, r))
  {
  }

  lemma {:induction false} ExpandNoDup(cfg: Config, side: Side, segs: seq<Seg>)
    requires WellFormed(cfg) && Proper(cfg, segs)
    ensures NoDup(Expand(cfg, side, segs))
  {
    if segs != [] {
      var front, g := segs[..|segs| - 1], segs[|segs| - 1];
      assert Proper(cfg, front);
      ExpandNoDup(cfg, side, front);
      OneSegNoDup(cfg, side, g);
      forall l | l in Expand(cfg, side, front) ensures l !in OneSeg(cfg, side, g) {
        FrontOnly(cfg, side, segs, l);
      }
      NoDupConcat(Expand(cfg, side, front), OneSeg(cfg, side, g));
    }
  }

  lemma FrontOnly(cfg: Config, side: Side, segs: seq<Seg>, l: Label)
    requires Proper(cfg, segs) && segs != [] && l in Expand(cfg, side, segs[..|segs| - 1])
    ensures l !in OneSeg(cfg, side, segs[|segs| - 1])
  {
    var front, g := segs[..|segs| - 1], segs[|segs| - 1];
    InExpand(cfg, side, front, l);
    var f :| f in front && l in OneSeg(cfg, side, f);
    InOneSeg(cfg, side, f, l);
    InOneSeg(cfg, side, g, l);
    var i :| 0 <= i < |front| && front[i] == f;
    assert segs[i] == f && f != g;
  }

  lemma OneSegNoDup(cfg: Config, side: Side, g: Seg)
    requires WellFormed(cfg)
    ensures NoDup(OneSeg(cfg, side, g))
  {
    if g.Sync? {
      ListIsDistinct(cfg, side, g.round);
    }
  }

  lemma NoDupConcat(a: seq<Label>, b: seq<Label>)
    requires NoDup(a) && NoDup(b) && forall l :: l in a ==> l !in b
    ensures NoDup(a + b)
  {
    forall i, j | 0 <= i < j < |a + b| ensures (a + b)[i] != (a + b)[j] {
      if i < |a| <= j {
        assert a[i] in a && b[j - |a|] in b;
      }
    }
  }

  // ---- totals ----

  /** The two lists of a round have the same size, in whatever order they are. */
  lemma {:induction false} TotalTagged(size: Obj -> nat, r: nat, a: seq<Obj>, b: seq<Obj>)
    requires Distinct(a) && Distinct(b) && Set(a) == Set(b)
    ensures Total(size, Tagged(r, a)) == Total(size, Tagged(r, b))
    decreases |a|
  {
    if a == [] {
      NoObjects(a);
      NoObjects(b);
    } else {
      var m := |a| - 1;
      assert a[m] in Set(b);
      var k :| 0 <= k < |b| && b[k] == a[m];
      var rest := b[..k] + b[k + 1..];
      WithoutLast(a);
      Without(b, k);
      TotalTagged(size, r, a[..m], rest);
      TotalWithout(size, r, b, k);
      assert Tagged(r, a)[..m] == Tagged(r, a[..m]);
    }
  }

  lemma NoObjects(a: seq<Obj>)
    ensures a == [] <==> Set(a) == {}
  {
    if a != [] {
      assert a[0] in Set(a);
    }
  }

  lemma WithoutLast(a: seq<Obj>)
    requires Distinct(a) && a != []
    ensures Distinct(a[..|a| - 1]) && Set(a[..|a| - 1]) == Set(a) - {a[|a| - 1]}
  {
    var m := |a| - 1;
    forall x ensures x in Set(a[..m]) <==> x in Set(a) && x != a[m] {
      assert a == a[..m] + [a[m]];
    }
  }

  lemma Without(b: seq<Obj>, k: nat)
    requires Distinct(b) && k < |b|
    ensures Distinct(b[..k] + b[k + 1..]) && Set(b[..k] + b[k + 1..]) == Set(b) - {b[k]}
  {
    var rest := b[..k] + b[k + 1..];
    forall i | 0 <= i < |rest| ensures rest[i] == b[if i < k then i else i + 1] {
    }
    forall x ensures x in Set(rest) <==> x in Set(b) && x != b[k] {
      assert b == b[..k] + [b[k]] + b[k + 1..];
    }
  }

  lemma TotalWithout(size: Obj -> nat, r: nat, b: seq<Obj>, k: nat)
    requires k < |b|
    ensures Total(size, Tagged(r, b)) == Total(size, Tagged(r, b[..k] + b[k + 1..])) + size(b[k])
  {
    var p, q := Tagged(r, b[..k]), Tagged(r, b[k + 1..]);
    assert Tagged(r, b) == p + [Item(r, b[k])] + q;
    assert Tagged(r, b[..k] + b[k + 1..]) == p + q;
    TotalConcat(size, p + [Item(r, b[k])], q);
    TotalConcat(size, p, [Item(r, b[k])]);
    TotalConcat(size, p, q);
    TotalOne(size, Item(r, b[k]));
  }

  lemma TotalOne(size: Obj -> nat, l: Label)
    ensures Total(size, [l]) == Len(size, l)
  {
    assert [l][..0] == [];
  }

  lemma {:induction false} TotalExpand(cfg: Config, a: Side, b: Side, segs: seq<Seg>)
    requires WellFormed(cfg)
    ensures Total(cfg.size, Expand(cfg, a, segs)) == Total(cfg.size, Expand(cfg, b, segs))
  {
    if segs != [] {
      var front, g := segs[..|segs| - 1], segs[|segs| - 1];
      TotalExpand(cfg, a, b, front);
      TotalConcat(cfg.size, Expand(cfg, a, front), OneSeg(cfg, a, g));
      TotalConcat(cfg.size, Expand(cfg, b, front), OneSeg(cfg, b, g));
      TotalSeg(cfg, a, b, g);
    }
  }

  lemma TotalSeg(cfg: Config, a: Side, b: Side, g: Seg)
    requires WellFormed(cfg)
    ensures Total(cfg.size, OneSeg(cfg, a, g)) == Total(cfg.size, OneSeg(cfg, b, g))
  {
    if g.Sync? {
      ListIsDistinct(cfg, a, g.round);
      ListIsDistinct(cfg, b, g.round);
      TotalTagged(cfg.size, g.round, List(cfg, a, g.round), List(cfg, b, g.round));
    }
  }

  lemma ExpandPositive(cfg: Config, side: Side, segs: seq<Seg>)
    requires WellFormed(cfg) && Proper(cfg, segs)
    ensures Positive(cfg.size, Expand(cfg, side, segs))
  {
    forall k | 0 <= k < |Expand(cfg, side, segs)| ensures Len(cfg.size, Expand(cfg, side, segs)[k]) > 0 {
      var l := Expand(cfg, side, segs)[k];
      if l.Other? {
        OtherInExpand(cfg, side, segs, l);
      }
    }
  }

  // ---- covering ----

  /** One side's list: all segments, or all but another transfer that the side has not got to yet. */
  ghost predicate Covers(cfg: Config, side: Side, segs: seq<Seg>, full: seq<Label>) {
    full == Expand(cfg, side, segs) || Lacks(cfg, side, segs, full)
  }

  ghost predicate Lacks(cfg: Config, side: Side, segs: seq<Seg>, full: seq<Label>) {
    segs != [] && segs[|segs| - 1].Apart? && full == Expand(cfg, side, segs[..|segs| - 1])
  }

  lemma CoversPrefix(cfg: Config, side: Side, segs: seq<Seg>, full: seq<Label>)
    requires WellFormed(cfg) && Proper(cfg, segs) && Covers(cfg, side, segs, full)
    ensures full <= Expand(cfg, side, segs) && NoDup(full) && Positive(cfg.size, full)
  {
    ExpandNoDup(cfg, side, segs);
    ExpandPositive(cfg, side, segs);
  }

  /** A transfer that the other side has begun and this side has not is the one that is lacking. */
  lemma LacksLast(cfg: Config, side: Side, segs: seq<Seg>, full: seq<Label>, tag: Label)
    requires Covers(cfg, side, segs, full) && tag.Other? && Apart(tag) in segs && tag !in full
    ensures segs[|segs| - 1] == Apart(tag) && Lacks(cfg, side, segs, full)
    ensures full + [tag] == Expand(cfg, side, segs)
  {
    OtherInExpand(cfg, side, segs, tag);
    OtherInExpand(cfg, side, segs[..|segs| - 1], tag);
    assert segs == segs[..|segs| - 1] + [segs[|segs| - 1]];
  }
}
