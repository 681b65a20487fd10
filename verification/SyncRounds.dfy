/**
 The bytes of one round: whatever the list orders and the sizes are, and whatever else a stream carries, the
 receives of a round get exactly the bytes of its sends, in order.
 */
module SyncRounds {
  import opened Seqs
  import opened Links
  import opened SyncProtocol
  import opened SyncLists
  import opened SyncInvariant
  import opened SyncDrained

  predicate Of(l: Label, r: nat) {
    l.Item? && l.round == r
  }

  /** The chunks of one round. */
  function OfRound(cs: seq<Chunk>, r: nat): seq<Chunk> {
    if cs == [] then [] else
    var front, c := OfRound(cs[..|cs| - 1], r), cs[|cs| - 1];
    if Of(c.tag, r) then front + [c] else front
  }

  lemma {:induction false} OfRoundConcat(a: seq<Chunk>, b: seq<Chunk>, r: nat)
    ensures OfRound(a + b, r) == OfRound(a, r) + OfRound(b, r)
  {
    if b == [] {
      assert a + b == a;
    } else {
      assert (a + b)[..|a + b| - 1] == a + b[..|b| - 1];
      OfRoundConcat(a, b[..|b| - 1], r);
    }
  }

  lemma {:induction false} OfRoundAll(cs: seq<Chunk>, r: nat)
    requires forall k :: 0 <= k < |cs| ==> Of(cs[k].tag, r)
    ensures OfRound(cs, r) == cs
  {
    if cs != [] {
      OfRoundAll(cs[..|cs| - 1], r);
    }
  }

  lemma {:induction false} OfRoundNone(cs: seq<Chunk>, r: nat)
    requires forall k :: 0 <= k < |cs| ==> !Of(cs[k].tag, r)
    ensures OfRound(cs, r) == []
  {
    if cs != [] {
      OfRoundNone(cs[..|cs| - 1], r);
    }
  }

  /** Exactly the chunks of the round are in its part. */
  lemma {:induction false} InOfRound(cs: seq<Chunk>, r: nat, c: Chunk)
    ensures c in OfRound(cs, r) <==> c in cs && Of(c.tag, r)
  {
    if cs != [] {
      InOfRound(cs[..|cs| - 1], r, c);
      assert cs == cs[..|cs| - 1] + [cs[|cs| - 1]];
    }
  }

  // ---- the part of a round is contiguous ----

  function Least(a: nat, b: nat): nat {
    if a <= b then a else b
  }

  /** The chunks from position `lo` on, at most `n`. */
  function Mid(cs: seq<Chunk>, lo: nat, n: nat): seq<Chunk> {
    cs[Least(|cs|, lo)..Least(|cs|, lo + n)]
  }

  lemma ThreeParts(cs: seq<Chunk>, lo: nat, n: nat)
    ensures cs == cs[..Least(|cs|, lo)] + (Mid(cs, lo, n) + cs[Least(|cs|, lo + n)..])
  {
  }

  /** The chunks are a beginning of three lists, one after the other. */
  ghost predicate Within(cs: seq<Chunk>, a: seq<Label>, b: seq<Label>, c: seq<Label>) {
    Labels(cs) <= a + (b + c)
  }

  /** The labels of the three parts. */
  lemma PartLabels(cs: seq<Chunk>, a: seq<Label>, b: seq<Label>, c: seq<Label>)
    requires Within(cs, a, b, c)
    ensures Labels(cs[..Least(|cs|, |a|)]) <= a
    ensures Labels(Mid(cs, |a|, |b|)) <= b
    ensures Labels(cs[Least(|cs|, |a| + |b|)..]) <= c
  {
    var all := a + (b + c);
    assert forall k :: 0 <= k < |cs| ==> cs[k].tag == Labels(cs)[k] == all[k];
  }

  lemma NotOfRound(cs: seq<Chunk>, a: seq<Label>, r: nat)
    requires Labels(cs) <= a && forall l :: l in a ==> !Of(l, r)
    ensures OfRound(cs, r) == []
  {
    forall k | 0 <= k < |cs| ensures !Of(cs[k].tag, r) {
      assert cs[k].tag == Labels(cs)[k] == a[k];
    }
    OfRoundNone(cs, r);
  }

  lemma AllOfRound(cs: seq<Chunk>, b: seq<Label>, r: nat)
    requires Labels(cs) <= b && forall l :: l in b ==> Of(l, r)
    ensures OfRound(cs, r) == cs
  {
    forall k | 0 <= k < |cs| ensures Of(cs[k].tag, r) {
      assert cs[k].tag == Labels(cs)[k] == b[k];
    }
    OfRoundAll(cs, r);
  }

  lemma PartIsContiguous(cs: seq<Chunk>, a: seq<Label>, b: seq<Label>, c: seq<Label>, r: nat)
    requires Within(cs, a, b, c)
    requires (forall l :: l in a || l in c ==> !Of(l, r)) && forall l :: l in b ==> Of(l, r)
    ensures OfRound(cs, r) == Mid(cs, |a|, |b|)
  {
    hide OfRound, Labels;
    var x, y, z := cs[..Least(|cs|, |a|)], Mid(cs, |a|, |b|), cs[Least(|cs|, |a| + |b|)..];
    ThreeParts(cs, |a|, |b|);
    PartLabels(cs, a, b, c);
    hide Mid, Least;
    NotOfRound(x, a, r);
    AllOfRound(y, b, r);
    NotOfRound(z, c, r);
    OnlyMiddle(x, y, z, r);
  }

  lemma OnlyMiddle(x: seq<Chunk>, y: seq<Chunk>, z: seq<Chunk>, r: nat)
    requires OfRound(x, r) == [] && OfRound(y, r) == y && OfRound(z, r) == []
    ensures OfRound(x + (y + z), r) == y
  {
    hide OfRound;
    OfRoundConcat(x, y + z, r);
    OfRoundConcat(y, z, r);
  }

  // ---- its bytes ----

  lemma SizedPart(size: Obj -> nat, cs: seq<Chunk>, ls: seq<Label>)
    requires Sized(size, cs) && Labels(cs) <= ls
    ensures |Data(cs)| <= Total(size, ls) && (|cs| == |ls| ==> |Data(cs)| == Total(size, ls))
  {
    hide Data, Total;
    DataLength(size, cs);
    PrefixTotal(size, Labels(cs), ls);
    if |cs| == |ls| {
      assert Labels(cs) == ls;
    }
  }

  lemma DataParts(cs: seq<Chunk>, lo: nat, n: nat)
    ensures Data(cs) == Data(cs[..Least(|cs|, lo)]) + (Data(Mid(cs, lo, n)) + Data(cs[Least(|cs|, lo + n)..]))
  {
    ThreeParts(cs, lo, n);
    DataConcat(cs[..Least(|cs|, lo)], Mid(cs, lo, n) + cs[Least(|cs|, lo + n)..]);
    DataConcat(Mid(cs, lo, n), cs[Least(|cs|, lo + n)..]);
  }

  /** `a` is a beginning of `b`. */
  predicate Begins(a: Bytes, b: Bytes) {
    a <= b
  }

  lemma AfterEqual(a: Bytes, a': Bytes, b: Bytes, b': Bytes)
    requires a + b == a' + b' && |a| == |a'|
    ensures a == a' && b == b'
  {
    assert b == (a + b)[|a|..] && b' == (a' + b')[|a'|..];
    assert a == (a + b)[..|a|] && a' == (a' + b')[..|a'|];
  }

  /** Both sides deal with the same parts, each in its own order. */
  ghost predicate InParts(size: Obj -> nat, link: Link, a: seq<Label>, b: seq<Label>, c: seq<Label>,
                          a': seq<Label>, b': seq<Label>, c': seq<Label>) {
    && Conserved(size, link) && Within(link.sent, a, b, c) && Within(link.got, a', b', c') && Positive(size, a)
    && Total(size, a) == Total(size, a') && Total(size, b) == Total(size, b')
  }

  /** What `got` has of a part is a beginning of what `sent` has of it. */
  lemma MidPrefix(size: Obj -> nat, link: Link, a: seq<Label>, b: seq<Label>, c: seq<Label>,
                  a': seq<Label>, b': seq<Label>, c': seq<Label>)
    requires InParts(size, link, a, b, c, a', b', c')
    ensures Begins(Data(Mid(link.got, |a'|, |b'|)), Data(Mid(link.sent, |a|, |b|)))
  {
    hide *;
    BytesAre(size, link, a, b, c, a', b', c');
    if |link.got| > |a'| {
      ReachesPart(size, link, a, b, c, a', b', c');
      FirstParts(size, link, a, b, c, a', b', c');
      MidLengths(size, link, a, b, c, a', b', c');
      PartsPrefix(link.got, link.sent, link.wire, |a'|, |b'|, |a|, |b|);
    } else {
      NoMid(link.got, |a'|, |b'|);
    }
  }

  lemma BytesAre(size: Obj -> nat, link: Link, a: seq<Label>, b: seq<Label>, c: seq<Label>,
                 a': seq<Label>, b': seq<Label>, c': seq<Label>)
    requires InParts(size, link, a, b, c, a', b', c')
    ensures Data(link.got) + link.wire == Data(link.sent)
  {
  }

  lemma NoMid(cs: seq<Chunk>, lo: nat, n: nat)
    requires |cs| <= lo
    ensures forall data :: Begins(Data(Mid(cs, lo, n)), data)
  {
  }

  lemma PartsPrefix(g: seq<Chunk>, s: seq<Chunk>, wire: Bytes, i: nat, n: nat, j: nat, m: nat)
    requires Data(g) + wire == Data(s) && |g| >= i && |s| >= j && |Data(g[..i])| == |Data(s[..j])|
    requires |Data(Mid(g, i, n))| <= |Data(Mid(s, j, m))| || Data(s[Least(|s|, j + m)..]) == []
    ensures Begins(Data(Mid(g, i, n)), Data(Mid(s, j, m)))
  {
    hide Data, Mid;
    DataParts(g, i, n);
    DataParts(s, j, m);
    Behind3(Data(g[..i]), Data(Mid(g, i, n)), Data(g[Least(|g|, i + n)..]), wire,
            Data(s[..j]), Data(Mid(s, j, m)), Data(s[Least(|s|, j + m)..]));
  }

  lemma Behind3(a: Bytes, b: Bytes, c: Bytes, d: Bytes, a': Bytes, b': Bytes, c': Bytes)
    requires (a + (b + c)) + d == a' + (b' + c') && |a| == |a'| && (|b| <= |b'| || c' == [])
    ensures b <= b'
  {
    assert (a + (b + c)) + d == a + (b + (c + d));
    AfterEqual(a, a', b + (c + d), b' + c');
    PrefixOf(b, c + d, b', c');
  }

  lemma PrefixOf(gm: Bytes, gr: Bytes, sm: Bytes, sr: Bytes)
    requires gm + gr == sm + sr && (|gm| <= |sm| || sr == [])
    ensures gm <= sm
  {
    assert |gm| <= |sm| by {
      assert |gm + gr| == |sm + sr|;
    }
    assert gm == (gm + gr)[..|gm|] == sm[..|gm|];
  }

  lemma SizedParts(size: Obj -> nat, cs: seq<Chunk>, lo: nat, n: nat)
    requires Sized(size, cs)
    ensures Sized(size, cs[..Least(|cs|, lo)]) && Sized(size, Mid(cs, lo, n))
  {
  }

  /** If bytes behind part `a` were received, all of part `a` was sent. */
  lemma ReachesPart(size: Obj -> nat, link: Link, a: seq<Label>, b: seq<Label>, c: seq<Label>,
                    a': seq<Label>, b': seq<Label>, c': seq<Label>)
    requires InParts(size, link, a, b, c, a', b', c') && |link.got| > |a'|
    ensures |link.sent| >= |a|
  {
    hide Data, Total;
    GotTotal(size, link);
    LongerPrefix(Labels(link.got), a', b' + c');
    PrefixTotal(size, a', Labels(link.got));
    if |link.sent| < |a| {
      LongerPrefix(Labels(link.sent), a, b + c);
      hide Conserved, Positive;
      Shorter(size, Labels(link.sent), a);
    }
  }

  lemma LongerPrefix(ls: seq<Label>, a: seq<Label>, b: seq<Label>)
    requires ls <= a + b
    ensures |ls| >= |a| ==> a <= ls
    ensures |ls| <= |a| ==> ls <= a
  {
    assert (a + b)[..|a|] == a;
  }

  lemma FirstParts(size: Obj -> nat, link: Link, a: seq<Label>, b: seq<Label>, c: seq<Label>,
                   a': seq<Label>, b': seq<Label>, c': seq<Label>)
    requires InParts(size, link, a, b, c, a', b', c') && |link.got| > |a'| && |link.sent| >= |a|
    ensures |Data(link.got[..|a'|])| == |Data(link.sent[..|a|])|
  {
    hide Data, Total;
    PartLabels(link.got, a', b', c');
    PartLabels(link.sent, a, b, c);
    SizedParts(size, link.got, |a'|, |b'|);
    SizedParts(size, link.sent, |a|, |b|);
    SizedPart(size, link.got[..|a'|], a');
    SizedPart(size, link.sent[..|a|], a);
  }

  lemma MidLengths(size: Obj -> nat, link: Link, a: seq<Label>, b: seq<Label>, c: seq<Label>,
                   a': seq<Label>, b': seq<Label>, c': seq<Label>)
    requires InParts(size, link, a, b, c, a', b', c')
    ensures |Data(Mid(link.got, |a'|, |b'|))| <= |Data(Mid(link.sent, |a|, |b|))|
         || Data(link.sent[Least(|link.sent|, |a| + |b|)..]) == []
  {
    hide Data, Total;
    PartLabels(link.got, a', b', c');
    PartLabels(link.sent, a, b, c);
    SizedParts(size, link.got, |a'|, |b'|);
    SizedParts(size, link.sent, |a|, |b|);
    SizedPart(size, Mid(link.got, |a'|, |b'|), b');
    SizedPart(size, Mid(link.sent, |a|, |b|), b);
    if |link.sent| <= |a| + |b| {
      DataNothing(link.sent[Least(|link.sent|, |a| + |b|)..]);
    }
  }

  // ---- a round on a stream ----

  lemma SplitAt(cfg: Config, side: Side, segs: seq<Seg>, j: nat)
    requires j < |segs|
    ensures Expand(cfg, side, segs)
         == Expand(cfg, side, segs[..j]) + (OneSeg(cfg, side, segs[j]) + Expand(cfg, side, segs[j + 1..]))
  {
    hide OneSeg;
    assert segs == segs[..j + 1] + segs[j + 1..] && segs[..j + 1] == segs[..j] + [segs[j]];
    ExpandConcat(cfg, side, segs[..j + 1], segs[j + 1..]);
    ExpandAppend(cfg, side, segs[..j], segs[j]);
    hide Expand;
    assert Expand(cfg, side, segs[..j]) + OneSeg(cfg, side, segs[j]) + Expand(cfg, side, segs[j + 1..])
        == Expand(cfg, side, segs[..j]) + (OneSeg(cfg, side, segs[j]) + Expand(cfg, side, segs[j + 1..]));
  }

  /** The labels of a round are in its own segment only. */
  lemma OnlySegment(cfg: Config, side: Side, segs: seq<Seg>, r: nat)
    requires Proper(cfg, segs) && Sync(r) !in segs
    ensures forall l :: l in Expand(cfg, side, segs) ==> !Of(l, r)
  {
    forall l | l in Expand(cfg, side, segs) && l.Item? ensures l.round != r {
      ItemInExpand(cfg, side, segs, l);
    }
  }

  lemma Around(cfg: Config, segs: seq<Seg>, j: nat)
    requires Proper(cfg, segs) && j < |segs|
    ensures Proper(cfg, segs[..j]) && Proper(cfg, segs[j + 1..]) && segs[j] !in segs[..j] && segs[j] !in segs[j + 1..]
  {
  }

  lemma ItemsAreOf(cfg: Config, side: Side, r: nat)
    ensures forall l :: l in Items(cfg, side, r) ==> Of(l, r)
  {
  }

  /** What one side has of a round, as its list orders it. */
  lemma RoundPart(cfg: Config, side: Side, segs: seq<Seg>, cs: seq<Chunk>, j: nat)
    requires Proper(cfg, segs) && j < |segs| && segs[j].Sync? && Labels(cs) <= Expand(cfg, side, segs)
    ensures var a, b := Expand(cfg, side, segs[..j]), Items(cfg, side, segs[j].round);
            && Within(cs, a, b, Expand(cfg, side, segs[j + 1..]))
            && OfRound(cs, segs[j].round) == Mid(cs, |a|, |b|) && Labels(Mid(cs, |a|, |b|)) <= b
  {
    var r := segs[j].round;
    SplitAt(cfg, side, segs, j);
    Around(cfg, segs, j);
    OnlySegment(cfg, side, segs[..j], r);
    OnlySegment(cfg, side, segs[j + 1..], r);
    ItemsAreOf(cfg, side, r);
    hide Expand, Proper, OfRound, Mid;
    var a, b, c := Expand(cfg, side, segs[..j]), Items(cfg, side, r), Expand(cfg, side, segs[j + 1..]);
    assert Within(cs, a, b, c);
    hide Within;
    PartLabels(cs, a, b, c);
    PartIsContiguous(cs, a, b, c, r);
  }

  lemma NoRoundPart(cfg: Config, side: Side, segs: seq<Seg>, cs: seq<Chunk>, r: nat)
    requires Proper(cfg, segs) && Sync(r) !in segs && Labels(cs) <= Expand(cfg, side, segs)
    ensures OfRound(cs, r) == []
  {
    OnlySegment(cfg, side, segs, r);
    hide Expand, Proper;
    NotOfRound(cs, Expand(cfg, side, segs), r);
  }

  lemma RoundLabels(cfg: Config, side: Side, segs: seq<Seg>, cs: seq<Chunk>, r: nat)
    requires Proper(cfg, segs) && Labels(cs) <= Expand(cfg, side, segs)
    ensures Labels(OfRound(cs, r)) <= Items(cfg, side, r)
  {
    hide Expand, Proper, OfRound;
    if Sync(r) in segs {
      var j :| 0 <= j < |segs| && segs[j] == Sync(r);
      RoundPart(cfg, side, segs, cs, j);
    } else {
      NoRoundPart(cfg, side, segs, cs, r);
    }
  }

  /** On a stream the receives of a round get the bytes of its sends, in order. */
  lemma RoundBytes(cfg: Config, a: Side, b: Side, segs: seq<Seg>, link: Link, r: nat)
    requires WellFormed(cfg) && Proper(cfg, segs) && Conserved(cfg.size, link)
    requires Labels(link.sent) <= Expand(cfg, a, segs) && Labels(link.got) <= Expand(cfg, b, segs)
    ensures Begins(Data(OfRound(link.got, r)), Data(OfRound(link.sent, r)))
  {
    hide Expand, Proper, OfRound, Data, Mid, Conserved, WellFormed, Total, Positive, Within;
    if Sync(r) in segs {
      var j :| 0 <= j < |segs| && segs[j] == Sync(r);
      RoundPart(cfg, a, segs, link.sent, j);
      RoundPart(cfg, b, segs, link.got, j);
      Around(cfg, segs, j);
      ExpandPositive(cfg, a, segs[..j]);
      TotalExpand(cfg, a, b, segs[..j]);
      TotalSeg(cfg, a, b, Sync(r));
      var x, y, z := Expand(cfg, a, segs[..j]), Items(cfg, a, r), Expand(cfg, a, segs[j + 1..]);
      var x', y', z' := Expand(cfg, b, segs[..j]), Items(cfg, b, r), Expand(cfg, b, segs[j + 1..]);
      MidPrefix(cfg.size, link, x, y, z, x', y', z');
    } else {
      NoRoundPart(cfg, b, segs, link.got, r);
      NothingBegins(link.sent, r);
    }
  }

  lemma NothingBegins(cs: seq<Chunk>, r: nat)
    ensures Begins(Data([]), Data(OfRound(cs, r)))
  {
  }
}
