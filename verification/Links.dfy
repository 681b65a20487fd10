/**
 One direction of a data stream between two processes. It carries nothing but bytes: a receive takes as many
 bytes as it was posted for, from whatever was sent first.
 */
module Links {
  import opened Seqs

  type Bytes = seq<byte>
  type Obj = nat

  /** A part of a buffer, from an offset on. */
  datatype Place = Place(obj: Obj, offset: nat)

  /** What a transfer is for: a memory object of a synchronization round, or `len` bytes of a buffer for another
      command. On the host these bytes are in the application's memory or, `mapped`, in the host's own copy of
      the buffer. The label is not part of what is sent. */
  datatype Label = Item(round: nat, obj: Obj) | Other(id: nat, len: nat, place: Place, mapped: bool)

  datatype Chunk = Chunk(tag: Label, bytes: Bytes)

  /** `sent` and `got` are histories; `posted`: the receives posted so far, of which the first `|got|` are
      complete; `wire`: the bytes under way. */
  datatype Link = Link(sent: seq<Chunk>, posted: seq<Label>, got: seq<Chunk>, wire: Bytes)

  const EMPTY := Link([], [], [], [])

  /** The round and the object of an item. */
  function RoundOf(l: Label): nat {
    if l.Item? then l.round else 0
  }

  function ObjectOf(l: Label): Obj {
    if l.Item? then l.obj else 0
  }

  function Len(size: Obj -> nat, l: Label): nat {
    match l
    case Item(_, x) => size(x)
    case Other(_, len, _, _) => len
  }

  function Labels(cs: seq<Chunk>): (ls: seq<Label>)
    ensures |ls| == |cs| && forall k :: 0 <= k < |cs| ==> ls[k] == cs[k].tag
  {
    seq(|cs|, k requires 0 <= k < |cs| => cs[k].tag)
  }

  /** All bytes of the chunks, in order. */
  function Data(cs: seq<Chunk>): Bytes {
    if cs == [] then [] else Data(cs[..|cs| - 1]) + cs[|cs| - 1].bytes
  }

  function Total(size: Obj -> nat, ls: seq<Label>): nat {
    if ls == [] then 0 else Total(size, ls[..|ls| - 1]) + Len(size, ls[|ls| - 1])
  }

  /** Receives that are posted and not complete. */
  function Tail(l: Link): seq<Label> {
    if |l.got| <= |l.posted| then l.posted[|l.got|..] else []
  }

  // ---- steps ----

  function Sent(l: Link, c: Chunk): Link {
    l.(sent := l.sent + [c], wire := l.wire + c.bytes)
  }

  function Posted(l: Link, tag: Label): Link {
    l.(posted := l.posted + [tag])
  }

  predicate CanReceive(size: Obj -> nat, l: Link) {
    |l.got| < |l.posted| && |l.wire| >= Len(size, l.posted[|l.got|])
  }

  function Next(size: Obj -> nat, l: Link): Chunk
    requires CanReceive(size, l)
  {
    var tag := l.posted[|l.got|];
    Chunk(tag, l.wire[..Len(size, tag)])
  }

  function Received(size: Obj -> nat, l: Link): Link
    requires CanReceive(size, l)
  {
    var c := Next(size, l);
    l.(got := l.got + [c], wire := l.wire[|c.bytes|..])
  }

  // ---- conservation ----

  /** All bytes sent are received or under way, in order; every transfer has its announced length. */
  ghost predicate Conserved(size: Obj -> nat, l: Link) {
    && Data(l.got) + l.wire == Data(l.sent)
    && |l.got| <= |l.posted| && Labels(l.got) == l.posted[..|l.got|]
    && Sized(size, l.sent) && Sized(size, l.got)
  }

  ghost predicate Sized(size: Obj -> nat, cs: seq<Chunk>) {
    forall k :: 0 <= k < |cs| ==> |cs[k].bytes| == Len(size, cs[k].tag)
  }

  lemma DataAppend(cs: seq<Chunk>, c: Chunk)
    ensures Data(cs + [c]) == Data(cs) + c.bytes && Labels(cs + [c]) == Labels(cs) + [c.tag]
  {
    assert (cs + [c])[..|cs|] == cs;
  }

  lemma ConservedEmpty(size: Obj -> nat)
    ensures Conserved(size, EMPTY)
  {
    assert Labels([]) == [];
  }

  lemma ConservedSent(size: Obj -> nat, l: Link, c: Chunk)
    requires Conserved(size, l) && |c.bytes| == Len(size, c.tag)
    ensures Conserved(size, Sent(l, c))
  {
    hide Data;
    DataAppend(l.sent, c);
    assert Data(l.got) + (l.wire + c.bytes) == Data(l.got) + l.wire + c.bytes;
  }

  lemma ConservedPosted(size: Obj -> nat, l: Link, tag: Label)
    requires Conserved(size, l)
    ensures Conserved(size, Posted(l, tag))
  {
    hide Data;
    assert (l.posted + [tag])[..|l.got|] == l.posted[..|l.got|];
  }

  lemma ConservedReceived(size: Obj -> nat, l: Link)
    requires Conserved(size, l) && CanReceive(size, l)
    ensures Conserved(size, Received(size, l))
  {
    hide Data;
    var c := Next(size, l);
    DataAppend(l.got, c);
    assert l.wire == c.bytes + l.wire[|c.bytes|..];
    assert Data(l.got) + (c.bytes + l.wire[|c.bytes|..]) == Data(l.got) + c.bytes + l.wire[|c.bytes|..];
    assert l.posted[..|l.got| + 1] == l.posted[..|l.got|] + [l.posted[|l.got|]];
  }

  // ---- sizes ----

  lemma {:induction false} DataLength(size: Obj -> nat, cs: seq<Chunk>)
    requires Sized(size, cs)
    ensures |Data(cs)| == Total(size, Labels(cs))
  {
    if cs != [] {
      var front := cs[..|cs| - 1];
      DataLength(size, front);
      assert Labels(cs)[..|cs| - 1] == Labels(front);
    }
  }

  lemma {:induction false} TotalConcat(size: Obj -> nat, a: seq<Label>, b: seq<Label>)
    ensures Total(size, a + b) == Total(size, a) + Total(size, b)
  {
    if b == [] {
      assert a + b == a;
    } else {
      assert (a + b)[..|a + b| - 1] == a + b[..|b| - 1];
      TotalConcat(size, a, b[..|b| - 1]);
    }
  }

  lemma PrefixTotal(size: Obj -> nat, a: seq<Label>, b: seq<Label>)
    requires a <= b
    ensures Total(size, a) <= Total(size, b)
  {
    hide Total;
    TotalConcat(size, a, b[|a|..]);
    assert a + b[|a|..] == b;
  }

  lemma {:induction false} DataConcat(a: seq<Chunk>, b: seq<Chunk>)
    ensures Data(a + b) == Data(a) + Data(b)
  {
    if b == [] {
      assert a + b == a;
    } else {
      assert (a + b)[..|a + b| - 1] == a + b[..|b| - 1];
      DataConcat(a, b[..|b| - 1]);
      Assoc(Data(a), Data(b[..|b| - 1]), b[|b| - 1].bytes);
    }
  }

  lemma Assoc(a: Bytes, b: Bytes, c: Bytes)
    ensures a + (b + c) == a + b + c
  {
  }

  /** No transfer is empty. */
  ghost predicate Positive(size: Obj -> nat, ls: seq<Label>) {
    forall k :: 0 <= k < |ls| ==> Len(size, ls[k]) > 0
  }

  lemma {:induction false} TotalPositive(size: Obj -> nat, ls: seq<Label>)
    requires Positive(size, ls)
    ensures Total(size, ls) >= |ls|
  {
    if ls != [] {
      TotalPositive(size, ls[..|ls| - 1]);
    }
  }

  // ---- matching ----

  /** As far as both go, sends and receives were posted in one order. */
  predicate InOneOrder(l: Link) {
    Labels(l.sent) <= l.posted || l.posted <= Labels(l.sent)
  }

  lemma DataPrefix(cs: seq<Chunk>, k: nat)
    requires k <= |cs|
    ensures Data(cs) == Data(cs[..k]) + Data(cs[k..])
  {
    hide Data;
    DataConcat(cs[..k], cs[k..]);
    assert cs[..k] + cs[k..] == cs;
  }

  lemma DataHead(cs: seq<Chunk>)
    requires cs != []
    ensures cs[0].bytes <= Data(cs)
  {
    DataPrefix(cs, 1);
    assert cs[..1][..0] == [];
    assert Data(cs[..1]) == [] + cs[0].bytes;
  }

  /** Received so far and sent so far agree in the first `k` transfers. */
  ghost predicate Agree(l: Link, k: nat) {
    k <= |l.got| && k <= |l.sent| && l.got[..k] == l.sent[..k]
  }

  /** Where the next receive reads if all before it agree. */
  lemma AtOffset(size: Obj -> nat, l: Link, k: nat)
    requires Conserved(size, l) && Agree(l, k)
    ensures k < |l.got| ==> l.got[k].bytes <= Data(l.sent[k..])
    ensures k < |l.sent| ==> l.sent[k].bytes <= Data(l.sent[k..])
    ensures k == |l.sent| ==> Data(l.sent[k..]) == []
  {
    DataPrefix(l.got, k);
    DataPrefix(l.sent, k);
    hide Data;
    Assoc(Data(l.got[..k]), Data(l.got[k..]), l.wire);
    assert Data(l.got[k..]) + l.wire == Data(l.sent[k..]) by {
      Cancel(Data(l.got[..k]), Data(l.got[k..]) + l.wire, Data(l.sent[k..]));
    }
    if k < |l.got| {
      DataHead(l.got[k..]);
    }
    if k < |l.sent| {
      DataHead(l.sent[k..]);
    }
    if k == |l.sent| {
      DataNothing(l.sent[k..]);
    }
  }

  lemma DataNothing(cs: seq<Chunk>)
    requires cs == []
    ensures Data(cs) == []
  {
  }

  lemma Cancel(a: Bytes, b: Bytes, c: Bytes)
    requires a + b == a + c
    ensures b == c
  {
    assert b == (a + b)[|a|..] && c == (a + c)[|a|..];
  }

  /** So far, receives were completed in the order of the sends. */
  predicate GotInOrder(l: Link) {
    forall k :: 0 <= k < |l.got| && k < |l.sent| ==> l.got[k].tag == l.sent[k].tag
  }

  lemma OneOrderGot(size: Obj -> nat, l: Link)
    requires Conserved(size, l) && InOneOrder(l)
    ensures GotInOrder(l)
  {
    forall k | 0 <= k < |l.got| && k < |l.sent| ensures l.got[k].tag == l.sent[k].tag {
      assert l.got[k].tag == Labels(l.got)[k] == l.posted[k];
      assert l.sent[k].tag == Labels(l.sent)[k];
    }
  }

  lemma {:induction false} OrderMatches(size: Obj -> nat, l: Link, k: nat)
    requires Conserved(size, l) && GotInOrder(l) && k <= |l.got| && Positive(size, Labels(l.got))
    ensures Agree(l, k)
  {
    if k > 0 {
      OrderMatches(size, l, k - 1);
      AtOffset(size, l, k - 1);
      OneMoreAgrees(size, l, k - 1);
    } else {
      assert l.got[..0] == l.sent[..0];
    }
  }

  lemma OneMoreAgrees(size: Obj -> nat, l: Link, k: nat)
    requires Conserved(size, l) && k < |l.got| && Positive(size, Labels(l.got)) && Agree(l, k)
    requires k < |l.sent| ==> l.got[k].tag == l.sent[k].tag
    requires l.got[k].bytes <= Data(l.sent[k..])
    requires k < |l.sent| ==> l.sent[k].bytes <= Data(l.sent[k..])
    requires k == |l.sent| ==> Data(l.sent[k..]) == []
    ensures Agree(l, k + 1)
  {
    hide Data;
    assert Len(size, Labels(l.got)[k]) > 0;
    if k < |l.sent| {
      assert l.got[k].bytes == Data(l.sent[k..])[..|l.got[k].bytes|] == l.sent[k].bytes;
      assert l.got[..k + 1] == l.got[..k] + [l.got[k]] && l.sent[..k + 1] == l.sent[..k] + [l.sent[k]];
    }
  }

  // ---- exactly when receives are right ----

  /** Every receive got exactly what was sent under its label. */
  ghost predicate AllRight(l: Link) {
    forall k :: 0 <= k < |l.got| ==> l.got[k] in l.sent
  }

  /** The contents can be told apart: none is the beginning of another. */
  ghost predicate Incomparable(cs: seq<Chunk>) {
    forall j, k :: 0 <= j < |cs| && 0 <= k < |cs| && j != k ==> !(cs[j].bytes <= cs[k].bytes)
  }

  lemma Comparable(a: Bytes, b: Bytes, c: Bytes)
    requires a <= c && b <= c
    ensures a <= b || b <= a
  {
    if |a| <= |b| {
      assert a == c[..|a|] == b[..|a|];
    } else {
      assert b == c[..|b|] == a[..|b|];
    }
  }

  lemma OnlySender(l: Link, k: nat, data: Bytes)
    requires AllRight(l) && Incomparable(l.sent) && k < |l.got| && k < |l.sent|
    requires l.got[k].bytes <= data && l.sent[k].bytes <= data
    ensures l.got[k] == l.sent[k]
  {
    var j :| 0 <= j < |l.sent| && l.sent[j] == l.got[k];
    Comparable(l.sent[j].bytes, l.sent[k].bytes, data);
  }

  lemma {:induction false} RightAgrees(size: Obj -> nat, l: Link, k: nat)
    requires Conserved(size, l) && AllRight(l) && Incomparable(l.sent) && k <= |l.got| && Positive(size, Labels(l.got))
    ensures Agree(l, k)
  {
    if k > 0 {
      RightAgrees(size, l, k - 1);
      AtOffset(size, l, k - 1);
      if k - 1 < |l.sent| {
        OnlySender(l, k - 1, Data(l.sent[k - 1..]));
      }
      hide *;
      OneMoreAgrees(size, l, k - 1);
    } else {
      assert l.got[..0] == l.sent[..0];
    }
  }

  /** Whatever else the stream carries and whatever the sizes are: for contents that can be told apart, every
      receive is right if and only if receives were completed in the order of the sends. */
  lemma RightIsExact(size: Obj -> nat, l: Link)
    requires Conserved(size, l) && Incomparable(l.sent) && Positive(size, Labels(l.got))
    ensures AllRight(l) <==> GotInOrder(l)
  {
    if AllRight(l) {
      RightAgrees(size, l, |l.got|);
      forall k | 0 <= k < |l.got| && k < |l.sent| ensures l.got[k].tag == l.sent[k].tag {
        assert l.got[k] == l.got[..|l.got|][k] && l.sent[k] == l.sent[..|l.got|][k];
      }
    }
    if GotInOrder(l) {
      OrderMatches(size, l, |l.got|);
      forall k | 0 <= k < |l.got| ensures l.got[k] in l.sent {
        assert l.got[k] == l.got[..|l.got|][k] == l.sent[..|l.got|][k] == l.sent[k];
      }
    }
  }

  // ---- transfers that cross ----

  /** A transfer is sent although the receiver waits for another one first. */
  predicate SendCrosses(l: Link, tag: Label) {
    |l.sent| < |l.posted| && l.posted[|l.sent|] != tag
  }

  /** A receive is posted although the bytes of another transfer come first. */
  predicate PostCrosses(l: Link, tag: Label) {
    |l.posted| < |l.sent| && l.sent[|l.posted|].tag != tag
  }

  /** Sends and receives stay in one order exactly if none crosses what is in flight; a crossing is for good. */
  lemma SendKeepsOrder(l: Link, c: Chunk)
    ensures InOneOrder(Sent(l, c)) <==> InOneOrder(l) && !SendCrosses(l, c.tag)
  {
    OrderAppend(Labels(l.sent), l.posted, c.tag);
    assert Labels(l.sent + [c]) == Labels(l.sent) + [c.tag];
  }

  lemma PostKeepsOrder(l: Link, tag: Label)
    ensures InOneOrder(Posted(l, tag)) <==> InOneOrder(l) && !PostCrosses(l, tag)
  {
    OrderAppend(l.posted, Labels(l.sent), tag);
  }

  lemma OrderAppend(a: seq<Label>, b: seq<Label>, x: Label)
    ensures (a + [x] <= b || b <= a + [x]) <==> ((a <= b || b <= a) && !(|a| < |b| && b[|a|] != x))
  {
    if a <= b && |a| < |b| && b[|a|] == x {
      assert b[..|a| + 1] == a + [x];
    }
    if b <= a {
      assert b == (a + [x])[..|b|];
    }
    if b <= a + [x] && |b| <= |a| {
      assert b == a[..|b|];
    }
    if a + [x] <= b {
      assert b[|a|] == (a + [x])[|a|] == x;
      assert a == (a + [x])[..|a|] == b[..|a|];
    }
  }
}
