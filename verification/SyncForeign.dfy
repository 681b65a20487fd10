/**
 Streams from nodes that own no round: they carry reads and maps only, begun in any order by either side, and
 all of them can be carried on to their end.
 */
module SyncForeign {
  import opened Seqs
  import opened Links
  import opened SyncProtocol
  import opened SyncLists
  import opened SyncInvariant
  import opened SyncDrained
  import opened SyncRuns
  import opened SyncSteps
  import opened SyncContents

  ghost predicate Foreign(size: Obj -> nat, link: Link) {
    && Conserved(size, link) && NoDup(link.posted) && NoDup(Labels(link.sent))
    && AllTransfers(link.posted) && AllTransfers(Labels(link.sent))
  }

  predicate AllTransfers(ls: seq<Label>) {
    forall l :: l in ls ==> l.Other? && l.len > 0
  }

  ghost predicate ForeignOk(cfg: Config, o: map<nat, Owner>) {
    forall m :: m in o && !Uses(cfg, m) ==> Foreign(cfg.size, o[m].link)
  }

  // ---- steps ----

  lemma NoDupMore(ls: seq<Label>, l: Label)
    requires NoDup(ls) && l !in ls
    ensures NoDup(ls + [l])
  {
  }

  lemma ForeignSends(size: Obj -> nat, link: Link, c: Chunk)
    requires Foreign(size, link) && Payload(c.tag, c.bytes) && c.tag !in Labels(link.sent)
    ensures Foreign(size, Sent(link, c))
  {
    ConservedSent(size, link, c);
    hide Conserved;
    NoDupMore(Labels(link.sent), c.tag);
    assert Labels(link.sent + [c]) == Labels(link.sent) + [c.tag];
  }

  lemma ForeignPosts(size: Obj -> nat, link: Link, l: Label)
    requires Foreign(size, link) && l.Other? && l.len > 0 && l !in link.posted
    ensures Foreign(size, Posted(link, l))
  {
    ConservedPosted(size, link, l);
    hide Conserved;
    NoDupMore(link.posted, l);
  }

  lemma ForeignReceives(size: Obj -> nat, link: Link)
    requires Foreign(size, link) && CanReceive(size, link)
    ensures Foreign(size, Received(size, link))
  {
    ConservedReceived(size, link);
    hide Conserved;
  }

  lemma ForeignPut(cfg: Config, o: map<nat, Owner>, m: nat, o': Owner)
    requires ForeignOk(cfg, o) && (!Uses(cfg, m) ==> Foreign(cfg.size, o'.link))
    ensures ForeignOk(cfg, o[m := o'])
  {
    hide Foreign, Uses;
  }

  lemma IsForeign(cfg: Config, o: map<nat, Owner>, m: nat)
    requires ForeignOk(cfg, o) && m in o && !Uses(cfg, m)
    ensures Foreign(cfg.size, o[m].link)
  {
  }

  /** What the transfer of another command does to a stream. */
  lemma ReadForeign(cfg: Config, a: Action, s: State)
    requires ForeignOk(cfg, s.o) && Enabled(cfg, a, s)
    requires a.ReadSend? || a.ReadSendAfter? || a.ReadPost? || a.ReadPostAfter?
    ensures ForeignOk(cfg, Apply(cfg, a, s).o)
  {
    hide ForeignOk, Foreign, Uses, MayRead, Conserved;
    var link := s.o[a.n].link;
    if !Uses(cfg, a.n) {
      IsForeign(cfg, s.o, a.n);
      if a.ReadSend? || a.ReadSendAfter? {
        ForeignSends(cfg.size, link, Chunk(a.tag, a.data));
      } else {
        if a.ReadPostAfter? {
          TransferOf(cfg.size, link, a.tag);
        }
        ForeignPosts(cfg.size, link, a.tag);
      }
    }
    ForeignPut(cfg, s.o, a.n, Apply(cfg, a, s).o[a.n]);
  }

  lemma TransferOf(size: Obj -> nat, link: Link, tag: Label)
    requires Foreign(size, link) && tag in Labels(link.sent)
    ensures tag.Other? && tag.len > 0
  {
  }

  lemma ReceiveForeign(cfg: Config, s: State, m: nat)
    requires ForeignOk(cfg, s.o) && Enabled(cfg, HReceive(m), s)
    ensures ForeignOk(cfg, Apply(cfg, HReceive(m), s).o)
  {
    hide ForeignOk, Foreign, Uses, Landed, CanReceive, Received;
    if !Uses(cfg, m) {
      IsForeign(cfg, s.o, m);
      ForeignReceives(cfg.size, s.o[m].link);
    }
    ForeignPut(cfg, s.o, m, Apply(cfg, HReceive(m), s).o[m]);
  }

  /** Rounds do not touch these streams. */
  lemma RoundForeign(cfg: Config, a: Action, s: State, m: nat)
    requires Enabled(cfg, a, s) && m in Apply(cfg, a, s).o && !Uses(cfg, m) && (m in s.o ==> Untouched(s.o[m]))
    requires a.OwnerWrites? || a.OSync? || a.OEnqueue? || a.OMap? || a.OSend? || a.OUnmap? || a.HSync? || a.HPost?
    requires a.HPost? ==> Uses(cfg, GetRound(cfg, RoundOf(s.h.loop[0])).owner)
    ensures m in s.o && Apply(cfg, a, s).o[m].link == s.o[m].link
  {
    hide Uses, Items;
  }

  lemma OtherForeign(cfg: Config, o: map<nat, Owner>, o': map<nat, Owner>)
    requires ForeignOk(cfg, o) && forall m :: m in o' && !Uses(cfg, m) ==> m in o && o'[m].link == o[m].link
    ensures ForeignOk(cfg, o')
  {
    hide Foreign, Uses;
  }

  lemma PostUses(cfg: Config, s: State, n: nat, q: nat)
    requires InvAt(cfg, s, n, q) && s.h.loop != []
    ensures Uses(cfg, GetRound(cfg, RoundOf(s.h.loop[0])).owner)
  {
    hide OwnersOk, TailsOk, LanesOk, TailAt, Present, SeenOk, Alone, DownOk;
    assert Fits(cfg, s.h.loop[0], n, q);
  }

  lemma ForeignStep(cfg: Config, a: Action, s: State, n: nat, q: nat)
    requires Inv(cfg, s, n, q) && ForeignOk(cfg, s.o) && Enabled(cfg, a, s)
    ensures ForeignOk(cfg, Apply(cfg, a, s).o)
  {
    if FarFromOwners(a) {
      hide Enabled, Apply, Inv, ForeignOk;
      SameOwners(cfg, a, s);
    } else if a.ReadSend? || a.ReadSendAfter? || a.ReadPost? || a.ReadPostAfter? {
      hide Enabled, Apply, Inv, ForeignOk;
      ReadForeign(cfg, a, s);
    } else if a.HReceive? {
      hide Enabled, Apply, Inv, ForeignOk;
      ReceiveForeign(cfg, s, a.n);
    } else {
      hide Apply, InvAt, ForeignOk, Uses, Told, MayRead, MayStart, OwnersTold;
      if a.HPost? {
        PostUses(cfg, s, n, q);
      }
      forall m | m in Apply(cfg, a, s).o && !Uses(cfg, m)
        ensures m in s.o && Apply(cfg, a, s).o[m].link == s.o[m].link
      {
        if m in s.o {
          TellsOwner(cfg, s, m);
        }
        RoundForeign(cfg, a, s, m);
      }
      OtherForeign(cfg, s.o, Apply(cfg, a, s).o);
    }
  }

  lemma InitForeign(cfg: Config, mems: map<nat, map<Obj, Bytes>>, wm: map<Obj, Bytes>)
    ensures ForeignOk(cfg, Init(mems, wm).o)
  {
    ConservedEmpty(cfg.size);
  }

  lemma {:induction false} RunForeign(cfg: Config, mems: map<nat, map<Obj, Bytes>>, wm: map<Obj, Bytes>,
          run: seq<Action>)
    requires WellFormed(cfg) && cfg.apart && Memory(cfg, mems) && Exec(cfg, Init(mems, wm), run).Some?
    ensures ForeignOk(cfg, Exec(cfg, Init(mems, wm), run).value.o)
    decreases |run|
  {
    hide Inv, WellFormed, Memory, Enabled, Apply, Init, ForeignOk;
    if run == [] {
      InitForeign(cfg, mems, wm);
    } else {
      var front, a := run[..|run| - 1], run[|run| - 1];
      RunForeign(cfg, mems, wm, front);
      var n, q := RunInv(cfg, mems, wm, front);
      ForeignStep(cfg, a, Exec(cfg, Init(mems, wm), front).value, n, q);
    }
  }

  lemma ReachableForeign(cfg: Config, run: seq<Action>, s: State)
    requires WellFormed(cfg) && cfg.apart && Reaches(cfg, run, s)
    ensures ForeignOk(cfg, s.o)
  {
    hide WellFormed, Memory, Exec, Init, ForeignOk;
    var mems, wm :| Memory(cfg, mems) && Exec(cfg, Init(mems, wm), run) == Some(s);
    RunForeign(cfg, mems, wm, run);
  }

  // ---- what is under way can be carried on ----

  lemma NotEmpty(ls: seq<Label>)
    ensures ls != [] ==> exists l :: l in ls
  {
    if ls != [] {
      assert ls[0] in ls;
    }
  }

  /** Two lists of the same labels have the same total. */
  lemma {:induction false} TotalSame(size: Obj -> nat, a: seq<Label>, b: seq<Label>)
    requires NoDup(a) && NoDup(b) && forall l :: l in a <==> l in b
    ensures Total(size, a) == Total(size, b)
    decreases |a|
  {
    if a == [] {
      NotEmpty(b);
    } else {
      var m := |a| - 1;
      assert a[m] in b;
      var k :| 0 <= k < |b| && b[k] == a[m];
      var rest := b[..k] + b[k + 1..];
      WithoutLabel(a, b, k);
      TotalSame(size, a[..m], rest);
      assert b == b[..k] + [b[k]] + b[k + 1..];
      TotalConcat(size, b[..k] + [b[k]], b[k + 1..]);
      TotalConcat(size, b[..k], [b[k]]);
      TotalConcat(size, b[..k], b[k + 1..]);
      TotalOne(size, b[k]);
    }
  }

  lemma WithoutLabel(a: seq<Label>, b: seq<Label>, k: nat)
    requires NoDup(a) && NoDup(b) && (forall l :: l in a <==> l in b) && a != [] && k < |b| && b[k] == a[|a| - 1]
    ensures var rest := b[..k] + b[k + 1..];
            NoDup(a[..|a| - 1]) && NoDup(rest) && forall l :: l in a[..|a| - 1] <==> l in rest
  {
    var rest, m := b[..k] + b[k + 1..], |a| - 1;
    forall i | 0 <= i < |rest| ensures rest[i] == b[if i < k then i else i + 1] {
    }
    assert a == a[..m] + [a[m]] && b == b[..k] + [b[k]] + b[k + 1..];
    forall l ensures l in a[..m] <==> l in a && l != a[m] {
    }
    forall l ensures l in rest <==> l in b && l != b[k] {
    }
  }

  lemma ForeignEnough(size: Obj -> nat, link: Link)
    requires Foreign(size, link) && Tail(link) != []
    requires forall l :: l in link.posted <==> l in Labels(link.sent)
    ensures CanReceive(size, link)
  {
    TotalSame(size, link.posted, Labels(link.sent));
    GotTotal(size, link);
    hide Data, Total, NoDup, AllTransfers;
    var k := |link.got|;
    assert link.posted == link.posted[..k] + [link.posted[k]] + link.posted[k + 1..];
    TotalConcat(size, link.posted[..k] + [link.posted[k]], link.posted[k + 1..]);
    TotalConcat(size, link.posted[..k], [link.posted[k]]);
    TotalOne(size, link.posted[k]);
  }

  /** The next step of the stream: a send or a receive that is still to be posted, or a receive. */
  lemma ForeignMoves(cfg: Config, s: State, m: nat, tag: Label) returns (a: Action)
    requires ForeignOk(cfg, s.o) && m in s.o && !Uses(cfg, m) && UnderWay(s.o[m].link, tag) && s.h.trigger == None
    ensures Enabled(cfg, a, s) && (a.ReadPostAfter? || a.ReadSendAfter? || a.HReceive?)
  {
    hide ForeignOk, Uses, Foreign, CanReceive, UnderWay, AllTransfers;
    var link := s.o[m].link;
    IsForeign(cfg, s.o, m);
    if t :| t in Labels(link.sent) && t !in link.posted {
      TransferOf(cfg.size, link, t);
      a := ReadPostAfter(m, t);
    } else if t :| t in link.posted && t !in Labels(link.sent) {
      PostedTransfer(cfg.size, link, t);
      a := ReadSendAfter(m, t, seq(t.len, _ => 0));
    } else {
      UnderWayTail(link, tag);
      ForeignEnough(cfg.size, link);
      a := HReceive(m);
    }
  }

  lemma PostedTransfer(size: Obj -> nat, link: Link, tag: Label)
    requires Foreign(size, link) && tag in link.posted
    ensures tag.Other? && tag.len > 0
  {
  }

  lemma UnderWayTail(link: Link, tag: Label)
    requires UnderWay(link, tag) && forall l :: l in link.posted <==> l in Labels(link.sent)
    ensures Tail(link) != []
  {
  }
}
