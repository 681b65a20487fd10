/**
 Exactly which applications are safe: the conditions on list orders, and on what may be under way together,
 under which every run delivers to every object its own contents.
 */
module SyncExact {
  import opened Seqs
  import opened Links
  import opened SyncProtocol
  import opened SyncLists
  import opened SyncInvariant
  import opened SyncRuns
  import opened SyncSteps
  import opened SyncContents
  import opened SyncRounds
  import opened SyncDelivery
  import opened SyncMemory
  import opened SyncProgress
  import opened SyncBounds

  /** In every run, whatever was acquired for an object is what was released for it. */
  ghost predicate AlwaysRight(cfg: Config) {
    forall run, s, c :: Reaches(cfg, run, s) && c in s.w.installed ==> Right(s, c)
  }

  /** Owner and waiting node list the objects of every round alike. */
  ghost predicate OneOrder(cfg: Config) {
    forall r {:trigger cfg.rounds[r]} :: 0 <= r < |cfg.rounds| ==> cfg.rounds[r].own == cfg.rounds[r].wait
  }

  // ---- memories ----

  /** The nodes that the host has to do with, besides the waiting node. */
  ghost function Owners(cfg: Config): set<nat> {
    (set r | 0 <= r < |cfg.rounds| :: cfg.rounds[r].owner) + (set p | p in cfg.readFrom + cfg.maps :: p.0)
  }

  ghost function Objects(cfg: Config): set<Obj> {
    set r, x | 0 <= r < |cfg.rounds| && x in cfg.rounds[r].own :: x
  }

  function Fill(n: nat, b: byte): (data: Bytes)
    ensures |data| == n && forall i :: 0 <= i < n ==> data[i] == b
  {
    seq(n, _ => b)
  }

  /** Object `y` full of ones, all others full of zeros. */
  ghost function Marked(cfg: Config, y: Obj): map<nat, map<Obj, Bytes>> {
    map n | n in Owners(cfg) :: map x | x in Objects(cfg) :: Fill(cfg.size(x), if x == y then 1 else 0)
  }

  lemma MarkedIsMemory(cfg: Config, y: Obj)
    ensures Memory(cfg, Marked(cfg, y))
  {
  }

  // ---- list orders ----

  lemma NoneWritten(run: seq<Action>, m: nat, x: Obj)
    requires Commands(run) == 0
    ensures forall i :: 0 <= i < |run| ==> !Writes(run[i], m, x)
  {
    if run != [] {
      NoneWritten(run[..|run| - 1], m, x);
      assert run == run[..|run| - 1] + [run[|run| - 1]];
    }
  }

  /** A complete run over marked memory. */
  lemma MarkedRun(cfg: Config, y: Obj) returns (run: seq<Action>, t: State)
    requires WellFormed(cfg) && cfg.apart
    ensures Reaches(cfg, run, t) && Final(cfg, t)
    ensures forall l :: l in t.released && l.Item? && l.round < |cfg.rounds| && l.obj in List(cfg, AtOwner, l.round) ==>
              t.released[l] == Fill(cfg.size(l.obj), if l.obj == y then 1 else 0)
  {
    hide WellFormed, Memory, Final, Inv, Writes, Unwritten;
    var mems := Marked(cfg, y);
    var s := Init(mems, map[]);
    MarkedIsMemory(cfg, y);
    assert Exec(cfg, s, []) == Some(s);
    assert Reaches(cfg, [], s) by {
      assert Memory(cfg, mems) && Exec(cfg, Init(mems, map[]), []) == Some(s);
    }
    run, t := CanFinish(cfg, [], s);
    Extends(cfg, [], s, run, t);
    assert [] + run == run;
    var n, q := Reachable(cfg, [], s);
    forall l | l in t.released && l.Item? && l.round < |cfg.rounds| && l.obj in List(cfg, AtOwner, l.round)
      ensures t.released[l] == Fill(cfg.size(l.obj), if l.obj == y then 1 else 0)
    {
      var m := GetRound(cfg, l.round).owner;
      NoneWritten(run, m, l.obj);
      MarkedObject(cfg, y, l.round, l.obj);
      QuietOwner(cfg, s, n, q, run, m, l.obj);
      ReadsFirst(cfg, s, t, m, l);
    }
  }

  lemma MarkedObject(cfg: Config, y: Obj, r: nat, x: Obj)
    requires r < |cfg.rounds| && x in List(cfg, AtOwner, r)
    ensures var m, o := GetRound(cfg, r).owner, Init(Marked(cfg, y), map[]).o;
            m in o && x in o[m].mem && o[m].mem[x] == Fill(cfg.size(x), if x == y then 1 else 0)
  {
  }

  lemma ReadsFirst(cfg: Config, s: State, t: State, m: nat, l: Label)
    requires Unwritten(cfg, s, t, m, ObjectOf(l)) && l in t.released && l !in s.released
             && GetRound(cfg, RoundOf(l)).owner == m
    ensures t.released[l] == s.o[m].mem[ObjectOf(l)]
  {
  }

  /** Two lists that differ, differ first somewhere. */
  lemma {:induction false} FirstDifference(a: seq<Obj>, b: seq<Obj>) returns (i: nat)
    requires a != b && |a| == |b|
    ensures i < |a| && a[i] != b[i] && a[..i] == b[..i]
  {
    if a[0] != b[0] {
      i := 0;
    } else {
      assert a == [a[0]] + a[1..] && b == [b[0]] + b[1..];
      i := FirstDifference(a[1..], b[1..]);
      assert a[..i + 1] == [a[0]] + a[1..][..i] && b[..i + 1] == [b[0]] + b[1..][..i];
      i := i + 1;
    }
  }

  lemma {:induction false} SameCount(a: seq<Obj>, b: seq<Obj>)
    requires Distinct(a) && Distinct(b) && Set(a) == Set(b)
    ensures |a| == |b|
    decreases |a|
  {
    if a == [] {
      NoObjects(a);
      NoObjects(b);
    } else {
      assert a[|a| - 1] in Set(b);
      var k :| 0 <= k < |b| && b[k] == a[|a| - 1];
      WithoutLast(a);
      Without(b, k);
      SameCount(a[..|a| - 1], b[..k] + b[k + 1..]);
    }
  }

  /** Two contents that begin differently are not at the same place. */
  lemma DifferAtOnce(a: Bytes, b: Bytes, c: Bytes, m: nat, n: nat)
    requires a == Fill(m, 0) && b == Fill(n, 1) && m > 0 && n > 0
    ensures !(a <= c && b <= c)
  {
    assert a[0] == 0 && b[0] == 1;
  }

  lemma TagOf(cs: seq<Chunk>, ls: seq<Label>, k: nat)
    requires Labels(cs) == ls && k < |cs|
    ensures k < |ls| && cs[k].tag == ls[k]
  {
    assert Labels(cs)[k] == cs[k].tag;
  }

  /** If all were right, the released and the acquired chunks would agree where the lists do. */
  lemma AgreeBefore(cfg: Config, s: State, r: nat, a: seq<Chunk>, b: seq<Chunk>, i: nat)
    requires Labels(a) == Items(cfg, AtOwner, r) && Labels(b) == Items(cfg, AtWaiter, r)
    requires i <= |a| && i <= |b| && List(cfg, AtOwner, r)[..i] == List(cfg, AtWaiter, r)[..i]
    requires (forall c :: c in a ==> Right(s, c)) && forall c :: c in b ==> Right(s, c)
    ensures b[..i] == a[..i]
  {
    forall k | 0 <= k < i ensures b[k] == a[k] {
      TagOf(a, Items(cfg, AtOwner, r), k);
      TagOf(b, Items(cfg, AtWaiter, r), k);
      assert List(cfg, AtOwner, r)[..i][k] == List(cfg, AtWaiter, r)[..i][k];
      assert a[k] in a && b[k] in b;
    }
  }

  lemma ReleasedRight(cfg: Config, s: State, n: nat, q: nat, r: nat)
    requires Inv(cfg, s, n, q) && r < |cfg.rounds|
    ensures forall c :: c in ReleasedOf(cfg, s, r) ==> Right(s, c)
  {
    hide InvAt, Told, InstalledTold, OfRound, MappedChunks;
    forall c | c in ReleasedOf(cfg, s, r) ensures Right(s, c) {
      ReleasedIsTold(cfg, s, n, q, r, c);
    }
  }

  /** A round that is listed in two orders has a complete run that goes wrong. */
  lemma OrderMatters(cfg: Config, r: nat) returns (run: seq<Action>, t: State, c: Chunk)
    requires WellFormed(cfg) && cfg.apart && r < |cfg.rounds| && cfg.rounds[r].own != cfg.rounds[r].wait
    ensures Reaches(cfg, run, t) && Final(cfg, t) && c in t.w.installed && !Right(t, c)
  {
    hide Inv, Reaches, Final, OfRound, MappedChunks, Conserved, Data, Positive;
    var own, wait := cfg.rounds[r].own, cfg.rounds[r].wait;
    assert WellFormedRound(cfg.rounds[r]);
    SameCount(own, wait);
    var i := FirstDifference(own, wait);
    run, t := MarkedRun(cfg, wait[i]);
    FinalIsAcquired(cfg, t, r);
    CompleteRound(cfg, run, t, r);
    var n, q := Reachable(cfg, run, t);
    if forall c :: c in AcquiredOf(t, r) ==> Right(t, c) {
      ReleasedRight(cfg, t, n, q, r);
      var a, b := ReleasedOf(cfg, t, r), AcquiredOf(t, r);
      AgreeBefore(cfg, t, r, a, b, i);
      var l := AsLink(cfg, t, n, q, r);
      TagOf(a, Items(cfg, AtOwner, r), i);
      TagOf(b, Items(cfg, AtWaiter, r), i);
      assert a[i] in a && b[i] in b;
      OneOf(cfg, r, wait[i]);
      assert cfg.size(own[i]) > 0 && cfg.size(wait[i]) > 0;
      DifferAtOnce(a[i].bytes, b[i].bytes, Data(a[i..]), cfg.size(own[i]), cfg.size(wait[i]));
      AtOffset(cfg.size, l, i);
    }
    c :| c in AcquiredOf(t, r) && !Right(t, c);
    InOfRound(t.w.installed, r, c);
  }

  lemma OneOf(cfg: Config, r: nat, x: Obj)
    requires WellFormed(cfg) && r < |cfg.rounds| && x in cfg.rounds[r].wait
    ensures x in cfg.rounds[r].own
  {
    assert WellFormedRound(cfg.rounds[r]);
    assert x in Set(cfg.rounds[r].wait);
  }

  lemma FinalIsAcquired(cfg: Config, t: State, r: nat)
    requires Final(cfg, t) && r < |cfg.rounds|
    ensures Acquired(t, r)
  {
    hide Unfinished;
  }

  /** For applications that start rounds and other transfers apart, with lists of any lengths, objects of any
      sizes and any list orders of the host: every run delivers to every object its own contents if and only
      if owner and waiting node list the objects of every round in one order. */
  lemma OneOrderIsExact(cfg: Config)
    requires WellFormed(cfg) && cfg.apart
    ensures AlwaysRight(cfg) <==> OneOrder(cfg)
  {
    if r: nat :| r < |cfg.rounds| && cfg.rounds[r].own != cfg.rounds[r].wait {
      var run, t, c := OrderMatters(cfg, r);
    } else {
      forall run, s, c | Reaches(cfg, run, s) && c in s.w.installed ensures Right(s, c) {
        InOrderIsRight(cfg, run, s, c);
      }
    }
  }

  lemma InOrderIsRight(cfg: Config, run: seq<Action>, s: State, c: Chunk)
    requires WellFormed(cfg) && cfg.apart && OneOrder(cfg) && Reaches(cfg, run, s) && c in s.w.installed
    ensures Right(s, c)
  {
    hide WellFormed, Reaches, Inv;
    var n, q := Reachable(cfg, run, s);
    InstalledItem(cfg, s, n, q, c);
    var k :| 0 <= k < |s.w.installed| && s.w.installed[k] == c;
    assert cfg.rounds[c.tag.round].own == cfg.rounds[c.tag.round].wait;
    Delivery(cfg, run, s, k);
  }

  // ---- an instance ----

  /** Outputs of a kernel: object 0 has four bytes, object 1 has eight. */
  function OutputSize(x: Obj): nat {
    if x == 0 then 4 else 8
  }

  /** One event with two objects, which the waiting node lists the other way round. */
  function TwoOutputs(): Config {
    Config([Round(0, 0, [0, 1], [0, 1], [1, 0])], OutputSize, {}, {}, {}, {}, {}, true)
  }

  lemma TwoOutputsWellFormed()
    ensures WellFormed(TwoOutputs())
  {
    var q := TwoOutputs().rounds[0];
    assert Set(q.own) == {0, 1} && Set(q.host) == {0, 1} && Set(q.wait) == {0, 1};
  }

  /** A complete run over contents that can be told apart, in which the four bytes of the one output and the
      first four of the other arrive as the first eight of the other. */
  lemma TwoOutputsGoWrong() returns (run: seq<Action>, s: State, c: Chunk)
    ensures Reaches(TwoOutputs(), run, s) && Final(TwoOutputs(), s) && Incomparable(ReleasedOf(TwoOutputs(), s, 0))
    ensures |AcquiredOf(s, 0)| == 2 && !OneOrderSoFar(TwoOutputs(), s, 0) && c in AcquiredOf(s, 0) && !Right(s, c)
  {
    hide Inv, Reaches, Final, OfRound, MappedChunks, Data;
    var cfg := TwoOutputs();
    TwoOutputsWellFormed();
    run, s := MarkedRun(cfg, 1);
    FinalIsAcquired(cfg, s, 0);
    CompleteRound(cfg, run, s, 0);
    var n, q := Reachable(cfg, run, s);
    ReleasedRight(cfg, s, n, q, 0);
    var a := ReleasedOf(cfg, s, 0);
    TagOf(a, Items(cfg, AtOwner, 0), 0);
    TagOf(a, Items(cfg, AtOwner, 0), 1);
    assert a[0] in a && a[1] in a;
    TwoContents(a[0].bytes, a[1].bytes);
    assert |AcquiredOf(s, 0)| == |Items(cfg, AtWaiter, 0)| == 2;
    assert cfg.rounds[0].wait[..2][0] != cfg.rounds[0].own[..2][0];
    SyncDelivery.OrderIsExact(cfg, run, s, 0);
    c :| c in AcquiredOf(s, 0) && !Right(s, c);
  }

  lemma TwoContents(a: Bytes, b: Bytes)
    requires a == Fill(4, 0) && b == Fill(8, 1)
    ensures !(a <= b) && !(b <= a)
  {
    assert a[0] == 0 && b[0] == 1;
  }
}
