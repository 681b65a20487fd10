/** What an acquire sees of the owner's memory. */
module SyncMemory {
  import opened Seqs
  import opened Links
  import opened SyncProtocol
  import opened SyncLists
  import opened SyncInvariant
  import opened SyncDrained
  import opened SyncRuns
  import opened SyncSteps
  import opened SyncContents
  import opened SyncRounds
  import opened SyncDelivery

  // ---- runs, one after the other ----

  lemma {:induction false} ExecAppend(cfg: Config, s: State, a: seq<Action>, b: seq<Action>)
    requires Exec(cfg, s, a).Some?
    ensures Exec(cfg, s, a + b) == Exec(cfg, Exec(cfg, s, a).value, b)
    decreases |b|
  {
    hide Apply, Enabled;
    if b == [] {
      assert a + b == a;
    } else {
      assert (a + b)[..|a + b| - 1] == a + b[..|b| - 1];
      ExecAppend(cfg, s, a, b[..|b| - 1]);
    }
  }

  lemma Extends(cfg: Config, before: seq<Action>, s: State, run: seq<Action>, t: State)
    requires Reaches(cfg, before, s) && Exec(cfg, s, run) == Some(t)
    ensures Reaches(cfg, before + run, t)
  {
    hide Memory, Init, Exec;
    var mems, wm :| Memory(cfg, mems) && Exec(cfg, Init(mems, wm), before) == Some(s);
    ExecAppend(cfg, Init(mems, wm), before, run);
    assert Memory(cfg, mems) && Exec(cfg, Init(mems, wm), before + run) == Some(t);
  }

  /** The invariant of a run's continuations. */
  lemma {:induction false} RunOn(cfg: Config, s: State, n: nat, q: nat, run: seq<Action>) returns (n': nat, q': nat)
    requires WellFormed(cfg) && cfg.apart && Inv(cfg, s, n, q) && Exec(cfg, s, run).Some?
    ensures Inv(cfg, Exec(cfg, s, run).value, n', q')
    decreases |run|
  {
    hide Inv, WellFormed, Enabled, Apply;
    n', q' := n, q;
    if run != [] {
      var front := run[..|run| - 1];
      n', q' := RunOn(cfg, s, n, q, front);
      n', q' := InvStep(cfg, run[|run| - 1], Exec(cfg, s, front).value, n', q');
    }
  }

  /** A run begins with its first step. */
  lemma {:induction false} Started(cfg: Config, s: State, a: Action, run: seq<Action>)
    requires Exec(cfg, s, [a] + run).Some?
    ensures Enabled(cfg, a, s) && Exec(cfg, s, [a]) == Some(Apply(cfg, a, s))
    ensures Exec(cfg, Apply(cfg, a, s), run) == Exec(cfg, s, [a] + run)
    decreases |run|
  {
    hide Enabled, Apply;
    if run == [] {
      assert [a] + run == [a] && [a][..0] == [];
      assert Exec(cfg, s, [a][..0]) == Some(s);
    } else {
      assert ([a] + run)[..|[a] + run| - 1] == [a] + run[..|run| - 1];
      Started(cfg, s, a, run[..|run| - 1]);
    }
  }

  lemma TwoSteps(cfg: Config, s: State, a: Action, b: Action)
    requires Enabled(cfg, a, s) && Enabled(cfg, b, Apply(cfg, a, s))
    ensures Exec(cfg, s, [a, b]) == Some(Apply(cfg, b, Apply(cfg, a, s)))
  {
    hide Enabled, Apply;
    assert [a, b][..1] == [a] && [a][..0] == [];
    assert Exec(cfg, s, [a][..0]) == Some(s);
    assert Exec(cfg, s, [a]) == Some(Apply(cfg, a, s));
  }

  // ---- an object that is not written ----

  predicate Writes(a: Action, m: nat, x: Obj) {
    a.OwnerWrites? && a.n == m && a.x == x
  }

  /** Between `s` and `t`, object `x` of owner `m` did not change, and every new release of it read it. */
  ghost predicate Unwritten(cfg: Config, s: State, t: State, m: nat, x: Obj) {
    && m in s.o && x in s.o[m].mem && m in t.o && x in t.o[m].mem && t.o[m].mem[x] == s.o[m].mem[x]
    && (forall l :: l in s.released ==> l in t.released && t.released[l] == s.released[l])
    && (forall l :: l in t.released && l !in s.released && ObjectOf(l) == x && GetRound(cfg, RoundOf(l)).owner == m ==>
          t.released[l] == s.o[m].mem[x])
  }

  predicate Maps(a: Action) {
    a.OMap? || a.OwnerWrites?
  }

  lemma OtherSteps(cfg: Config, a: Action, s: State, m: nat, x: Obj)
    requires Enabled(cfg, a, s) && !Maps(a) && m in s.o && x in s.o[m].mem
    ensures Unwritten(cfg, s, Apply(cfg, a, s), m, x)
  {
    if FarFromOwners(a) {
      hide Enabled, Apply;
      SameOwners(cfg, a, s);
    } else {
      hide Enabled, Received, Landed, GetRound, Items;
    }
  }

  lemma MapStepReads(cfg: Config, s: State, n: nat, q: nat, p: nat, m: nat, x: Obj)
    requires WellFormed(cfg) && Inv(cfg, s, n, q) && Enabled(cfg, OMap(p), s) && m in s.o && x in s.o[m].mem
    ensures Unwritten(cfg, s, Apply(cfg, OMap(p), s), m, x)
  {
    hide InvAt, OwnerTold, HasMapped, UpOk, WellFormed, LandedTold, CacheTold, GotTold, Window, MemoryTold, AfterEvent,
      InstalledTold, Uses;
    TellsOwner(cfg, s, p);
    OwnerIsOk(cfg, s, n, q, p);
    NewRelease(cfg, p, s.o[p], Part(s.h, p, n));
    var l := Head(s.o[p].lane);
    assert l in s.released ==> Released(cfg, s.o, l);
  }

  lemma QuietStep(cfg: Config, a: Action, s: State, n: nat, q: nat, m: nat, x: Obj)
    requires WellFormed(cfg) && Inv(cfg, s, n, q) && Enabled(cfg, a, s) && !Writes(a, m, x) && m in s.o
             && x in s.o[m].mem
    ensures Unwritten(cfg, s, Apply(cfg, a, s), m, x)
  {
    hide Inv, WellFormed;
    if a.OMap? {
      hide Unwritten, Apply, Enabled;
      MapStepReads(cfg, s, n, q, a.n, m, x);
    } else if !a.OwnerWrites? {
      hide Unwritten, Apply, Enabled;
      OtherSteps(cfg, a, s, m, x);
    }
  }

  lemma UnwrittenTrans(cfg: Config, s: State, t: State, u: State, m: nat, x: Obj)
    requires Unwritten(cfg, s, t, m, x) && Unwritten(cfg, t, u, m, x)
    ensures Unwritten(cfg, s, u, m, x)
  {
  }

  /** While nothing writes an object on its owner, every release of it reads its present contents. */
  lemma {:induction false} QuietOwner(cfg: Config, s: State, n: nat, q: nat, run: seq<Action>, m: nat, x: Obj)
    requires WellFormed(cfg) && cfg.apart && Inv(cfg, s, n, q) && Exec(cfg, s, run).Some? && m in s.o && x in s.o[m].mem
    requires forall i :: 0 <= i < |run| ==> !Writes(run[i], m, x)
    ensures Unwritten(cfg, s, Exec(cfg, s, run).value, m, x)
    decreases |run|
  {
    hide Inv, WellFormed, Enabled, Apply;
    if run != [] {
      var front, a := run[..|run| - 1], run[|run| - 1];
      QuietOwner(cfg, s, n, q, front, m, x);
      var t := Exec(cfg, s, front).value;
      var n', q' := RunOn(cfg, s, n, q, front);
      assert t.o[m].mem[x] == s.o[m].mem[x];
      QuietStep(cfg, a, t, n', q', m, x);
      UnwrittenTrans(cfg, s, t, Apply(cfg, a, t), m, x);
    }
  }

  // ---- an object that is not written on the waiting node ----

  /** The step writes the object on the waiting node, other than by acquiring it. */
  predicate Overwrites(cfg: Config, a: Action, s: State, x: Obj) {
    || (a.WaiterWrites? && a.x == x)
    || (a.WReceive? && CanReceive(cfg.size, s.w.link)
        && var tag := Next(cfg.size, s.w.link).tag; tag.Other? && tag.place.obj == x)
  }

  predicate Installs(a: Action, s: State, x: Obj) {
    a.WUnmap? && LaneOf(s.w, a.q).pos < |LaneOf(s.w, a.q).log| && ObjectOf(Head(LaneOf(s.w, a.q))) == x
  }

  /** An object is kept exactly from its acquire until something writes it. */
  lemma KeptStep(cfg: Config, a: Action, s: State, x: Obj)
    requires Enabled(cfg, a, s)
    ensures x in Apply(cfg, a, s).w.kept <==> Installs(a, s, x) || (x in s.w.kept && !Overwrites(cfg, a, s, x))
  {
    if OfWaiter(a) || a.WaiterWrites? {
      hide Received, Patched;
    } else {
      hide Enabled, Apply;
      SameKeptSet(cfg, a, s);
    }
  }

  lemma SameKeptSet(cfg: Config, a: Action, s: State)
    requires Enabled(cfg, a, s) && !OfWaiter(a) && !a.WaiterWrites?
    ensures Apply(cfg, a, s).w.kept == s.w.kept
  {
    hide Enabled, Received, Landed, Transmitted, Outgoing, WaiterReceived, Items, GetRound;
  }

  lemma {:induction false} StaysKept(cfg: Config, s: State, run: seq<Action>, x: Obj)
    requires x in s.w.kept && Exec(cfg, s, run).Some?
    requires forall i :: 0 <= i < |run| && Exec(cfg, s, run[..i]).Some? ==>
               !Overwrites(cfg, run[i], Exec(cfg, s, run[..i]).value, x)
    ensures x in Exec(cfg, s, run).value.w.kept
    decreases |run|
  {
    hide Enabled, Apply, Overwrites, Installs;
    if run != [] {
      var front := run[..|run| - 1];
      forall i | 0 <= i < |front| && Exec(cfg, s, front[..i]).Some?
        ensures !Overwrites(cfg, front[i], Exec(cfg, s, front[..i]).value, x)
      {
        assert front[..i] == run[..i];
      }
      StaysKept(cfg, s, front, x);
      KeptStep(cfg, run[|run| - 1], Exec(cfg, s, front).value, x);
    }
  }

  /** A step that neither installs nor overwrites an object leaves it alone on the waiting node. */
  lemma LeftAlone(cfg: Config, a: Action, s: State, x: Obj)
    requires Enabled(cfg, a, s) && !Installs(a, s, x) && !Overwrites(cfg, a, s, x) && x in s.w.mem
    ensures x in Apply(cfg, a, s).w.mem && Apply(cfg, a, s).w.mem[x] == s.w.mem[x]
  {
    if OfWaiter(a) || a.WaiterWrites? {
      hide Received, Patched;
    } else {
      hide Enabled, Apply;
      SameWaiterMemory(cfg, a, s);
    }
  }

  lemma SameWaiterMemory(cfg: Config, a: Action, s: State)
    requires Enabled(cfg, a, s) && !OfWaiter(a) && !a.WaiterWrites?
    ensures Apply(cfg, a, s).w.mem == s.w.mem
  {
    hide Enabled, Received, Landed, Transmitted, Outgoing, WaiterReceived, Items, GetRound, LaneOf, Posted, Sent, Head,
      Enqueued, Unmapped;
    if !FarFromOwners(a) {
    } else {
      hide Put;
    }
  }

  /** No step of the run installs or overwrites the object. */
  ghost predicate Leaves(cfg: Config, s: State, run: seq<Action>, x: Obj) {
    if run == [] then true else
    var front, a := run[..|run| - 1], run[|run| - 1];
    && Leaves(cfg, s, front, x)
    && (Exec(cfg, s, front).Some? ==>
          !Overwrites(cfg, a, Exec(cfg, s, front).value, x) && !Installs(a, Exec(cfg, s, front).value, x))
  }

  lemma {:induction false} LeftByRun(cfg: Config, s: State, run: seq<Action>, x: Obj)
    requires Exec(cfg, s, run).Some? && Leaves(cfg, s, run, x) && x in s.w.mem
    ensures x in Exec(cfg, s, run).value.w.mem && Exec(cfg, s, run).value.w.mem[x] == s.w.mem[x]
    decreases |run|
  {
    hide Enabled, Apply, Overwrites, Installs;
    if run != [] {
      LeftByRun(cfg, s, run[..|run| - 1], x);
      LeftAlone(cfg, run[|run| - 1], Exec(cfg, s, run[..|run| - 1]).value, x);
    }
  }

  /** What a command writes on the waiting node is there, over any run, until something else is written or
      acquired there. */
  lemma WrittenStays(cfg: Config, s: State, x: Obj, data: Bytes, run: seq<Action>)
    requires |data| == cfg.size(x)
    ensures var u, t := Exec(cfg, s, [WaiterWrites(x, data)]), Exec(cfg, s, [WaiterWrites(x, data)] + run);
            u.Some? && (t.Some? && Leaves(cfg, u.value, run, x) ==> x in t.value.w.mem && t.value.w.mem[x] == data)
  {
    var a := WaiterWrites(x, data);
    SingleStep(cfg, s, a);
    if Exec(cfg, s, [a] + run).Some? && Leaves(cfg, Apply(cfg, a, s), run, x) {
      Started(cfg, s, a, run);
      hide Leaves, Exec, Enabled;
      LeftByRun(cfg, Apply(cfg, a, s), run, x);
    }
  }

  lemma SingleStep(cfg: Config, s: State, a: Action)
    requires Enabled(cfg, a, s)
    ensures Exec(cfg, s, [a]) == Some(Apply(cfg, a, s))
  {
    hide Enabled, Apply;
    assert [a][..0] == [];
    assert Exec(cfg, s, [a][..0]) == Some(s);
  }

  // ---- from end to end ----

  /** End to end: if nothing writes an object on its owner after state `s`, then an acquire of the object whose
      release came after `s` gives the waiting node exactly the owner's contents of the object in `s`, until
      something writes the object there. */
  lemma AcquireSeesOwner(cfg: Config, before: seq<Action>, s: State, run: seq<Action>, t: State, k: nat)
    requires WellFormed(cfg) && cfg.apart && Reaches(cfg, before, s) && Exec(cfg, s, run) == Some(t)
    requires k < |t.w.installed| && LastOf(t.w.installed, k) && t.w.installed[k].tag !in s.released
    requires ObjectOf(t.w.installed[k].tag) in t.w.kept
    requires var r := GetRound(cfg, RoundOf(t.w.installed[k].tag)); r.own == r.wait
    requires var r, x := GetRound(cfg, RoundOf(t.w.installed[k].tag)), ObjectOf(t.w.installed[k].tag);
             r.owner in s.o && x in s.o[r.owner].mem && forall i :: 0 <= i < |run| ==> !Writes(run[i], r.owner, x)
    ensures var m, x := GetRound(cfg, RoundOf(t.w.installed[k].tag)).owner, ObjectOf(t.w.installed[k].tag);
            x in t.w.mem && t.w.mem[x] == s.o[m].mem[x]
  {
    hide WellFormed, Reaches, Inv, Exec;
    var n, q := Reachable(cfg, before, s);
    Extends(cfg, before, s, run, t);
    Delivery(cfg, before + run, t, k);
    QuietOwner(cfg, s, n, q, run, GetRound(cfg, RoundOf(t.w.installed[k].tag)).owner, ObjectOf(t.w.installed[k].tag));
  }

  /** So what a command writes on the owner is what an acquire released after it brings to the waiting node, if
      no other command of the owner writes the object meanwhile. */
  lemma WrittenIsAcquired(cfg: Config, before: seq<Action>, s: State, m: nat, x: Obj, data: Bytes, run: seq<Action>,
                          t: State, k: nat)
    requires WellFormed(cfg) && cfg.apart && Reaches(cfg, before, s)
    requires Exec(cfg, s, [OwnerWrites(m, x, data)] + run) == Some(t)
    requires forall i :: 0 <= i < |run| ==> !Writes(run[i], m, x)
    requires k < |t.w.installed| && LastOf(t.w.installed, k) && t.w.installed[k].tag !in s.released
    requires ObjectOf(t.w.installed[k].tag) == x && x in t.w.kept
    requires var r := GetRound(cfg, RoundOf(t.w.installed[k].tag)); r.owner == m && r.own == r.wait
    ensures x in t.w.mem && t.w.mem[x] == data
  {
    var a := OwnerWrites(m, x, data);
    hide WellFormed, Reaches, Exec, Apply, Enabled, Writes, LastOf;
    Started(cfg, s, a, run);
    Wrote(cfg, s, m, x, data);
    var u := Apply(cfg, a, s);
    Extends(cfg, before, s, [a], u);
    AcquireSeesOwner(cfg, before + [a], u, run, t, k);
  }

  lemma Wrote(cfg: Config, s: State, m: nat, x: Obj, data: Bytes)
    requires Enabled(cfg, OwnerWrites(m, x, data), s)
    ensures var u := Apply(cfg, OwnerWrites(m, x, data), s);
            u.released == s.released && m in u.o && x in u.o[m].mem && u.o[m].mem[x] == data
  {
  }
}
