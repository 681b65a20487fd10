/**
 The queue of transfers of one data stream in one direction. Callers post transfers from any thread; one loop
 at a time performs them. The loop owns a queue of its own and swaps it with the shared one when it is empty.
 */
module DataStreams {
  import opened Seqs

  /** `shared`: the queue that callers append to. `own`: the queue of the running loop, its first transfer being
      the current one. `finished`: the transfers done, in order. */
  datatype State = State(active: bool, shared: seq<nat>, own: seq<nat>, finished: seq<nat>)

  const INITIAL := State(false, [], [], [])

  /** `Refill` is the locked part of the loop's next turn, when its own queue is empty. */
  datatype Action = Post(x: nat) | Finish | Refill

  predicate Enabled(s: State, a: Action) {
    match a
    case Post(_) => true
    case Finish => s.own != []
    case Refill => s.active && s.own == []
  }

  function Apply(s: State, a: Action): State
    requires Enabled(s, a)
  {
    match a
    case Post(x) => if s.active then s.(shared := s.shared + [x]) else s.(active := true, own := [x])
    case Finish => s.(own := s.own[1..], finished := s.finished + [s.own[0]])
    case Refill => if s.shared == [] then s.(active := false) else s.(own := s.shared, shared := [])
  }

  function Exec(run: seq<Action>): Option<State> {
    if run == [] then Some(INITIAL) else
    var s, a := Exec(run[..|run| - 1]), run[|run| - 1];
    if s.Some? && Enabled(s.value, a) then Some(Apply(s.value, a)) else None
  }

  function Posted(run: seq<Action>): seq<nat> {
    if run == [] then []
    else Posted(run[..|run| - 1]) + if run[|run| - 1].Post? then [run[|run| - 1].x] else []
  }

  lemma Conserved(s: State, a: Action)
    requires Enabled(s, a) && (!s.active ==> s.own == [] && s.shared == [])
    ensures var t := Apply(s, a);
            && t.finished + t.own + t.shared == s.finished + s.own + s.shared + (if a.Post? then [a.x] else [])
            && (!t.active ==> t.own == [] && t.shared == [])
  {
    match a
    case Post(x) =>
      assert s.finished + s.own + (s.shared + [x]) == s.finished + s.own + s.shared + [x];
      assert s.finished + [] + [] + [x] == s.finished + [x] + [];
    case Finish =>
      assert s.own == [s.own[0]] + s.own[1..];
      assert s.finished + [s.own[0]] + s.own[1..] == s.finished + s.own;
    case Refill =>
      assert s.finished + s.shared + [] == s.finished + [] + s.shared;
  }

  /** Over any interleaving of callers and loop, transfers are performed in the order in which they were
      posted, none is lost, and the loop runs as long as there is one. */
  lemma {:induction false} FirstInFirstOut(run: seq<Action>)
    requires Exec(run).Some?
    ensures var s := Exec(run).value;
            && s.finished + s.own + s.shared == Posted(run) && s.finished <= Posted(run)
            && (!s.active ==> s.finished == Posted(run))
            && (s.active ==> Enabled(s, Finish) || Enabled(s, Refill))
  {
    if run != [] {
      var front, a := run[..|run| - 1], run[|run| - 1];
      FirstInFirstOut(front);
      var s := Exec(front).value;
      Idle(front);
      Conserved(s, a);
    }
    Idle(run);
    assert Exec(run).value.finished + [] + [] == Exec(run).value.finished;
  }

  lemma {:induction false} Idle(run: seq<Action>)
    requires Exec(run).Some?
    ensures var s := Exec(run).value; !s.active ==> s.own == [] && s.shared == []
  {
    if run != [] {
      Idle(run[..|run| - 1]);
      hide Exec, Apply, Enabled;
      Conserved(Exec(run[..|run| - 1]).value, run[|run| - 1]);
    }
  }

  /** What is left for the loop to do. */
  function Left(s: State): nat {
    2 * (|s.own| + |s.shared|) + (if s.own == [] && s.shared != [] then 1 else 0) + if s.active then 1 else 0
  }

  /** From every state that a run reaches, the loop can go on until it has performed all transfers, and then it
      ends; so whatever is posted can be performed. */
  lemma {:induction false} AllPerformed(run: seq<Action>) returns (more: seq<Action>)
    requires Exec(run).Some?
    ensures Exec(run + more).Some? && Posted(run + more) == Posted(run)
    ensures var s := Exec(run + more).value; !s.active && s.finished == Posted(run)
    decreases Left(Exec(run).value)
  {
    FirstInFirstOut(run);
    var s := Exec(run).value;
    if !s.active {
      more := [];
      assert run + [] == run;
    } else {
      var a := if s.own != [] then Finish else Refill;
      OneMore(run, a);
      more := AllPerformed(run + [a]);
      assert run + [a] + more == run + ([a] + more);
      more := [a] + more;
    }
  }

  lemma OneMore(run: seq<Action>, a: Action)
    requires Exec(run).Some? && Enabled(Exec(run).value, a)
    ensures Exec(run + [a]) == Some(Apply(Exec(run).value, a))
    ensures Posted(run + [a]) == Posted(run) + if a.Post? then [a.x] else []
  {
    hide Enabled, Apply;
    assert (run + [a])[..|run|] == run;
  }

  /** Anything can be posted at any time. */
  lemma {:induction false} PostAll(run: seq<Action>, xs: seq<nat>) returns (more: seq<Action>)
    requires Exec(run).Some?
    ensures Exec(run + more).Some? && Posted(run + more) == Posted(run) + xs
  {
    if xs == [] {
      more := [];
      assert run + [] == run;
    } else {
      more := PostAll(run, xs[..|xs| - 1]);
      OneMore(run + more, Post(xs[|xs| - 1]));
      assert run + more + [Post(xs[|xs| - 1])] == run + (more + [Post(xs[|xs| - 1])]);
      assert Posted(run) + xs[..|xs| - 1] + [xs[|xs| - 1]] == Posted(run) + xs;
      more := more + [Post(xs[|xs| - 1])];
    }
  }

  class DataStream {
    var receiving: bool
    var readq: seq<nat>
    /** The queue that is handed from one turn of the loop to the next. */
    var loopq: seq<nat>
    ghost var finished: seq<nat>

    ghost function View(): State
      reads this
    {
      State(receiving, readq, loopq, finished)
    }

    constructor ()
      ensures View() == INITIAL
    {
      receiving, readq, loopq, finished := false, [], [], [];
    }

    method Read(x: nat)
      modifies this
      ensures View() == Apply(old(View()), Post(x))
    {
      if receiving {
        readq := readq + [x];
      } else {
        receiving, loopq := true, [x];
      }
    }

    /** The beginning of a turn; true if there is a transfer to start. */
    method StartRead() returns (started: bool)
      requires receiving
      modifies this
      ensures View() == if old(loopq) == [] then Apply(old(View()), Refill) else old(View())
      ensures started == (loopq != []) == receiving
    {
      started := true;
      if loopq == [] {
        if readq == [] {
          receiving, started := false, false;
        } else {
          readq, loopq := loopq, readq;
        }
      }
    }

    /** The end of a transfer. */
    method HandleRead()
      requires loopq != []
      modifies this
      ensures View() == Apply(old(View()), Finish)
    {
      finished := finished + [loopq[0]];
      loopq := loopq[1..];
    }
  }
}
