/**
 The host's list of commands of a queue. Enqueuing prunes the completed commands; finishing takes the whole
 list away and waits for its commands one after the other, while others go on enqueuing and finishing.
 */
module LocalCommands {
  import opened Seqs

  // ---- the list itself ----

  class Command {
    var complete: bool

    constructor ()
      ensures !complete
    {
      complete := false;
    }
  }

  /** Those that are not complete, in order. */
  function Pruned<T(==)>(queue: seq<T>, complete: set<T>): (r: seq<T>)
    ensures (forall c :: c in r ==> c in queue && c !in complete) && forall c :: c in queue && c !in complete ==> c in r
  {
    if queue == [] then []
    else Pruned(queue[..|queue| - 1], complete) + if queue[|queue| - 1] in complete then [] else [queue[|queue| - 1]]
  }

  /** The elements of `a` are elements of `b`, in the same order. */
  ghost predicate Subsequence<T>(a: seq<T>, b: seq<T>)
    decreases |b|
  {
    a == [] ||
    (b != [] && (Subsequence(a, b[..|b| - 1])
                 || (a[|a| - 1] == b[|b| - 1] && Subsequence(a[..|a| - 1], b[..|b| - 1]))))
  }

  /** `kept` are those of `cs` that are not in `complete`, in their old order and each as often. */
  ghost predicate AreKept<T>(cs: seq<T>, complete: set<T>, kept: seq<T>) {
    && Subsequence(kept, cs) && (forall c :: c in kept ==> c in cs)
    && forall c :: c in cs ==> multiset(kept)[c] == if c in complete then 0 else multiset(cs)[c]
  }

  lemma KeptMore<T>(cs: seq<T>, complete: set<T>, kept: seq<T>, c: T)
    requires AreKept(cs, complete, kept)
    ensures AreKept(cs + [c], complete, if c in complete then kept else kept + [c])
  {
    SubsequenceMore(kept, cs, c);
    hide Subsequence;
    assert multiset(cs + [c]) == multiset(cs) + multiset{c};
    assert multiset(kept + [c]) == multiset(kept) + multiset{c};
  }

  lemma SubsequenceMore<T>(a: seq<T>, b: seq<T>, c: T)
    requires Subsequence(a, b)
    ensures Subsequence(a, b + [c]) && Subsequence(a + [c], b + [c])
  {
    assert (b + [c])[..|b|] == b && (a + [c])[..|a|] == a;
  }

  lemma {:induction false} PrunedAreKept<T>(queue: seq<T>, complete: set<T>)
    ensures AreKept(queue, complete, Pruned(queue, complete))
  {
    hide *;
    if queue == [] {
      NoneKept(queue, complete);
    } else {
      var front, last := queue[..|queue| - 1], queue[|queue| - 1];
      PrunedLast(queue, complete);
      PrunedAreKept(front, complete);
      KeptMore(front, complete, Pruned(front, complete), last);
      assert front + [last] == queue;
    }
  }

  lemma NoneKept<T>(queue: seq<T>, complete: set<T>)
    requires queue == []
    ensures AreKept(queue, complete, Pruned(queue, complete))
  {
  }

  lemma PrunedLast<T>(queue: seq<T>, complete: set<T>)
    requires queue != []
    ensures var front, last := Pruned(queue[..|queue| - 1], complete), queue[|queue| - 1];
            Pruned(queue, complete) == if last in complete then front else front + [last]
  {
  }

  function CompleteOf(cs: seq<Command>): set<Command>
    reads cs
  {
    set c | c in cs && c.complete
  }

  class CommandQueue {
    var commands: seq<Command>

    constructor ()
      ensures commands == []
    {
      commands := [];
    }

    method EnqueueCommand(command: Command)
      modifies this
      ensures commands == Pruned(old(commands), old(CompleteOf(commands))) + [command]
      ensures AreKept(old(commands), old(CompleteOf(commands)), commands[..|commands| - 1])
    {
      var kept := [];
      var i := 0;
      ghost var complete := CompleteOf(commands);
      hide AreKept;
      PrunedAreKept(commands, complete);
      while i < |commands|
        invariant 0 <= i <= |commands| && commands == old(commands)
        invariant kept == Pruned(commands[..i], complete)
      {
        assert commands[..i + 1][..i] == commands[..i];
        if !commands[i].complete {
          kept := kept + [commands[i]];
        }
        i := i + 1;
      }
      assert commands[..i] == commands;
      commands := kept + [command];
      assert commands[..|commands| - 1] == kept;
    }

    /** The first part of finishing. */
    method Take() returns (taken: seq<Command>)
      modifies this
      ensures taken == old(commands) && commands == []
    {
      taken, commands := commands, [];
    }
  }

  // ---- interleavings ----

  /** Commands are numbered in the order in which they are enqueued. `next`: the command that a finisher
      waits for. `before`: the number of commands enqueued when it took the list. */
  datatype Finisher = Finisher(list: seq<nat>, next: nat, before: nat)

  /** `since`: the number of commands enqueued when the list was last taken. */
  datatype State = State(count: nat, complete: set<nat>, queue: seq<nat>, since: nat, finishers: map<nat, Finisher>)

  const INITIAL := State(0, {}, [], 0, map[])

  datatype Action = Enqueue | Complete(c: nat) | Take(t: nat) | Await(t: nat) | Return(t: nat)

  predicate Enabled(s: State, a: Action) {
    match a
    case Enqueue => true
    case Complete(c) => c < s.count && c !in s.complete
    case Take(t) => t !in s.finishers
    case Await(t) => t in s.finishers && s.finishers[t].next < |s.finishers[t].list|
                     && s.finishers[t].list[s.finishers[t].next] in s.complete
    case Return(t) => MayReturn(s, t)
  }

  predicate MayReturn(s: State, t: nat) {
    t in s.finishers && s.finishers[t].next == |s.finishers[t].list|
  }

  function Apply(s: State, a: Action): State
    requires Enabled(s, a)
  {
    match a
    case Enqueue => s.(count := s.count + 1, queue := Pruned(s.queue, s.complete) + [s.count])
    case Complete(c) => s.(complete := s.complete + {c})
    case Take(t) => s.(queue := [], since := s.count, finishers := s.finishers[t := Finisher(s.queue, 0, s.count)])
    case Await(t) =>
      var f := s.finishers[t];
      s.(finishers := s.finishers[t := f.(next := f.next + 1)])
    case Return(t) => s.(finishers := s.finishers - {t})
  }

  function Exec(from: State, run: seq<Action>): Option<State> {
    if run == [] then Some(from) else
    var s, a := Exec(from, run[..|run| - 1]), run[|run| - 1];
    if s.Some? && Enabled(s.value, a) then Some(Apply(s.value, a)) else None
  }

  predicate Increasing(list: seq<nat>) {
    forall i, j :: 0 <= i < j < |list| ==> list[i] < list[j]
  }

  /** The list holds commands enqueued since it was last taken, in order, and all that are incomplete. */
  ghost predicate Inv(s: State) {
    && Increasing(s.queue) && s.since <= s.count
    && (forall c :: c in s.queue ==> s.since <= c < s.count)
    && (forall c :: s.since <= c < s.count && c !in s.complete ==> c in s.queue)
    && (forall c :: c in s.complete ==> c < s.count)
    && (forall t :: t in s.finishers ==> Waiting(s, s.finishers[t]))
  }

  ghost predicate Waiting(s: State, f: Finisher) {
    && f.next <= |f.list| && f.before <= s.since && (forall c :: c in f.list ==> c < f.before)
    && (forall c :: c in f.list[..f.next] ==> c in s.complete)
  }

  lemma {:induction false} PrunedIncreases(queue: seq<nat>, complete: set<nat>)
    requires Increasing(queue)
    ensures Increasing(Pruned(queue, complete))
  {
    if queue != [] {
      var front, last := queue[..|queue| - 1], queue[|queue| - 1];
      PrunedIncreases(front, complete);
      assert forall c :: c in front ==> c < last;
      var p := Pruned(front, complete);
      hide Increasing;
      IncreasingAppend(p, last);
    }
  }

  lemma IncreasingAppend(p: seq<nat>, last: nat)
    requires Increasing(p) && forall c :: c in p ==> c < last
    ensures Increasing(p + [last])
  {
    assert forall i :: 0 <= i < |p| ==> p[i] in p;
  }

  lemma StepInv(s: State, a: Action)
    requires Inv(s) && Enabled(s, a)
    ensures Inv(Apply(s, a))
  {
    hide Waiting;
    forall t | t in Apply(s, a).finishers ensures Waiting(Apply(s, a), Apply(s, a).finishers[t]) {
      StillWaiting(s, a, t);
    }
    if a.Enqueue? {
      PrunedIncreases(s.queue, s.complete);
      hide Pruned;
      hide Increasing;
      IncreasingAppend(Pruned(s.queue, s.complete), s.count);
    }
  }

  lemma StillWaiting(s: State, a: Action, t: nat)
    requires Inv(s) && Enabled(s, a) && t in Apply(s, a).finishers
    ensures Waiting(Apply(s, a), Apply(s, a).finishers[t])
  {
    hide Pruned;
    if t in s.finishers {
      assert Waiting(s, s.finishers[t]);
      if a == Await(t) {
        var f := s.finishers[t];
        assert f.list[..f.next + 1] == f.list[..f.next] + [f.list[f.next]];
      }
    }
  }

  lemma {:induction false} RunInv(from: State, run: seq<Action>)
    requires Inv(from) && Exec(from, run).Some?
    ensures Inv(Exec(from, run).value)
  {
    if run != [] {
      RunInv(from, run[..|run| - 1]);
      hide Inv, Enabled, Apply;
      StepInv(Exec(from, run[..|run| - 1]).value, run[|run| - 1]);
    }
  }

  /** Over any interleaving, the list holds every incomplete command enqueued since it was last taken, in
      the order of enqueuing. */
  lemma NoLostCommand(run: seq<Action>, c: nat)
    requires Exec(INITIAL, run).Some?
    ensures var s := Exec(INITIAL, run).value;
            && (s.since <= c < s.count && c !in s.complete ==> c in s.queue)
            && (c in s.queue ==> s.since <= c < s.count) && Increasing(s.queue)
  {
    RunInv(INITIAL, run);
  }

  // ---- what a return from finishing means ----

  /** Nobody else is still waiting for an incomplete command. */
  ghost predicate NothingElsewhere(s: State) {
    forall c :: c < s.count && c !in s.complete ==> c in s.queue
  }

  /** `more` contains no other call of finisher `t`. */
  predicate Without(more: seq<Action>, t: nat) {
    forall i :: 0 <= i < |more| ==> more[i] != Take(t) && more[i] != Return(t)
  }

  lemma {:induction false} Followed(s: State, t: nat, more: seq<Action>)
    requires Inv(s) && t !in s.finishers && Exec(Apply(s, Take(t)), more).Some? && Without(more, t)
    ensures var u := Exec(Apply(s, Take(t)), more).value;
            && t in u.finishers && u.finishers[t].list == s.queue && u.finishers[t].before == s.count
            && s.complete <= u.complete && s.count <= u.count
  {
    if more != [] {
      Followed(s, t, more[..|more| - 1]);
      assert more[|more| - 1] != Take(t) && more[|more| - 1] != Return(t);
    }
  }

  /** The finisher that took the list in state `s` returns in state `u`: everything enqueued before is complete. */
  ghost predicate Finished(s: State, u: State) {
    forall c :: c < s.count ==> c in u.complete
  }

  /** If only enqueues, completions and this one finisher are at work, finishing waits for all commands
      enqueued before. */
  lemma FinishWaitsForAll(s: State, t: nat, more: seq<Action>)
    requires Inv(s) && t !in s.finishers && NothingElsewhere(s)
    requires Exec(Apply(s, Take(t)), more + [Return(t)]).Some? && Without(more, t)
    ensures Finished(s, Exec(Apply(s, Take(t)), more + [Return(t)]).value)
  {
    ReturnsAfter(Apply(s, Take(t)), more, t);
    Followed(s, t, more);
    StepInv(s, Take(t));
    RunInv(Apply(s, Take(t)), more);
    var u := Exec(Apply(s, Take(t)), more).value;
    hide Exec;
    assert Waiting(u, u.finishers[t]);
    assert u.finishers[t].list[..u.finishers[t].next] == s.queue;
  }

  lemma ReturnsAfter(from: State, more: seq<Action>, t: nat)
    requires Exec(from, more + [Return(t)]).Some?
    ensures Exec(from, more).Some? && MayReturn(Exec(from, more).value, t)
    ensures Exec(from, more + [Return(t)]).value.complete == Exec(from, more).value.complete
  {
    assert (more + [Return(t)])[..|more|] == more;
  }

  // ---- with several finishers ----

  /** Completes and awaits the first `k` commands of the list. */
  function Drain(s: State, t: nat, k: nat): seq<Action>
    requires k <= |s.queue|
  {
    if k == 0 then []
    else Drain(s, t, k - 1) + (if s.queue[k - 1] in s.complete then [] else [Complete(s.queue[k - 1])]) + [Await(t)]
  }

  function Drained(s: State, t: nat, k: nat): State
    requires k <= |s.queue|
  {
    State(s.count, s.complete + Elements(s.queue[..k]), [], s.count, s.finishers[t := Finisher(s.queue, k, s.count)])
  }

  function Elements(list: seq<nat>): set<nat> {
    set c | c in list
  }

  lemma ExecAppend(from: State, run: seq<Action>, a: Action)
    requires Exec(from, run).Some? && Enabled(Exec(from, run).value, a)
    ensures Exec(from, run + [a]) == Some(Apply(Exec(from, run).value, a))
  {
    hide Enabled, Apply;
    assert (run + [a])[..|run + [a]| - 1] == run;
  }

  lemma {:induction false} DrainRun(s: State, t: nat, k: nat)
    requires Inv(s) && t !in s.finishers && k <= |s.queue|
    ensures Enabled(s, Take(t)) && Exec(Apply(s, Take(t)), Drain(s, t, k)) == Some(Drained(s, t, k))
  {
    hide *;
    DrainStart(s, t);
    if k > 0 {
      DrainRun(s, t, k - 1);
      DrainStep(s, t, k);
      DrainedMore(s, t, k, Apply(s, Take(t)));
    }
  }

  lemma DrainStart(s: State, t: nat)
    requires t !in s.finishers
    ensures Enabled(s, Take(t)) && Exec(Apply(s, Take(t)), Drain(s, t, 0)) == Some(Drained(s, t, 0))
  {
    assert s.complete + Elements(s.queue[..0]) == s.complete;
  }

  /** The run, extended by what is done about one more command. */
  lemma DrainedMore(s: State, t: nat, k: nat, from: State)
    requires 0 < k <= |s.queue| && DrainSteps(s, t, k)
    requires Exec(from, Drain(s, t, k - 1)) == Some(Drained(s, t, k - 1))
    ensures Exec(from, Drain(s, t, k)) == Some(Drained(s, t, k))
  {
    hide Exec, Apply, Enabled, Drained;
    var c := s.queue[k - 1];
    if c in s.complete {
      assert Drain(s, t, k - 1) + [] == Drain(s, t, k - 1);
      ExecAppend(from, Drain(s, t, k - 1), Await(t));
    } else {
      ExecAppend(from, Drain(s, t, k - 1), Complete(c));
      ExecAppend(from, Drain(s, t, k - 1) + [Complete(c)], Await(t));
    }
  }

  lemma {:induction false} DrainWithout(s: State, t: nat, k: nat)
    requires k <= |s.queue|
    ensures Without(Drain(s, t, k), t)
  {
    if k > 0 {
      DrainWithout(s, t, k - 1);
    }
  }

  ghost predicate DrainSteps(s: State, t: nat, k: nat)
    requires 0 < k <= |s.queue|
  {
    var u, c := Drained(s, t, k - 1), s.queue[k - 1];
    if c in s.complete then Enabled(u, Await(t)) && Apply(u, Await(t)) == Drained(s, t, k)
    else Enabled(u, Complete(c)) && Enabled(Apply(u, Complete(c)), Await(t))
         && Apply(Apply(u, Complete(c)), Await(t)) == Drained(s, t, k)
  }

  lemma ElementsMore(queue: seq<nat>, k: nat)
    requires 0 < k <= |queue|
    ensures Elements(queue[..k]) == Elements(queue[..k - 1]) + {queue[k - 1]}
  {
    assert queue[..k] == queue[..k - 1] + [queue[k - 1]];
  }

  lemma DrainStep(s: State, t: nat, k: nat)
    requires Inv(s) && t !in s.finishers && 0 < k <= |s.queue|
    ensures DrainSteps(s, t, k)
  {
    var u, c := Drained(s, t, k - 1), s.queue[k - 1];
    InQueue(s, k - 1);
    ElementsMore(s.queue, k);
    hide Inv, Elements;
    assert u.complete + {c} == Drained(s, t, k).complete;
    assert c in s.complete ==> u.complete + {c} == u.complete;
    assert u.finishers[t := Finisher(s.queue, k, s.count)] == Drained(s, t, k).finishers;
  }

  /** A command of the list that is not complete yet is not completed by draining those before it. */
  lemma InQueue(s: State, k: nat)
    requires Inv(s) && k < |s.queue|
    ensures s.queue[k] < s.count && s.queue[k] !in Elements(s.queue[..k])
  {
    assert s.queue[k] in s.queue;
  }

  ghost predicate AlwaysFinished(s: State, t: nat)
    requires t !in s.finishers
  {
    forall more :: Exec(Apply(s, Take(t)), more + [Return(t)]).Some? && Without(more, t) ==>
      Finished(s, Exec(Apply(s, Take(t)), more + [Return(t)]).value)
  }

  /** Finishing waits for all commands enqueued before, however the run goes on, exactly if at that moment no
      incomplete command has been taken by another finisher. */
  lemma FinishIsExact(s: State, t: nat)
    requires Inv(s) && t !in s.finishers
    ensures AlwaysFinished(s, t) <==> NothingElsewhere(s)
  {
    if NothingElsewhere(s) {
      forall more | Exec(Apply(s, Take(t)), more + [Return(t)]).Some? && Without(more, t)
        ensures Finished(s, Exec(Apply(s, Take(t)), more + [Return(t)]).value)
      {
        FinishWaitsForAll(s, t, more);
      }
    } else {
      DrainRun(s, t, |s.queue|);
      DrainWithout(s, t, |s.queue|);
      hide Exec, Inv, Drain;
      var c :| c < s.count && c !in s.complete && c !in s.queue;
      assert c !in Drained(s, t, |s.queue|).complete;
      ExecAppend(Apply(s, Take(t)), Drain(s, t, |s.queue|), Return(t));
      assert !Finished(s, Apply(Drained(s, t, |s.queue|), Return(t)));
    }
  }

  /** Two threads finish the same queue: the second returns at once, while the command is still running. */
  lemma SecondFinisherDoesNotWait()
    ensures var s := Exec(INITIAL, [Enqueue, Take(0), Take(1), Return(1)]);
            s.Some? && 0 < s.value.count && 0 !in s.value.complete && s.value.finishers.Keys == {0}
  {
    var run := [] + [Enqueue] + [Take(0)] + [Take(1)];
    ExecAppend(INITIAL, [], Enqueue);
    ExecAppend(INITIAL, [] + [Enqueue], Take(0));
    ExecAppend(INITIAL, [] + [Enqueue] + [Take(0)], Take(1));
    ExecAppend(INITIAL, run, Return(1));
    assert run + [Return(1)] == [Enqueue, Take(0), Take(1), Return(1)];
  }

  function Count(run: seq<Action>, a: Action): nat {
    if run == [] then 0 else Count(run[..|run| - 1], a) + if run[|run| - 1] == a then 1 else 0
  }

  /** Over any run: a thread is finishing if and only if it has taken a list once more than it has returned; each
      takes and returns in turn. */
  lemma {:induction false} TakesAndReturns(run: seq<Action>, t: nat)
    requires Exec(INITIAL, run).Some?
    ensures Count(run, Take(t)) == Count(run, Return(t)) + if t in Exec(INITIAL, run).value.finishers then 1 else 0
  {
    if run != [] {
      TakesAndReturns(run[..|run| - 1], t);
    }
  }
}
