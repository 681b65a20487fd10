/**
 Several threads set the status of one user event. A call first checks, under the event's lock, that the
 event is pending; then, without the lock, it sends the status to all nodes; then, under the lock, it runs all
 callbacks, stores the status and destroys the event if no reference is left.
 */
module UserEventCalls {
  import opened Seqs
  import Replication

  /** `passed`: the calls that have passed the check and not sent yet; `sent`: those that have sent and not
      stored yet. `messages`: the statuses on the way to each node, ever. `overlap`: a call has passed the
      check while another one was between its check and its storage. Callbacks are numbered in order of
      registration, `registered` of them; `early`: how many of them before the first storage. `calls`: the
      callbacks that were called; `stores` and `destroyed`: how often a status was stored and the event
      destroyed; `gone`: no reference was left at the first storage. */
  datatype State = State(
    status: Option<int>, passed: map<nat, int>, sent: map<nat, int>, messages: seq<int>, overlap: bool,
    refs: nat, registered: nat, early: nat, calls: seq<nat>, stores: nat, destroyed: nat, gone: bool)

  const INITIAL := State(None, map[], map[], [], false, 1, 0, 0, [], 0, 0, false)

  datatype Action = Check(t: nat, status: int) | Send(t: nat) | Store(t: nat) | Register | Retain | Release

  /** A check that fails, and a positive status, raise an error and change nothing. The application uses the
      event while it holds a reference. */
  predicate Enabled(s: State, a: Action) {
    match a
    case Check(t, status) => s.refs > 0 && status <= 0 && s.status.None? && t !in s.passed && t !in s.sent
    case Send(t) => t in s.passed
    case Store(t) => t in s.sent
    case _ => s.refs > 0
  }

  function Apply(s: State, a: Action): State
    requires Enabled(s, a)
  {
    match a
    case Check(t, status) =>
      s.(passed := s.passed[t := status], overlap := s.overlap || s.passed != map[] || s.sent != map[])
    case Send(t) =>
      s.(passed := s.passed - {t}, sent := s.sent[t := s.passed[t]], messages := s.messages + [s.passed[t]])
    case Store(t) =>
      s.(sent := s.sent - {t}, calls := s.calls + Range(0, s.registered), status := Some(s.sent[t]),
         stores := s.stores + 1, destroyed := s.destroyed + if s.refs == 0 then 1 else 0,
         early := if s.stores == 0 then s.registered else s.early,
         gone := if s.stores == 0 then s.refs == 0 else s.gone)
    case Register =>
      s.(registered := s.registered + 1, calls := s.calls + if s.status.Some? then [s.registered] else [])
    case Retain => s.(refs := s.refs + 1)
    case Release =>
      s.(refs := s.refs - 1, destroyed := s.destroyed + if s.refs == 1 && s.status.Some? then 1 else 0)
  }

  function Exec(run: seq<Action>): Option<State> {
    if run == [] then Some(INITIAL) else
    var s, a := Exec(run[..|run| - 1]), run[|run| - 1];
    if s.Some? && Enabled(s.value, a) then Some(Apply(s.value, a)) else None
  }

  /** No call is under way. */
  predicate Quiet(s: State) {
    s.passed == map[] && s.sent == map[]
  }

  /** How often a callback was called. */
  function Times(calls: seq<nat>, k: nat): nat {
    multiset(calls)[k]
  }

  /** The messages so far and those that the calls under way will still send: one for the first call, and
      more only after an overlap. */
  ghost predicate Messages(s: State) {
    && (forall t :: t in s.passed ==> t !in s.sent)
    && |s.messages| == |s.sent| + s.stores && (s.status.Some? <==> s.stores > 0)
    && (!s.overlap ==> |s.passed| + |s.messages| <= 1 && (s.status.Some? ==> s.passed == map[] && s.sent == map[]))
    && (s.overlap ==> |s.passed| + |s.messages| >= 2)
  }

  /** Every storage calls every callback again, and destroys the event again if no reference is left. */
  ghost predicate Effects(s: State) {
    && (forall k :: k in s.calls ==> k < s.registered) && s.early <= s.registered
    && (s.stores == 0 ==> s.calls == [] && s.destroyed == 0)
    && (s.stores > 0 ==> forall k :: 0 <= k < s.early ==> Times(s.calls, k) == s.stores)
    && (s.stores == 1 ==> forall k :: 0 <= k < s.registered ==> Times(s.calls, k) == 1)
    && (s.stores > 0 && s.gone ==> s.refs == 0 && s.destroyed == s.stores)
    && (s.stores == 1 ==> s.destroyed == if s.refs == 0 then 1 else 0)
  }

  lemma Sizes(m: map<nat, int>, t: nat, x: int)
    ensures t !in m ==> |m[t := x]| == |m| + 1
    ensures t in m ==> |m - {t}| == |m| - 1
    ensures |m| == 0 <==> m == map[]
  {
    assert t !in m ==> m[t := x].Keys == m.Keys + {t};
    assert t in m ==> (m - {t}).Keys == m.Keys - {t};
    assert |m| == |m.Keys|;
    assert |m[t := x]| == |m[t := x].Keys| && |m - {t}| == |(m - {t}).Keys|;
    assert m.Keys == {} ==> m == map[];
  }

  lemma CheckMessages(s: State, t: nat, status: int)
    requires Messages(s) && Enabled(s, Check(t, status))
    ensures Messages(Apply(s, Check(t, status)))
  {
    Sizes(s.passed, t, status);
    Sizes(s.sent, t, status);
  }

  lemma SendMessages(s: State, t: nat)
    requires Messages(s) && Enabled(s, Send(t))
    ensures Messages(Apply(s, Send(t)))
  {
    Sizes(s.passed, t, 0);
    Sizes(s.sent, t, s.passed[t]);
  }

  lemma StoreMessages(s: State, t: nat)
    requires Messages(s) && Enabled(s, Store(t))
    ensures Messages(Apply(s, Store(t)))
  {
    hide Range;
    Sizes(s.passed, t, 0);
    Sizes(s.sent, t, 0);
    Sizes(s.sent - {t}, t, 0);
  }

  lemma MessagesStep(s: State, a: Action)
    requires Messages(s) && Enabled(s, a)
    ensures Messages(Apply(s, a))
  {
    match a
    case Check(t, status) => hide *; CheckMessages(s, t, status);
    case Send(t) => hide *; SendMessages(s, t);
    case Store(t) => hide *; StoreMessages(s, t);
    case _ =>
  }

  lemma {:induction false} RangeTimes(n: nat, k: nat)
    ensures Times(Range(0, n), k) == if k < n then 1 else 0
  {
    if n > 0 {
      RangeTimes(n - 1, k);
      assert Range(0, n) == Range(0, n - 1) + [n - 1];
    }
  }

  lemma TimesAppend(a: seq<nat>, b: seq<nat>, k: nat)
    ensures Times(a + b, k) == Times(a, k) + Times(b, k)
    ensures k !in a ==> Times(a, k) == 0
  {
  }

  lemma EffectsStep(s: State, a: Action)
    requires Effects(s) && Messages(s) && Enabled(s, a)
    ensures Effects(Apply(s, a))
  {
    if a.Store? {
      StoreEffects(s, a.t);
    } else if a.Register? {
      RegisterEffects(s);
    } else {
      hide Times;
    }
  }

  lemma StoreEffects(s: State, t: nat)
    requires Effects(s) && Enabled(s, Store(t))
    ensures Effects(Apply(s, Store(t)))
  {
    var u := Apply(s, Store(t));
    forall k | 0 <= k < s.registered ensures Times(u.calls, k) == Times(s.calls, k) + 1 {
      TimesAppend(s.calls, Range(0, s.registered), k);
      RangeTimes(s.registered, k);
    }
    hide Times;
    assert s.calls == [] ==> forall k :: 0 <= k < s.registered ==> Times(s.calls, k) == 0 by {
      NoTimes();
    }
  }

  lemma NoTimes()
    ensures forall k :: Times([], k) == 0
  {
  }

  lemma RegisterEffects(s: State)
    requires Effects(s) && Messages(s) && Enabled(s, Register)
    ensures Effects(Apply(s, Register))
  {
    var u := Apply(s, Register);
    if s.status.Some? {
      forall k | 0 <= k < u.registered
        ensures Times(u.calls, k) == Times(s.calls, k) + if k == s.registered then 1 else 0
      {
        TimesAppend(s.calls, [s.registered], k);
      }
      TimesAppend(s.calls, [], s.registered);
    }
  }

  lemma {:induction false} RunInv(run: seq<Action>)
    requires Exec(run).Some?
    ensures Messages(Exec(run).value) && Effects(Exec(run).value)
  {
    if run != [] {
      RunInv(run[..|run| - 1]);
      hide Messages, Effects, Enabled, Apply;
      MessagesStep(Exec(run[..|run| - 1]).value, run[|run| - 1]);
      EffectsStep(Exec(run[..|run| - 1]).value, run[|run| - 1]);
    }
  }

  /** The application's references: the first one, those retained, less those released. */
  function Held(run: seq<Action>): int {
    if run == [] then 1 else
    Held(run[..|run| - 1]) + if run[|run| - 1].Retain? then 1 else if run[|run| - 1].Release? then -1 else 0
  }

  /** Every status that is under way, sent or stored is a final one. */
  ghost predicate AllFinal(s: State) {
    && (forall t :: t in s.passed ==> s.passed[t] <= 0) && (forall t :: t in s.sent ==> s.sent[t] <= 0)
    && (forall m :: m in s.messages ==> m <= 0) && (s.status.Some? ==> s.status.value <= 0)
  }

  /** Over every run the count is that of the application's references, and only final statuses are sent. */
  lemma {:induction false} ReferencesCounted(run: seq<Action>)
    requires Exec(run).Some?
    ensures Exec(run).value.refs == Held(run) && AllFinal(Exec(run).value)
  {
    if run != [] {
      LastStep(run);
      ReferencesCounted(run[..|run| - 1]);
      hide Exec, Enabled, Apply, AllFinal;
      FinalStep(Exec(run[..|run| - 1]).value, run[|run| - 1]);
    }
  }

  lemma FinalStep(s: State, a: Action)
    requires AllFinal(s) && Enabled(s, a)
    ensures AllFinal(Apply(s, a))
    ensures Apply(s, a).refs == s.refs + if a.Retain? then 1 else if a.Release? then -1 else 0
  {
    hide Range;
  }

  lemma LastStep(run: seq<Action>)
    requires run != [] && Exec(run).Some?
    ensures Exec(run[..|run| - 1]).Some? && Enabled(Exec(run[..|run| - 1]).value, run[|run| - 1])
    ensures Exec(run) == Some(Apply(Exec(run[..|run| - 1]).value, run[|run| - 1]))
  {
    hide Enabled, Apply;
  }

  /** The messages as a node gets them. */
  function Delivered(id: nat, messages: seq<int>): seq<Replication.Msg> {
    seq(|messages|, i requires 0 <= i < |messages| => Replication.Status(id, messages[i]))
  }

  lemma {:induction false} SecondStatusBreaks(id: nat, messages: seq<int>)
    ensures Replication.Replay(Delivered(id, messages)) ==
              if messages == [] then Replication.Pending
              else if |messages| == 1 then Replication.Holds(messages[0]) else Replication.Broken
  {
    if messages != [] {
      var front := messages[..|messages| - 1];
      SecondStatusBreaks(id, front);
      var d := Delivered(id, messages);
      assert d[..|d| - 1] == Delivered(id, front);
    }
  }

  /** When all calls are over, the substitutes have been sent a second status exactly if two calls overlapped. */
  lemma SetTwiceIsExact(run: seq<Action>, id: nat)
    requires Exec(run).Some? && Quiet(Exec(run).value)
    ensures var s := Exec(run).value;
            Replication.Replay(Delivered(id, s.messages)) == Replication.Broken <==> s.overlap
  {
    RunInv(run);
    SecondStatusBreaks(id, Exec(run).value.messages);
  }

  /** When all calls are over and the status is set: without an overlap every callback was called once and the
      event is destroyed at most once. A callback registered in time was called exactly once if and only if
      no calls overlapped, and an event that had lost its last reference by then was destroyed exactly once
      if and only if no calls overlapped. */
  lemma EffectsAreExact(run: seq<Action>)
    requires Exec(run).Some? && Quiet(Exec(run).value) && Exec(run).value.status.Some?
    ensures var s := Exec(run).value;
            && (forall k :: 0 <= k < s.early ==> (Times(s.calls, k) == 1 <==> !s.overlap))
            && (s.gone ==> (s.destroyed == 1 <==> !s.overlap))
            && (!s.overlap ==> s.destroyed <= 1 && forall k :: 0 <= k < s.registered ==> Times(s.calls, k) == 1)
  {
    hide Exec, Times;
    RunInv(run);
  }

  // ---- an instance ----

  /** Two calls pass the check before either stores; the reference is released meanwhile. */
  lemma OverlappingCalls()
    ensures var run := [Register, Check(0, 0), Check(1, -1), Send(0), Send(1), Release, Store(0), Store(1)];
            && Exec(run).Some? && Quiet(Exec(run).value) && Exec(run).value.overlap
            && Exec(run).value.messages == [0, -1] && Exec(run).value.calls == [0, 0] && Exec(run).value.destroyed == 2
  {
    var s1 := INITIAL.(registered := 1);
    var s2 := s1.(passed := map[0 := 0]);
    var s3 := s2.(passed := map[0 := 0, 1 := -1], overlap := true);
    var s4 := s3.(passed := map[1 := -1], sent := map[0 := 0], messages := [0]);
    var s5 := s4.(passed := map[], sent := map[0 := 0, 1 := -1], messages := [0, -1]);
    var s6 := s5.(refs := 0);
    var r4 := [] + [Register] + [Check(0, 0)] + [Check(1, -1)];
    More([], INITIAL, Register, s1);
    More([] + [Register], s1, Check(0, 0), s2);
    More([] + [Register] + [Check(0, 0)], s2, Check(1, -1), s3);
    More(r4, s3, Send(0), s4);
    More(r4 + [Send(0)], s4, Send(1), s5);
    More(r4 + [Send(0)] + [Send(1)], s5, Release, s6);
    BothStore(r4 + [Send(0)] + [Send(1)] + [Release], s6);
    assert r4 + [Send(0)] + [Send(1)] + [Release] + [Store(0)] + [Store(1)]
        == [Register, Check(0, 0), Check(1, -1), Send(0), Send(1), Release, Store(0), Store(1)];
  }

  lemma BothStore(run: seq<Action>, s: State)
    requires Exec(run) == Some(s) && s == State(None, map[], map[0 := 0, 1 := -1], [0, -1], true, 0, 1, 0, [], 0, 0,
             false)
    ensures Exec(run + [Store(0)] + [Store(1)])
         == Some(State(Some(-1), map[], map[], [0, -1], true, 0, 1, 1, [0, 0], 2, 2, true))
  {
    assert Range(0, 1) == [0];
    var t := State(Some(0), map[], map[1 := -1], [0, -1], true, 0, 1, 1, [0], 1, 1, true);
    assert [] + Range(0, 1) == [0] && [0] + Range(0, 1) == [0, 0];
    More(run, s, Store(0), t);
    More(run + [Store(0)], t, Store(1), State(Some(-1), map[], map[], [0, -1], true, 0, 1, 1, [0, 0], 2, 2, true));
  }

  lemma More(run: seq<Action>, s: State, a: Action, t: State)
    requires Exec(run) == Some(s) && Enabled(s, a) && Apply(s, a) == t
    ensures Exec(run + [a]) == Some(t)
  {
    hide Enabled, Apply;
    assert (run + [a])[..|run + [a]| - 1] == run;
  }
}
