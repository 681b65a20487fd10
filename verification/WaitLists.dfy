/**
 Event wait lists on a compute node. A local event stands for itself; a remote event is replaced by the
 acquire operations of its memory objects, which are enqueued once and shared by all later uses.
 */
module WaitLists {
  import opened Seqs
  import opened NativeEvents

  /** All native events of a context. */
  class Runtime {
    var events: seq<Native>

    ghost predicate Valid()
      reads this
    {
      WellFormed(events)
    }
  }

  /** A native command queue; an in-order queue starts a command after its predecessor. */
  class NativeQueue {
    const inOrder: bool
    var last: Option<nat>

    constructor (inOrder: bool)
      ensures this.inOrder == inOrder && last == None
    {
      this.inOrder, last := inOrder, None;
    }

    ghost predicate Valid(rt: Runtime)
      reads this, rt
    {
      last.Some? ==> last.value < |rt.events|
    }

    method Enqueue(rt: Runtime, waits: seq<nat>) returns (id: nat)
      requires rt.Valid() && Valid(rt) && forall w :: w in waits ==> w < |rt.events|
      modifies rt, this`last
      ensures rt.Valid() && Valid(rt) && id == |old(rt.events)| && last == Some(id)
      ensures rt.events == old(rt.events) + [Command(waits + if inOrder then Opt(old(last)) else [])]
    {
      id := |rt.events|;
      rt.events := rt.events + [Command(waits + if inOrder then Opt(last) else [])];
      last := Some(id);
    }
  }

  /** `transfer` is a user event that the callback of a map operation sets. The map waits for `event`, and
      `unmap` waits for the transfer. */
  predicate Moves(events: seq<Native>, event: nat, transfer: nat, unmap: nat) {
    && transfer < unmap < |events| && events[transfer].SetBy? && events[transfer].cause < transfer
    && events[events[transfer].cause].Command? && event in events[events[transfer].cause].waits
    && events[unmap].Command? && transfer in events[unmap].waits
  }

  /** Transfers are numbered in the order in which they are set up, each one once. */
  predicate Increasing(list: seq<nat>) {
    forall j, k :: 0 <= j < k < |list| ==> list[j] < list[k]
  }

  lemma MovesUpstream(events: seq<Native>, event: nat, transfer: nat, unmap: nat)
    requires WellFormed(events) && Moves(events, event, transfer, unmap)
    ensures event in Upstream(events, transfer) && transfer in Upstream(events, unmap)
    ensures event in Upstream(events, unmap)
  {
    var m := events[transfer].cause;
    assert event in Causes(events[m]) && m in Causes(events[transfer]) && transfer in Causes(events[unmap]);
    assert event in Upstream(events, event) && event in Upstream(events, m);
    assert transfer in Upstream(events, transfer);
  }

  /** `Buffer::acquire`: map when the remote event is complete, receive when mapped, unmap when received.
      The receipt is a user event that the callback of the map operation sets. */
  method Acquire(rt: Runtime, q: NativeQueue, releaseEvent: nat) returns (acquireEvent: nat)
    requires rt.Valid() && q.Valid(rt) && releaseEvent < |rt.events|
    modifies rt, q`last
    ensures rt.Valid() && q.Valid(rt) && old(rt.events) <= rt.events && |rt.events| == |old(rt.events)| + 3
    ensures Moves(rt.events, releaseEvent, |old(rt.events)| + 1, acquireEvent) && q.last == Some(acquireEvent)
    ensures releaseEvent in Upstream(rt.events, acquireEvent)
    ensures q.inOrder && old(q.last).Some? ==> old(q.last).value in Upstream(rt.events, acquireEvent)
  {
    ghost var before := q.last;
    var map_ := q.Enqueue(rt, [releaseEvent]);
    rt.events := rt.events + [SetBy(map_)];
    acquireEvent := q.Enqueue(rt, [map_ + 1]);
    MovesUpstream(rt.events, releaseEvent, map_ + 1, acquireEvent);
    if q.inOrder && before.Some? {
      MovesUpstream(rt.events, before.value, map_ + 1, acquireEvent);
    }
  }

  lemma {:induction false} UpstreamExtends(before: seq<Native>, after: seq<Native>, i: nat)
    requires before <= after && WellFormed(before) && WellFormed(after) && i < |before|
    ensures Upstream(before, i) == Upstream(after, i)
    decreases i
  {
    forall c | c in Causes(before[i]) ensures Upstream(before, c) == Upstream(after, c) {
      UpstreamExtends(before, after, c);
    }
  }

  lemma ItsOwnUpstream(events: seq<Native>, i: nat)
    requires WellFormed(events) && i < |events|
    ensures i in Upstream(events, i)
  {
  }

  // ---- the owner's side ----

  lemma {:induction false} UpstreamOf(events: seq<Native>, i: nat, u: nat, v: nat)
    requires WellFormed(events) && u in Upstream(events, i) && v in Upstream(events, u)
    ensures v in Upstream(events, i)
    decreases i
  {
    if u != i {
      var c :| c in Causes(events[i]) && u in Upstream(events, c);
      UpstreamOf(events, c, u, v);
    }
  }

  /** One transfer comes after another, and all of them before `last`. */
  ghost predicate Chained(events: seq<Native>, list: seq<nat>, last: Option<nat>)
    requires WellFormed(events)
  {
    && (forall j, k :: 0 <= j < k < |list| ==> list[j] in Upstream(events, list[k]))
    && (list != [] ==> last.Some?)
    && (forall l :: l in list ==> l < |events| && l in Upstream(events, last.value))
  }

  /** `Buffer::release`: map when the event is complete, send when mapped, unmap when sent. The sending is a
      user event that the callback of the map operation sets. */
  method Release(rt: Runtime, q: NativeQueue, releaseEvent: nat) returns (sending: nat)
    requires rt.Valid() && q.Valid(rt) && releaseEvent < |rt.events|
    modifies rt, q`last
    ensures rt.Valid() && q.Valid(rt) && old(rt.events) <= rt.events && |old(rt.events)| <= sending
    ensures q.last.Some? && Moves(rt.events, releaseEvent, sending, q.last.value)
    ensures releaseEvent in Upstream(rt.events, sending) && sending in Upstream(rt.events, q.last.value)
    ensures q.inOrder && old(q.last).Some? ==> old(q.last).value in Upstream(rt.events, sending)
  {
    ghost var before := q.last;
    var map_ := q.Enqueue(rt, [releaseEvent]);
    sending := map_ + 1;
    rt.events := rt.events + [SetBy(map_)];
    var unmap := q.Enqueue(rt, [sending]);
    MovesUpstream(rt.events, releaseEvent, sending, unmap);
    if q.inOrder && before.Some? {
      MovesUpstream(rt.events, before.value, sending, unmap);
    }
  }

  /** Each is a transfer of its own, begun when the event is complete, for which some unmap waits. */
  ghost predicate AllMove(events: seq<Native>, event: nat, transfers: seq<nat>) {
    Increasing(transfers) && forall t :: t in transfers ==> exists unmap :: Moves(events, event, t, unmap)
  }

  lemma AllMoveStep(before: seq<Native>, after: seq<Native>, event: nat, transfers: seq<nat>, t: nat, unmap: nat)
    requires before <= after && AllMove(before, event, transfers) && |before| <= t && Moves(after, event, t, unmap)
    ensures AllMove(after, event, transfers + [t])
  {
    forall u | u in transfers ensures u < t && exists unmap :: Moves(after, event, u, unmap) {
      var end :| Moves(before, event, u, end);
      assert Moves(after, event, u, end);
    }
    assert forall k :: 0 <= k < |transfers| ==> transfers[k] in transfers;
    assert Moves(after, event, t, unmap);
  }

  class LocalEvent {
    const event: nat
    const objects: seq<nat>

    constructor (event: nat, objects: seq<nat>)
      ensures this.event == event && this.objects == objects
    {
      this.event, this.objects := event, objects;
    }

    /** A release chain for each object, on the queue reserved for synchronization. No object is sent before
        the event is complete; on an in-order queue the objects are sent in the order of the list. */
    method OnSynchronize(rt: Runtime, io: NativeQueue) returns (sendings: seq<nat>)
      requires rt.Valid() && io.Valid(rt) && event < |rt.events|
      modifies rt, io`last
      ensures rt.Valid() && io.Valid(rt) && old(rt.events) <= rt.events && |sendings| == |objects|
      ensures AllAfter(rt.events, sendings, event) && AllMove(rt.events, event, sendings)
      ensures io.inOrder ==> Chained(rt.events, sendings, io.last)
    {
      sendings := [];
      var i := 0;
      while i < |objects|
        invariant 0 <= i <= |objects| && rt.Valid() && io.Valid(rt) && old(rt.events) <= rt.events && |sendings| == i
        invariant AllAfter(rt.events, sendings, event) && AllMove(rt.events, event, sendings)
        invariant io.inOrder ==> Chained(rt.events, sendings, io.last)
      {
        ghost var before, last := rt.events, io.last;
        var sending := Release(rt, io, event);
        StillAfter(before, rt.events, sendings, event);
        if io.inOrder {
          ChainedStep(before, rt.events, sendings, last, sending, io.last.value);
        }
        AllMoveStep(before, rt.events, event, sendings, sending, io.last.value);
        sendings := sendings + [sending];
        i := i + 1;
      }
    }
  }

  lemma ChainedStep(before: seq<Native>, after: seq<Native>, list: seq<nat>, last: Option<nat>, next: nat, last': nat)
    requires before <= after && WellFormed(before) && WellFormed(after) && Chained(before, list, last)
    requires last.Some? ==> last.value < |before| && last.value in Upstream(after, next)
    requires next < |after| && next in Upstream(after, last')
    ensures Chained(after, list + [next], Some(last'))
  {
    hide Upstream, WellFormed;
    forall l | l in list ensures l in Upstream(after, next) && l in Upstream(after, last') {
      UpstreamExtends(before, after, last.value);
      UpstreamOf(after, next, last.value, l);
      UpstreamOf(after, last', next, l);
    }
    forall j, k | 0 <= j < k < |list| ensures list[j] in Upstream(after, list[k]) {
      assert list[k] in list;
      UpstreamExtends(before, after, list[k]);
    }
    forall j | 0 <= j < |list| ensures list[j] in Upstream(after, next) {
      assert list[j] in list;
    }
  }

  // ---- the waiting side ----

  /** State of the substitute of an event that another node owns: its user event, the memory objects to be
      synchronized, the acquire events, the synchronization messages sent to the host, and the objects for
      which an acquire operation was enqueued, each with the event of its receipt. */
  datatype View = View(event: nat, objects: seq<nat>, syncEvents: seq<nat>, requests: nat, acquired: seq<nat>,
                       receipts: seq<nat>)

  /** Each acquire waits for a receipt of its own, which is posted when the event is complete. */
  ghost predicate EachMoves(events: seq<Native>, event: nat, receipts: seq<nat>, acquires: seq<nat>) {
    && |receipts| == |acquires| && Increasing(receipts)
    && forall k :: 0 <= k < |receipts| ==> Moves(events, event, receipts[k], acquires[k])
  }

  lemma EachMovesStep(before: seq<Native>, after: seq<Native>, event: nat, receipts: seq<nat>, acquires: seq<nat>,
          receipt: nat, acquire: nat)
    requires before <= after && EachMoves(before, event, receipts, acquires)
    requires |before| <= receipt && Moves(after, event, receipt, acquire)
    ensures EachMoves(after, event, receipts + [receipt], acquires + [acquire])
  {
  }

  /** At most one request; then exactly one acquire for each object, in order, all after the event and each
      after a receipt of its own. */
  ghost predicate Sound(v: View, events: seq<Native>) {
    && WellFormed(events) && v.event < |events|
    && v.requests == (if v.syncEvents == [] then 0 else 1)
    && v.acquired == (if v.syncEvents == [] then [] else v.objects)
    && |v.syncEvents| == |v.acquired| && EachMoves(events, v.event, v.receipts, v.syncEvents)
    && AllAfter(events, v.syncEvents, v.event)
  }

  predicate Synchronized(v: View) {
    v.objects == [] || v.syncEvents != []
  }

  ghost predicate AllAfter(events: seq<Native>, list: seq<nat>, e: nat)
    requires WellFormed(events)
  {
    forall s :: s in list ==> s < |events| && e in Upstream(events, s)
  }

  lemma StillAfter(before: seq<Native>, after: seq<Native>, list: seq<nat>, e: nat)
    requires before <= after && WellFormed(before) && WellFormed(after) && AllAfter(before, list, e)
    ensures AllAfter(after, list, e)
  {
    forall s | s in list ensures e in Upstream(after, s) {
      UpstreamExtends(before, after, s);
    }
  }

  class RemoteEvent {
    const event: nat
    const objects: seq<nat>
    var syncEvents: seq<nat>
    var requests: nat
    var acquired: seq<nat>
    var receipts: seq<nat>

    constructor (event: nat, objects: seq<nat>)
      ensures State() == View(event, objects, [], 0, [], [])
    {
      this.event, this.objects, syncEvents, requests, acquired, receipts := event, objects, [], 0, [], [];
    }

    function State(): View
      reads this
    {
      View(event, objects, syncEvents, requests, acquired, receipts)
    }

    method Synchronize(rt: Runtime, q: NativeQueue) returns (list: seq<nat>)
      requires Sound(State(), rt.events) && q.Valid(rt)
      modifies this`syncEvents, this`requests, this`acquired, this`receipts, rt, q`last
      ensures Sound(State(), rt.events) && q.Valid(rt) && list == State().syncEvents && Synchronized(State())
      ensures old(rt.events) <= rt.events
      ensures q.inOrder && old(!Synchronized(State())) ==> Chained(rt.events, list, q.last)
      ensures old(Synchronized(State())) ==> State() == old(State()) && rt.events == old(rt.events)
    {
      hide Moves, Upstream, WellFormed;
      if objects != [] && syncEvents == [] {
        requests := requests + 1;
        var i := 0;
        while i < |objects|
          invariant 0 <= i <= |objects| && rt.Valid() && q.Valid(rt) && old(rt.events) <= rt.events
          invariant |syncEvents| == |receipts| == i && acquired == objects[..i] && requests == 1
          invariant AllAfter(rt.events, syncEvents, event) && EachMoves(rt.events, event, receipts, syncEvents)
          invariant q.inOrder ==> Chained(rt.events, syncEvents, q.last)
        {
          ghost var before, last := rt.events, q.last;
          var next := |rt.events|;
          var acquire := Acquire(rt, q, event);
          StillAfter(before, rt.events, syncEvents, event);
          if q.inOrder {
            ItsOwnUpstream(rt.events, acquire);
            ChainedStep(before, rt.events, syncEvents, last, acquire, acquire);
          }
          EachMovesStep(before, rt.events, event, receipts, syncEvents, next + 1, acquire);
          syncEvents, acquired := syncEvents + [acquire], acquired + [objects[i]];
          receipts := receipts + [next + 1];
          i := i + 1;
        }
      }
      list := syncEvents;
    }
  }

  // ---- all remote events together ----

  type Views = map<RemoteEvent, View>

  ghost function ViewsOf(remotes: set<RemoteEvent>): Views
    reads remotes
  {
    map r | r in remotes :: r.State()
  }

  ghost predicate AllSound(views: Views, events: seq<Native>) {
    WellFormed(events) && forall r :: r in views ==> Sound(views[r], events)
  }

  /** A remote event that has been synchronized does not change any more. */
  ghost predicate Settled(before: Views, after: Views) {
    before.Keys == after.Keys && forall r :: r in before && Synchronized(before[r]) ==> after[r] == before[r]
  }

  lemma SettledTwice(a: Views, b: Views, c: Views)
    requires Settled(a, b) && Settled(b, c)
    ensures Settled(a, c)
  {
  }

  lemma SoundExtends(before: seq<Native>, after: seq<Native>, views: Views, views': Views, r: RemoteEvent)
    requires before <= after && AllSound(views, before) && r in views && r in views' && views' == views[r := views'[r]]
    requires Sound(views'[r], after)
    requires Synchronized(views[r]) ==> views'[r] == views[r]
    ensures AllSound(views', after) && Settled(views, views')
  {
    forall x | x in views' ensures Sound(views'[x], after) {
      if x != r {
        StillAfter(before, after, views[x].syncEvents, views[x].event);
      }
    }
  }

  // ---- wait lists ----

  /** `Other`: an object that is not an event of this daemon. */
  datatype Entry = Local(native: nat) | Remote(remote: RemoteEvent) | Other

  predicate Known(views: Views, events: seq<Native>, e: Entry) {
    (e.Remote? ==> e.remote in views) && (e.Local? ==> e.native < |events|)
  }

  predicate AllKnown(views: Views, events: seq<Native>, entries: seq<Entry>) {
    forall i :: 0 <= i < |entries| ==> Known(views, events, entries[i])
  }

  lemma StillKnown(before: Views, events: seq<Native>, after: Views, events': seq<Native>, entries: seq<Entry>)
    requires AllKnown(before, events, entries) && Settled(before, after) && events <= events'
    ensures AllKnown(after, events', entries)
  {
  }

  lemma KnownAt(views: Views, events: seq<Native>, entries: seq<Entry>, i: nat)
    requires AllKnown(views, events, entries) && i < |entries|
    ensures Known(views, events, entries[i])
  {
  }

  /** The native events that stand for an entry. */
  function Natives(views: Views, e: Entry): seq<nat> {
    match e
    case Local(n) => [n]
    case Remote(r) => if r in views then views[r].syncEvents else []
    case Other => []
  }

  function NativeList(views: Views, entries: seq<Entry>): seq<nat> {
    if entries == [] then [] else NativeList(views, entries[..|entries| - 1]) + Natives(views, entries[|entries| - 1])
  }

  /** `list` stands for the entries, which have all been synchronized. */
  ghost predicate Collected(views: Views, entries: seq<Entry>, list: seq<nat>) {
    && list == NativeList(views, entries)
    && (forall e :: e in entries ==> !e.Other? && (e.Remote? ==> e.remote in views && Synchronized(views[e.remote])))
  }

  /** What an entry stands for: a local event for itself, a remote one for all its acquires. */
  ghost predicate StandsFor(views: Views, e: Entry, x: nat) {
    match e
    case Local(n) => x == n
    case Remote(r) => r in views && x in views[r].syncEvents
    case Other => false
  }

  /** The list has every event that some entry stands for, and no other. */
  lemma {:induction false} ListStandsFor(views: Views, entries: seq<Entry>, x: nat)
    ensures x in NativeList(views, entries) <==> exists e :: e in entries && StandsFor(views, e, x)
  {
    if entries != [] {
      var front, last := entries[..|entries| - 1], entries[|entries| - 1];
      ListStandsFor(views, front, x);
      assert entries == front + [last];
      assert last in entries;
    }
  }

  lemma CollectedStandsFor(views: Views, entries: seq<Entry>, list: seq<nat>)
    requires Collected(views, entries, list)
    ensures forall x :: x in list <==> exists e :: e in entries && StandsFor(views, e, x)
  {
    forall x ensures x in list <==> exists e :: e in entries && StandsFor(views, e, x) {
      ListStandsFor(views, entries, x);
    }
  }

  lemma {:induction false} CollectedKept(before: Views, after: Views, entries: seq<Entry>, list: seq<nat>)
    requires Collected(before, entries, list) && Settled(before, after)
    ensures Collected(after, entries, list)
  {
    if entries != [] {
      var front, e := entries[..|entries| - 1], entries[|entries| - 1];
      CollectedKept(before, after, front, NativeList(before, front));
      assert e in entries;
    }
  }

  lemma CollectStep(before: Views, after: Views, entries: seq<Entry>, list: seq<nat>, e: Entry)
    requires Collected(before, entries, list) && Settled(before, after)
    requires !e.Other? && (e.Remote? ==> e.remote in after && Synchronized(after[e.remote]))
    ensures Collected(after, entries + [e], list + Natives(after, e))
  {
    CollectedKept(before, after, entries, list);
    assert (entries + [e])[..|entries + [e]| - 1] == entries;
  }

  class CommandQueue {
    const queue: NativeQueue

    constructor (queue: NativeQueue)
      ensures this.queue == queue
    {
      this.queue := queue;
    }

    /** One entry. `remotes`: all remote events there are. */
    method Visit(rt: Runtime, e: Entry, ghost remotes: set<RemoteEvent>) returns (natives: seq<nat>)
      requires queue.Valid(rt) && AllSound(ViewsOf(remotes), rt.events) && Known(ViewsOf(remotes), rt.events, e)
               && !e.Other?
      modifies rt, queue`last, remotes
      ensures queue.Valid(rt) && old(rt.events) <= rt.events && AllSound(ViewsOf(remotes), rt.events)
      ensures Settled(old(ViewsOf(remotes)), ViewsOf(remotes)) && natives == Natives(ViewsOf(remotes), e)
      ensures e.Remote? ==> e.remote in ViewsOf(remotes) && Synchronized(ViewsOf(remotes)[e.remote])
    {
      if e.Remote? {
        ghost var events, views := rt.events, ViewsOf(remotes);
        hide Sound, Synchronized;
        natives := e.remote.Synchronize(rt, queue);
        assert ViewsOf(remotes) == views[e.remote := e.remote.State()];
        SoundExtends(events, rt.events, views, ViewsOf(remotes), e.remote);
      } else {
        natives := [e.native];
      }
    }

    /** Fails at the first entry that is no event of this daemon. */
    method Synchronize(rt: Runtime, entries: seq<Entry>, ghost remotes: set<RemoteEvent>)
            returns (ok: bool, list: seq<nat>)
      requires queue.Valid(rt) && AllSound(ViewsOf(remotes), rt.events)
      requires AllKnown(ViewsOf(remotes), rt.events, entries)
      modifies rt, queue`last, remotes
      ensures queue.Valid(rt) && old(rt.events) <= rt.events && AllSound(ViewsOf(remotes), rt.events)
      ensures Settled(old(ViewsOf(remotes)), ViewsOf(remotes))
      ensures ok <==> Other !in entries
      ensures ok ==> Collected(ViewsOf(remotes), entries, list)
      ensures ok ==> forall x :: x in list <==> exists e :: e in entries && StandsFor(ViewsOf(remotes), e, x)
    {
      list, ok := [], true;
      var i := 0;
      ghost var views := ViewsOf(remotes);
      Start(views);
      hide *;
      while i < |entries| && ok
        invariant 0 <= i <= |entries| && queue.Valid(rt) && old(rt.events) <= rt.events
        invariant AllSound(ViewsOf(remotes), rt.events) && Settled(views, ViewsOf(remotes))
        invariant AllKnown(ViewsOf(remotes), rt.events, entries)
        invariant ok ==> Collected(ViewsOf(remotes), entries[..i], list)
        invariant !ok ==> Other in entries
      {
        if entries[i].Other? {
          ok := false;
        } else {
          ghost var before, events := ViewsOf(remotes), rt.events;
          KnownAt(before, events, entries, i);
          var natives := Visit(rt, entries[i], remotes);
          StillKnown(before, events, ViewsOf(remotes), rt.events, entries);
          SettledTwice(views, before, ViewsOf(remotes));
          CollectStep(before, ViewsOf(remotes), entries[..i], list, entries[i]);
          list := list + natives;
          assert entries[..i] + [entries[i]] == entries[..i + 1];
        }
        i := i + 1;
      }
      assert entries[..|entries|] == entries;
      if ok {
        NoOther(ViewsOf(remotes), entries, list);
        CollectedStandsFor(ViewsOf(remotes), entries, list);
      }
    }
  }

  lemma Start(views: Views)
    ensures Settled(views, views) && Collected(views, [], [])
  {
  }

  lemma NoOther(views: Views, entries: seq<Entry>, list: seq<nat>)
    requires Collected(views, entries, list)
    ensures Other !in entries
  {
  }

  // ---- any number of synchronizations of one event, from any queues ----

  ghost predicate AllQueues(rt: Runtime, queues: seq<NativeQueue>)
    reads rt, queues
  {
    forall q :: q in queues ==> q.Valid(rt)
  }

  /** One request in all, one acquire for each object in all, the same native list for every caller. */
  method Calls(rt: Runtime, remote: RemoteEvent, queues: seq<NativeQueue>) returns (lists: seq<seq<nat>>)
    requires Sound(remote.State(), rt.events) && AllQueues(rt, queues)
    modifies rt, remote`syncEvents, remote`requests, remote`acquired, remote`receipts, (set q | q in queues)`last
    ensures Sound(remote.State(), rt.events) && AllQueues(rt, queues) && |lists| == |queues|
    ensures forall i :: 0 <= i < |lists| ==> lists[i] == remote.State().syncEvents
    ensures queues != [] && remote.objects != [] ==>
              remote.State().requests == 1 && remote.State().acquired == remote.objects
  {
    lists := [];
    var i := 0;
    while i < |queues|
      invariant 0 <= i <= |queues| && |lists| == i
      invariant Sound(remote.State(), rt.events) && AllQueues(rt, queues)
      invariant i > 0 ==> Synchronized(remote.State())
      invariant forall k :: 0 <= k < i ==> lists[k] == remote.State().syncEvents
    {
      var list := remote.Synchronize(rt, queues[i]);
      lists := lists + [list];
      i := i + 1;
    }
  }

  // ---- order ----

  /** The event that the application means. */
  function Meant(e: Entry): nat
    requires !e.Other?
  {
    if e.Local? then e.native else e.remote.event
  }

  /** A remote event without memory objects stands for nothing. */
  predicate CarriesOrder(e: Entry) {
    e.Local? || (e.Remote? && e.remote.objects != [])
  }

  ghost predicate Matches(views: Views) {
    forall r :: r in views ==> views[r].event == r.event && views[r].objects == r.objects
  }

  ghost predicate ForcedBy(views: Views, events: seq<Native>, f: Entry, x: nat)
    requires WellFormed(events)
  {
    Forces(events, Natives(views, f), x)
  }

  /** The native list forces exactly what its entries force. */
  lemma {:induction false} ForcesByEntry(views: Views, events: seq<Native>, entries: seq<Entry>, x: nat)
    requires WellFormed(events)
    ensures Forces(events, NativeList(views, entries), x) <==> exists f :: f in entries && ForcedBy(views, events, f, x)
  {
    if entries != [] {
      var front, e := entries[..|entries| - 1], entries[|entries| - 1];
      ForcesByEntry(views, events, front, x);
      ForcesConcat(events, NativeList(views, front), Natives(views, e), x);
      hide Forces;
      assert entries == front + [e];
      assert forall f :: f in entries <==> f in front || f == e;
      assert ForcedBy(views, events, e, x) <==> Forces(events, Natives(views, e), x);
    }
  }

  lemma ForcesConcat(events: seq<Native>, a: seq<nat>, b: seq<nat>, x: nat)
    requires WellFormed(events)
    ensures Forces(events, a + b, x) <==> Forces(events, a, x) || Forces(events, b, x)
  {
  }

  /** A synchronized entry that carries order forces the event that it means; the others force nothing. */
  lemma EntryForces(views: Views, events: seq<Native>, e: Entry, x: nat)
    requires AllSound(views, events) && Matches(views) && Known(views, events, e) && !e.Other?
    requires e.Remote? ==> Synchronized(views[e.remote])
    ensures CarriesOrder(e) ==> ForcedBy(views, events, e, Meant(e))
    ensures !CarriesOrder(e) ==> !ForcedBy(views, events, e, x)
  {
    match e
    case Local(n) =>
      assert n in Upstream(events, n);
    case Remote(r) =>
      if r.objects != [] {
        var l := views[r].syncEvents[0];
        assert l in views[r].syncEvents;
      } else {
        assert Sound(views[r], events);
      }
  }

  /** A command with the list that stands for a wait list starts, in all runs, only after every entry that
      carries order is done, and succeeds only if these succeed. Of a remote entry also every acquire and the
      receipt of every object are done. */
  lemma WaitOrder(views: Views, entries: seq<Entry>, list: seq<nat>, run: seq<Action>, c: nat, e: Entry)
    requires Exec(run).Some? && c < |Exec(run).value.events|
    requires var s := Exec(run).value;
             && AllSound(views, s.events) && Matches(views) && Collected(views, entries, list)
             && list <= Causes(s.events[c]) && CanFinish(s, c)
             && e in entries && Known(views, s.events, e) && CarriesOrder(e)
    ensures var s := Exec(run).value;
            && Done(s, Meant(e)) && (Done(s, c) && s.status[c] == Some(0) ==> s.status[Meant(e)] == Some(0))
    ensures e.Remote? ==> ObjectsThere(Exec(run).value, views[e.remote], e.remote.objects, c)
  {
    var s := Exec(run).value;
    RunInv(run);
    EntryForces(views, s.events, e, 0);
    if e.Remote? {
      AllObjectsThere(views, entries, list, s, c, e.remote);
    }
    hide *;
    CollectedIs(views, entries, list, e);
    InvIs(s);
    ForcesByEntry(views, s.events, entries, Meant(e));
    ForcesPrefix(s.events, list, Causes(s.events[c]), Meant(e));
    ForcedIsDone(s, c, Meant(e));
  }

  /** Every object has been received and every acquire is complete, successfully if command `c` is. */
  ghost predicate ObjectsThere(s: State, v: View, objects: seq<nat>, c: nat) {
    && |v.syncEvents| == |v.receipts| == |objects|
    && forall k :: 0 <= k < |objects| ==>
         && Done(s, v.syncEvents[k]) && Done(s, v.receipts[k])
         && (Done(s, c) && s.status[c] == Some(0) ==>
               s.status[v.syncEvents[k]] == Some(0) && s.status[v.receipts[k]] == Some(0))
  }

  lemma AllObjectsThere(views: Views, entries: seq<Entry>, list: seq<nat>, s: State, c: nat, r: RemoteEvent)
    requires Inv(s) && c < |s.events| && AllSound(views, s.events) && Matches(views) && Collected(views, entries, list)
    requires list <= Causes(s.events[c]) && CanFinish(s, c) && Remote(r) in entries && r in views
    ensures ObjectsThere(s, views[r], r.objects, c)
  {
    var v := views[r];
    assert Sound(v, s.events) && Synchronized(v);
    forall k | 0 <= k < |v.syncEvents|
      ensures Done(s, v.syncEvents[k]) && Done(s, v.receipts[k])
      ensures Done(s, c) && s.status[c] == Some(0) ==>
                s.status[v.syncEvents[k]] == Some(0) && s.status[v.receipts[k]] == Some(0)
    {
      OneObjectThere(views, entries, list, s, c, r, k);
    }
  }

  lemma OneObjectThere(views: Views, entries: seq<Entry>, list: seq<nat>, s: State, c: nat, r: RemoteEvent, k: nat)
    requires Inv(s) && c < |s.events| && Collected(views, entries, list)
    requires list <= Causes(s.events[c]) && CanFinish(s, c) && Remote(r) in entries && r in views
    requires Sound(views[r], s.events) && k < |views[r].syncEvents|
    ensures var v := views[r];
            && Done(s, v.syncEvents[k]) && Done(s, v.receipts[k])
            && (Done(s, c) && s.status[c] == Some(0) ==>
                  s.status[v.syncEvents[k]] == Some(0) && s.status[v.receipts[k]] == Some(0))
  {
    var v := views[r];
    var x := v.syncEvents[k];
    assert StandsFor(views, Remote(r), x);
    ListStandsFor(views, entries, x);
    assert x in Causes(s.events[c]);
    assert x in Upstream(s.events, x);
    MovesUpstream(s.events, v.event, v.receipts[k], x);
    hide Upstream, NativeList;
    ForcedIsDone(s, c, x);
    assert Forces(s.events, Causes(s.events[c]), v.receipts[k]);
    ForcedIsDone(s, c, v.receipts[k]);
  }

  lemma ForcesPrefix(events: seq<Native>, list: seq<nat>, longer: seq<nat>, x: nat)
    requires WellFormed(events) && list <= longer && Forces(events, list, x)
    ensures Forces(events, longer, x)
  {
    var l :| l in list && x in Upstream(events, l);
    assert l in longer;
  }

  lemma InvIs(s: State)
    requires Inv(s)
    ensures WellFormed(s.events)
  {
  }

  lemma CollectedIs(views: Views, entries: seq<Entry>, list: seq<nat>, e: Entry)
    requires Collected(views, entries, list) && e in entries
    ensures !e.Other? && list == NativeList(views, entries)
  {
  }

  /** Exactly when the order holds for an entry: it carries order itself, or another entry forces its event. */
  lemma WaitOrderIsExact(views: Views, events: seq<Native>, entries: seq<Entry>, c: nat, e: Entry)
    requires AllSound(views, events) && Matches(views) && c < |events|
    requires Collected(views, entries, Causes(events[c])) && e in entries && Known(views, events, e)
    ensures (forall run :: Exec(run).Some? && Exec(run).value.events == events && CanFinish(Exec(run).value, c)
               ==> Done(Exec(run).value, Meant(e)))
            <==> (CarriesOrder(e) || exists f :: f in entries && f != e && ForcedBy(views, events, f, Meant(e)))
  {
    EntryForces(views, events, e, Meant(e));
    ForcesByEntry(views, events, entries, Meant(e));
    OrderIsExact(events, c, Meant(e));
  }

  /** A wait list whose only entry is a remote event without memory objects does not hold a command back. */
  lemma EmptyEntryBreaksOrder(r: RemoteEvent)
    requires r.event == 0 && r.objects == []
    ensures var events, views := [Free, Command([])], map[r := View(0, [], [], 0, [], [])];
            && AllSound(views, events) && Matches(views) && Collected(views, [Remote(r)], Causes(events[1]))
            && exists run :: Exec(run).Some? && Exec(run).value.events == events
                 && CanFinish(Exec(run).value, 1) && !Done(Exec(run).value, 0)
  {
    var events: seq<Native> := [Free, Command([])];
    var views: Views := map[r := View(0, [], [], 0, [], [])];
    assert [Remote(r)][..0] == [];
    assert NativeList(views, [Remote(r)]) == [];
    NotForced(events, 1, 0);
  }
}
