/**
 Reference counts of the host's objects. Queues, memory objects, programs and user events retain their
 context, kernels their program, command events their queue; a destructor releases what was retained.
 */
module RefCounts {
  import opened Seqs

  datatype Kind = Context | Queue | Mem | Program | UserEvent | Kernel | CommandEvent

  /** Distance from the context. */
  function Depth(k: Kind): nat {
    match k
    case Context => 0
    case Kernel => 2
    case CommandEvent => 2
    case _ => 1
  }

  predicate IsEvent(k: Kind) {
    k == UserEvent || k == CommandEvent
  }

  class Retainable {
    const kind: Kind
    const parent: Retainable?
    var refCount: nat
    /** For events only. */
    var complete: bool

    constructor (kind: Kind, parent: Retainable?)
      ensures this.kind == kind && this.parent == parent && refCount == 1 && complete == !IsEvent(kind)
    {
      this.kind, this.parent, refCount, complete := kind, parent, 1, !IsEvent(kind);
    }

    method Retain()
      modifies this`refCount
      ensures refCount == old(refCount) + 1
    {
      refCount := refCount + 1;
    }

    /** True if the caller has to delete the object. A pending event survives its last reference. */
    method Release() returns (destroyed: bool)
      requires refCount > 0
      modifies this`refCount
      ensures refCount == old(refCount) - 1
      ensures destroyed <==> refCount == 0 && complete
    {
      refCount := refCount - 1;
      destroyed := refCount == 0 && complete;
    }
  }

  // ---- the object graph as a value ----

  /** `refs`: the counts of all objects that exist. `app`: how many references the application holds.
      `deleted`: the objects deleted so far, in order. */
  datatype Graph = Graph(refs: map<Retainable, nat>, pending: set<Retainable>, app: map<Retainable, nat>,
                         deleted: seq<Retainable>)

  function Count(m: map<Retainable, nat>, o: Retainable): nat {
    if o in m then m[o] else 0
  }

  function Children(live: set<Retainable>, o: Retainable): set<Retainable> {
    set c | c in live && c.parent == o
  }

  /** Which kind of object retains which. */
  predicate Placed(kind: Kind, parent: Retainable?) {
    match kind
    case Context => parent == null
    case Kernel => parent != null && parent.kind == Program
    case CommandEvent => parent != null && parent.kind == Queue
    case _ => parent != null && parent.kind == Context
  }

  predicate WellPlaced(o: Retainable) {
    Placed(o.kind, o.parent)
  }

  /** Every parent exists; only events are pending; no object is both deleted and alive, or deleted twice. */
  ghost predicate Shape(g: Graph) {
    && g.app.Keys == g.refs.Keys && g.pending <= g.refs.Keys
    && (forall o :: o in g.refs ==> WellPlaced(o) && (o.parent != null ==> o.parent in g.refs))
    && (forall o :: o in g.pending ==> IsEvent(o.kind))
    && (forall o :: o in g.deleted ==> o !in g.refs)
    && (forall i, j :: 0 <= i < j < |g.deleted| ==> g.deleted[i] != g.deleted[j])
  }

  /** The count of every object: the application's references, one for each object that retains it, and
      one more for `extra`, which is about to be released. */
  ghost predicate Balanced(g: Graph, extra: Retainable?) {
    forall o :: o in g.refs ==>
      g.refs[o] == Count(g.app, o) + |Children(g.refs.Keys, o)| + if o == extra then 1 else 0
  }

  /** Objects without references: pending events, and user events that were completed in that state. */
  ghost predicate Kept(g: Graph) {
    forall o :: o in g.refs && g.refs[o] == 0 ==> o in g.pending || o.kind == UserEvent
  }

  ghost predicate Inv(g: Graph) {
    Shape(g) && Balanced(g, null) && Kept(g)
  }

  // ---- the operations on values ----

  function Retained(g: Graph, o: Retainable): Graph {
    g.(refs := g.refs[o := Count(g.refs, o) + 1])
  }

  /** `dclicd::release`: the object is deleted when the release says so, and its destructor releases the
      object it had retained. */
  function Dropped(g: Graph, o: Retainable): Graph
    decreases Depth(o.kind), 1
  {
    if Count(g.refs, o) == 0 then g else
    var h := Decremented(g, o);
    if h.refs[o] == 0 && o !in g.pending then Deleted(h, o) else h
  }

  function Deleted(g: Graph, o: Retainable): Graph
    decreases Depth(o.kind), 0
  {
    var h := Cut(g, o);
    if o.parent != null && Depth(o.parent.kind) < Depth(o.kind) then Dropped(h, o.parent) else h
  }

  function Created(g: Graph, o: Retainable): Graph {
    if o.parent == null then Inserted(g, o) else Retained(Inserted(g, o), o.parent)
  }

  /** The new object alone, with the application's first reference. */
  function Inserted(g: Graph, o: Retainable): Graph {
    Graph(g.refs[o := 1], g.pending + (if IsEvent(o.kind) then {o} else {}), g.app[o := 1], g.deleted)
  }

  function AppRetained(g: Graph, o: Retainable): Graph {
    Retained(g.(app := g.app[o := Count(g.app, o) + 1]), o)
  }

  function AppReleased(g: Graph, o: Retainable): Graph
    requires Count(g.app, o) > 0
  {
    Dropped(g.(app := g.app[o := g.app[o] - 1]), o)
  }

  /** The event of a command is deleted if nothing refers to it any more; `setStatus` of a user event does
      not look. */
  function Completed(g: Graph, o: Retainable): Graph {
    if Count(g.refs, o) == 0 && o.kind == CommandEvent then Deleted(Ended(g, o), o) else Ended(g, o)
  }

  // ---- the counts are conserved ----

  lemma ChildrenWithout(live: set<Retainable>, o: Retainable, p: Retainable)
    requires o in live
    ensures |Children(live, p)| == |Children(live - {o}, p)| + if o.parent == p then 1 else 0
  {
    if o.parent == p {
      assert Children(live, p) == Children(live - {o}, p) + {o};
    } else {
      assert Children(live, p) == Children(live - {o}, p);
    }
  }

  /** Nothing exists that has retained an object without references. */
  lemma NoChildren(g: Graph, o: Retainable, c: Retainable)
    requires Balanced(g, null) && o in g.refs && g.refs[o] == 0 && c in g.refs
    ensures c.parent != o
  {
    assert Children(g.refs.Keys, o) == {};
    assert c.parent == o ==> c in Children(g.refs.Keys, o);
  }

  function Decremented(g: Graph, o: Retainable): Graph
    requires Count(g.refs, o) > 0
  {
    g.(refs := g.refs[o := g.refs[o] - 1])
  }

  lemma DecrementedInv(g: Graph, o: Retainable)
    requires Shape(g) && Balanced(g, o) && Kept(g) && o in g.refs
    ensures g.refs[o] > 0
    ensures var h := Decremented(g, o); Shape(h) && Balanced(h, null) && h.refs.Keys == g.refs.Keys && KeptBut(h, o)
  {
    assert Decremented(g, o).refs.Keys == g.refs.Keys;
  }

  ghost predicate KeptBut(g: Graph, o: Retainable) {
    forall x :: x in g.refs && g.refs[x] == 0 && x != o ==> x in g.pending || x.kind == UserEvent
  }

  /** The object itself, without what it had retained. */
  function Cut(g: Graph, o: Retainable): Graph {
    Graph(g.refs - {o}, g.pending, g.app - {o}, g.deleted + [o])
  }

  lemma CutShape(g: Graph, o: Retainable)
    requires Shape(g) && Balanced(g, null) && o in g.refs && g.refs[o] == 0 && o !in g.pending
    ensures Shape(Cut(g, o)) && Cut(g, o).refs.Keys == g.refs.Keys - {o}
  {
    hide Balanced;
    assert Cut(g, o).refs.Keys == g.refs.Keys - {o};
    forall c | c in g.refs ensures c.parent != o {
      NoChildren(g, o, c);
    }
  }

  lemma CutBalanced(g: Graph, o: Retainable)
    requires Balanced(g, null) && o in g.refs
    ensures Balanced(Cut(g, o), o.parent)
  {
    var h := Cut(g, o);
    hide Children;
    assert h.refs.Keys == g.refs.Keys - {o};
    forall x | x in h.refs
      ensures h.refs[x] == Count(h.app, x) + |Children(h.refs.Keys, x)| + if x == o.parent then 1 else 0
    {
      ChildrenWithout(g.refs.Keys, o, x);
    }
  }

  /** A release keeps the counts, deletes no object that the application or an existing object still
      refers to, and stops at the context. */
  lemma {:induction false} DroppedInv(g: Graph, o: Retainable)
    requires Shape(g) && Balanced(g, o) && Kept(g) && o in g.refs
    ensures Inv(Dropped(g, o)) && g.refs[o] > 0
    decreases Depth(o.kind), 1
  {
    DecrementedInv(g, o);
    hide Shape, Balanced;
    var h := Decremented(g, o);
    if h.refs[o] == 0 && o !in g.pending {
      DeletedInv(h, o);
    }
  }

  lemma {:induction false} DeletedInv(g: Graph, o: Retainable)
    requires Shape(g) && Balanced(g, null) && o in g.refs && g.refs[o] == 0 && o !in g.pending && KeptBut(g, o)
    ensures Inv(Deleted(g, o))
    decreases Depth(o.kind), 0
  {
    hide Shape, Balanced, Dropped, Kept, KeptBut, Cut, WellPlaced, Depth;
    CutShape(g, o);
    CutBalanced(g, o);
    CutKept(g, o);
    if o.parent != null {
      DroppedInv(Cut(g, o), o.parent);
    }
  }

  lemma CutKept(g: Graph, o: Retainable)
    requires Shape(g) && KeptBut(g, o) && o in g.refs
    ensures Kept(Cut(g, o))
    ensures o.parent != null ==> o.parent in Cut(g, o).refs && Depth(o.parent.kind) < Depth(o.kind)
  {
    assert WellPlaced(o);
  }

  lemma CreatedInv(g: Graph, o: Retainable)
    requires Inv(g) && o !in g.refs && o !in g.deleted
    requires WellPlaced(o) && (o.parent != null ==> o.parent in g.refs && o.parent != o)
    ensures Inv(Created(g, o))
  {
    hide *;
    CreatedShape(g, o);
    CreatedBalanced(g, o);
    CreatedKept(g, o);
    InvParts(Created(g, o));
  }

  lemma InvParts(g: Graph)
    requires Shape(g) && Balanced(g, null) && Kept(g)
    ensures Inv(g)
  {
  }

  lemma CreatedKept(g: Graph, o: Retainable)
    requires Inv(g) && o !in g.refs
    ensures Kept(Created(g, o))
  {
    hide Shape, Balanced;
  }

  lemma CreatedBalanced(g: Graph, o: Retainable)
    requires Inv(g) && o !in g.refs && (o.parent != null ==> o.parent in g.refs && o.parent != o)
    ensures Balanced(Created(g, o), null)
  {
    hide Shape, Kept, Created, Children;
    forall x | x in Created(g, o).refs
      ensures var h := Created(g, o); h.refs[x] == Count(h.app, x) + |Children(h.refs.Keys, x)|
    {
      CreatedCount(g, o, x);
    }
  }

  lemma CreatedCount(g: Graph, o: Retainable, x: Retainable)
    requires Shape(g) && Balanced(g, null) && o !in g.refs && x in Created(g, o).refs
    requires o.parent != null ==> o.parent in g.refs && o.parent != o
    ensures var h := Created(g, o); h.refs[x] == Count(h.app, x) + |Children(h.refs.Keys, x)|
  {
    hide Shape, Children;
    var h := Created(g, o);
    assert h.refs.Keys == g.refs.Keys + {o};
    assert h.refs.Keys - {o} == g.refs.Keys;
    ChildrenWithout(h.refs.Keys, o, x);
    if x == o {
      ChildrenOfNew(g, o);
    }
  }

  lemma CreatedShape(g: Graph, o: Retainable)
    requires Inv(g) && o !in g.refs && o !in g.deleted && WellPlaced(o) && (o.parent != null ==> o.parent in g.refs)
    ensures Shape(Created(g, o)) && Created(g, o).refs.Keys == g.refs.Keys + {o}
  {
    hide Balanced;
    assert Created(g, o).refs.Keys == g.refs.Keys + {o};
  }

  lemma ChildrenOfNew(g: Graph, o: Retainable)
    requires Shape(g) && o !in g.refs
    ensures Children(g.refs.Keys, o) == {}
  {
  }

  lemma AppRetainedInv(g: Graph, o: Retainable)
    requires Inv(g) && o in g.refs
    ensures Inv(AppRetained(g, o))
  {
    hide *;
    AppRetainedShape(g, o);
    AppRetainedBalanced(g, o);
    InvParts(AppRetained(g, o));
  }

  lemma AppRetainedShape(g: Graph, o: Retainable)
    requires Inv(g) && o in g.refs
    ensures Shape(AppRetained(g, o)) && Kept(AppRetained(g, o))
  {
    hide Balanced;
    var h := AppRetained(g, o);
    assert h.refs.Keys == g.refs.Keys && h.app.Keys == g.app.Keys;
  }

  lemma AppRetainedBalanced(g: Graph, o: Retainable)
    requires Inv(g) && o in g.refs
    ensures Balanced(AppRetained(g, o), null)
  {
    hide Children, Shape, Kept;
    assert AppRetained(g, o).refs.Keys == g.refs.Keys;
  }

  lemma AppReleasedInv(g: Graph, o: Retainable)
    requires Inv(g) && Count(g.app, o) > 0
    ensures Inv(AppReleased(g, o)) && Releasable(g.(app := g.app[o := g.app[o] - 1]), o)
  {
    AppReleasable(g, o);
    hide *;
    DroppedInv(g.(app := g.app[o := g.app[o] - 1]), o);
    AppReleasedIs(g, o);
  }

  lemma AppReleasedIs(g: Graph, o: Retainable)
    requires Count(g.app, o) > 0
    ensures o in g.app && AppReleased(g, o) == Dropped(g.(app := g.app[o := g.app[o] - 1]), o)
  {
    hide Dropped;
  }

  /** A reference to `o` has been given up, but not yet subtracted. */
  ghost predicate Releasable(g: Graph, o: Retainable) {
    Shape(g) && Balanced(g, o) && Kept(g) && o in g.refs
  }

  lemma AppReleasable(g: Graph, o: Retainable)
    requires Inv(g) && Count(g.app, o) > 0
    ensures Releasable(g.(app := g.app[o := g.app[o] - 1]), o)
  {
    hide Children;
    var h := g.(app := g.app[o := g.app[o] - 1]);
    assert h.app.Keys == g.app.Keys;
  }

  function Ended(g: Graph, o: Retainable): Graph {
    g.(pending := g.pending - {o})
  }

  lemma EndedInv(g: Graph, o: Retainable)
    requires Inv(g) && o in g.pending
    ensures var h := Ended(g, o); Shape(h) && Balanced(h, null) && KeptBut(h, o) && o in h.refs && IsEvent(o.kind)
    ensures g.refs[o] > 0 || o.kind == UserEvent ==> Kept(Ended(g, o))
  {
    hide Children;
  }

  lemma CompletedInv(g: Graph, o: Retainable)
    requires Inv(g) && o in g.pending
    ensures Inv(Completed(g, o))
  {
    EndedInv(g, o);
    hide Shape, Balanced, Kept, KeptBut, Deleted;
    if g.refs[o] == 0 && o.kind == CommandEvent {
      DeletedInv(Ended(g, o), o);
    }
  }

  // ---- what exists is exactly what is needed ----

  /** The object and everything it keeps alive. */
  function Ancestors(o: Retainable): set<Retainable>
    decreases Depth(o.kind)
  {
    {o} + if o.parent != null && Depth(o.parent.kind) < Depth(o.kind) then Ancestors(o.parent) else {}
  }

  function Leaked(g: Graph): set<Retainable> {
    set o | o in g.refs && g.refs[o] == 0 && o !in g.pending
  }

  /** What the application holds, what is still being executed, and what has leaked. */
  function Roots(g: Graph): set<Retainable> {
    (set o | o in g.refs && Count(g.app, o) > 0) + g.pending + Leaked(g)
  }

  ghost predicate Needed(g: Graph, o: Retainable) {
    exists r :: r in Roots(g) && o in Ancestors(r)
  }

  lemma {:induction false} AncestorsExist(g: Graph, r: Retainable)
    requires Shape(g) && r in g.refs
    ensures Ancestors(r) <= g.refs.Keys
    decreases Depth(r.kind)
  {
    assert WellPlaced(r);
    if r.parent != null {
      AncestorsExist(g, r.parent);
    }
  }

  lemma {:induction false} ParentInAncestors(g: Graph, r: Retainable, c: Retainable)
    requires Shape(g) && r in g.refs && c in Ancestors(r) && c.parent != null
    ensures c.parent in Ancestors(r)
    decreases Depth(r.kind)
  {
    assert WellPlaced(r);
    if r.parent != null {
      assert WellPlaced(r.parent);
    }
    if c != r {
      ParentInAncestors(g, r.parent, c);
    }
  }

  lemma {:induction false} ExistingIsNeeded(g: Graph, o: Retainable)
    requires Inv(g) && o in g.refs
    ensures Needed(g, o)
    decreases 2 - Depth(o.kind)
  {
    if o in Roots(g) {
      assert o in Ancestors(o);
    } else {
      SomeChild(g, o);
      var c :| c in g.refs && c.parent == o;
      assert WellPlaced(c);
      ExistingIsNeeded(g, c);
      var r :| r in Roots(g) && c in Ancestors(r);
      ParentInAncestors(g, r, c);
    }
  }

  lemma SomeChild(g: Graph, o: Retainable)
    requires Balanced(g, null) && o in g.refs && o !in Roots(g)
    ensures exists c :: c in g.refs && c.parent == o
  {
    var cs := Children(g.refs.Keys, o);
    assert |cs| > 0;
    var c :| c in cs;
  }

  /** An object exists exactly when the application or a pending event needs it, or it has leaked. */
  lemma ExactlyNeeded(g: Graph, o: Retainable)
    requires Inv(g)
    ensures o in g.refs <==> Needed(g, o)
  {
    if o in g.refs {
      ExistingIsNeeded(g, o);
    }
    if Needed(g, o) {
      var r :| r in Roots(g) && o in Ancestors(r);
      AncestorsExist(g, r);
    }
  }

  // ---- runs ----

  datatype Action = Create(o: Retainable) | Retain(o: Retainable) | Release(o: Retainable) | Complete(o: Retainable)

  /** New objects are new; the application retains what it holds, and in a callback also the pending event;
      it releases what it holds; an event completes once. */
  predicate Allowed(g: Graph, a: Action) {
    match a
    case Create(o) => o !in g.refs && o !in g.deleted && WellPlaced(o)
        && (o.parent != null ==> o.parent in g.refs && o.parent != o)
    case Retain(o) => Count(g.app, o) > 0 || o in g.pending
    case Release(o) => Count(g.app, o) > 0
    case Complete(o) => o in g.pending
  }

  function Next(g: Graph, a: Action): Graph
    requires Allowed(g, a)
  {
    match a
    case Create(o) => Created(g, o)
    case Retain(o) => AppRetained(g, o)
    case Release(o) => AppReleased(g, o)
    case Complete(o) => Completed(g, o)
  }

  lemma HeldExists(g: Graph, o: Retainable)
    requires Inv(g) && (Count(g.app, o) > 0 || o in g.pending)
    ensures o in g.refs
  {
  }

  lemma NextInv(g: Graph, a: Action)
    requires Inv(g) && Allowed(g, a)
    ensures Inv(Next(g, a))
  {
    hide Inv, Created, AppRetained, AppReleased, Completed, WellPlaced;
    match a
    case Create(o) => CreatedInv(g, o);
    case Retain(o) => HeldExists(g, o); AppRetainedInv(g, o);
    case Release(o) => AppReleasedInv(g, o);
    case Complete(o) => CompletedInv(g, o);
  }

  lemma {:induction false} DroppedLeaks(g: Graph, o: Retainable)
    requires Releasable(g, o)
    ensures Leaked(Dropped(g, o)) == Leaked(g)
    decreases Depth(o.kind), 1
  {
    hide Shape, Balanced, Kept, KeptBut, Deleted;
    DecrementedInv(g, o);
    var h := Decremented(g, o);
    if h.refs[o] == 0 && o !in g.pending {
      DeletedLeaks(h, o);
      assert Leaked(h) == Leaked(g) + {o};
    } else {
      assert Leaked(h) == Leaked(g);
    }
  }

  lemma {:induction false} DeletedLeaks(g: Graph, o: Retainable)
    requires Shape(g) && Balanced(g, null) && o in g.refs && g.refs[o] == 0 && o !in g.pending && KeptBut(g, o)
    ensures Leaked(Deleted(g, o)) == Leaked(g) - {o}
    decreases Depth(o.kind), 0
  {
    hide Shape, Balanced, Dropped, Kept, KeptBut, WellPlaced, Depth;
    CutShape(g, o);
    CutBalanced(g, o);
    CutKept(g, o);
    assert Leaked(Cut(g, o)) == Leaked(g) - {o};
    if o.parent != null {
      DroppedLeaks(Cut(g, o), o.parent);
    }
  }

  /** Leaked objects stay; the only new ones are user events whose status is set when nothing refers to
      them any more. */
  lemma {:induction false} LeakStep(g: Graph, a: Action)
    requires Inv(g) && Allowed(g, a)
    ensures Leaked(Next(g, a)) == Leaked(g) + LeakedBy(g, a)
  {
    hide Inv, Created, AppRetained, AppReleased, Completed, WellPlaced, Leaked;
    match a
    case Create(o) => CreateLeaks(g, o);
    case Retain(o) => RetainLeaks(g, o);
    case Release(o) => ReleaseLeaks(g, o);
    case Complete(o) => CompleteLeaks(g, o);
  }

  lemma CreateLeaks(g: Graph, o: Retainable)
    requires Inv(g) && o !in g.refs && WellPlaced(o) && (o.parent != null ==> o.parent in g.refs && o.parent != o)
    ensures Leaked(Created(g, o)) == Leaked(g)
  {
    hide Balanced;
    assert Created(g, o).refs.Keys == g.refs.Keys + {o};
    assert forall x :: x in g.refs && x != o.parent ==> Created(g, o).refs[x] == g.refs[x];
  }

  lemma RetainLeaks(g: Graph, o: Retainable)
    requires Inv(g) && (Count(g.app, o) > 0 || o in g.pending)
    ensures Leaked(AppRetained(g, o)) == Leaked(g)
  {
    hide Children;
    assert AppRetained(g, o).refs.Keys == g.refs.Keys;
    assert Count(g.app, o) > 0 ==> g.refs[o] > 0;
  }

  lemma ReleaseLeaks(g: Graph, o: Retainable)
    requires Inv(g) && Count(g.app, o) > 0
    ensures Leaked(AppReleased(g, o)) == Leaked(g)
  {
    AppReleasable(g, o);
    AppReleasedIs(g, o);
    hide Inv, Releasable, Dropped, AppReleased;
    DroppedLeaks(g.(app := g.app[o := g.app[o] - 1]), o);
  }

  lemma CompleteLeaks(g: Graph, o: Retainable)
    requires Inv(g) && o in g.pending
    ensures Leaked(Completed(g, o)) == Leaked(g) + LeakedBy(g, Complete(o))
  {
    EndedInv(g, o);
    EndedLeaks(g, o);
    hide Inv, Shape, Balanced, Kept, KeptBut, Deleted, Leaked;
    if g.refs[o] == 0 && o.kind == CommandEvent {
      DeletedLeaks(Ended(g, o), o);
      assert Leaked(g) + {o} - {o} == Leaked(g) by { assert o !in Leaked(g) by { NotLeaked(g, o); } }
    }
  }

  lemma NotLeaked(g: Graph, o: Retainable)
    requires o in g.pending
    ensures o !in Leaked(g)
  {
  }

  lemma EndedLeaks(g: Graph, o: Retainable)
    requires Inv(g) && o in g.pending
    ensures o in g.refs && Leaked(Ended(g, o)) == Leaked(g) + if g.refs[o] == 0 then {o} else {}
  {
    hide Balanced, Kept;
  }

  function Empty(): Graph {
    Graph(map[], {}, map[], [])
  }

  /** `leaks` collects the user events whose status is set when nothing refers to them any more. */
  datatype Run = Run(graph: Graph, leaks: set<Retainable>)

  function Exec(run: seq<Action>): Option<Run> {
    if run == [] then Some(Run(Empty(), {})) else
    var r, a := Exec(run[..|run| - 1]), run[|run| - 1];
    if r.None? || !Allowed(r.value.graph, a) then None else
    Some(Run(Next(r.value.graph, a), r.value.leaks + LeakedBy(r.value.graph, a)))
  }

  function LeakedBy(g: Graph, a: Action): set<Retainable> {
    if a.Complete? && a.o.kind == UserEvent && Count(g.refs, a.o) == 0 then {a.o} else {}
  }

  /** In every reachable state: the counts are balanced, exactly what is needed exists, and what has leaked
      is exactly the user events whose status was set after the last reference to them was gone. */
  lemma {:induction false} Conservation(run: seq<Action>)
    requires Exec(run).Some?
    ensures Inv(Exec(run).value.graph) && Leaked(Exec(run).value.graph) == Exec(run).value.leaks
    decreases |run|
  {
    if run != [] {
      hide Inv, Leaked, Next, LeakedBy, Allowed;
      var r, a := Exec(run[..|run| - 1]).value, run[|run| - 1];
      Conservation(run[..|run| - 1]);
      NextInv(r.graph, a);
      LeakStep(r.graph, a);
    } else {
      assert Leaked(Empty()) == {};
    }
  }

  /** The references to an object that the application has been given, less those that it has released. */
  function References(run: seq<Action>, o: Retainable): int {
    if run == [] then 0 else References(run[..|run| - 1], o) + Given(run[|run| - 1], o)
  }

  function Given(a: Action, o: Retainable): int {
    if a.o != o then 0 else match a
      case Create(_) => 1
      case Retain(_) => 1
      case Release(_) => -1
      case Complete(_) => 0
  }

  /** Nobody holds what is deleted. */
  lemma {:induction false} DroppedHeld(g: Graph, o: Retainable, x: Retainable)
    requires Releasable(g, o)
    ensures Count(Dropped(g, o).app, x) == Count(g.app, x)
    decreases Depth(o.kind), 1
  {
    hide Shape, Balanced, Kept, KeptBut, Deleted;
    DecrementedInv(g, o);
    var h := Decremented(g, o);
    if h.refs[o] == 0 && o !in g.pending {
      DeletedHeld(h, o, x);
    }
  }

  lemma {:induction false} DeletedHeld(g: Graph, o: Retainable, x: Retainable)
    requires Dead(g, o)
    ensures Count(Deleted(g, o).app, x) == Count(g.app, x)
    decreases Depth(o.kind), 0
  {
    NotHeld(g, o);
    hide Shape, Balanced, Dropped, Kept, KeptBut, WellPlaced, Depth;
    CutShape(g, o);
    CutBalanced(g, o);
    CutKept(g, o);
    if o.parent != null {
      DroppedHeld(Cut(g, o), o.parent, x);
    }
  }

  lemma NotHeld(g: Graph, o: Retainable)
    requires Balanced(g, null) && o in g.refs && g.refs[o] == 0
    ensures Count(g.app, o) == 0
  {
  }

  lemma NextHeld(g: Graph, a: Action, x: Retainable)
    requires Inv(g) && Allowed(g, a)
    ensures Count(Next(g, a).app, x) == Count(g.app, x) + Given(a, x)
  {
    match a
    case Create(o) => NewNotHeld(g, o); hide Shape, Balanced, Kept;
    case Retain(o) => hide Inv;
    case Release(o) =>
      AppReleasable(g, o);
      AppReleasedIs(g, o);
      hide Inv, Releasable, Dropped, AppReleased;
      DroppedHeld(g.(app := g.app[o := g.app[o] - 1]), o, x);
    case Complete(o) =>
      CompletedIs(g, o);
      hide Inv, Dead, Deleted, Completed;
      if Count(g.refs, o) == 0 && o.kind == CommandEvent {
        DeletedHeld(Ended(g, o), o, x);
      }
  }

  lemma NewNotHeld(g: Graph, o: Retainable)
    requires Shape(g) && o !in g.refs
    ensures Count(g.app, o) == 0
  {
  }

  /** In every reachable state the application holds of every object exactly the references that it has been
      given, by creating and retaining it, and has not released; so it holds none of a deleted object. */
  lemma {:induction false} ReferencesCounted(run: seq<Action>, o: Retainable)
    requires Exec(run).Some?
    ensures Count(Exec(run).value.graph.app, o) == References(run, o)
    decreases |run|
  {
    if run != [] {
      hide Inv, Next, LeakedBy, Allowed, Given;
      ReferencesCounted(run[..|run| - 1], o);
      Conservation(run[..|run| - 1]);
      NextHeld(Exec(run[..|run| - 1]).value.graph, run[|run| - 1], o);
    }
  }

  /** So the count of an existing object is known from what was done with it and with what retains it. */
  lemma CountsAreActions(run: seq<Action>, o: Retainable)
    requires Exec(run).Some? && o in Exec(run).value.graph.refs
    ensures var g := Exec(run).value.graph;
            g.refs[o] == References(run, o) + |Children(g.refs.Keys, o)|
  {
    hide Exec, Children;
    Conservation(run);
    ReferencesCounted(run, o);
  }

  /** In every reachable state an object exists exactly when the application holds it, it is an event still
      to be completed, it has leaked, or one of these keeps it alive; nothing is deleted twice. */
  lemma NoGarbage(run: seq<Action>, o: Retainable)
    requires Exec(run).Some?
    ensures var r := Exec(run).value; var g := r.graph;
            && (o in g.refs <==>
                exists x ::
                  x in g.refs && (Count(g.app, x) > 0 || x in g.pending || x in r.leaks) && o in Ancestors(x))
            && (forall i, j :: 0 <= i < j < |g.deleted| ==> g.deleted[i] != g.deleted[j])
            && (forall x :: x in g.deleted ==> x !in g.refs)
  {
    Conservation(run);
    var r := Exec(run).value;
    hide Exec, Ancestors;
    ExactlyNeeded(r.graph, o);
    assert forall x :: x in Roots(r.graph) <==>
      x in r.graph.refs && (Count(r.graph.app, x) > 0 || x in r.graph.pending || x in r.leaks);
  }

  predicate Known(g: Graph, o: Retainable) {
    o in g.refs || o in g.deleted
  }

  /** No object is deleted before one that has retained it. */
  ghost predicate ChildrenFirst(g: Graph) {
    forall i, j :: 0 <= i < j < |g.deleted| ==> g.deleted[j].parent != g.deleted[i]
  }

  /** Over any run, whatever has been created exists or was deleted, and nothing else; what retains an object is
      deleted before it. */
  lemma {:induction false} CreatedOrDeleted(run: seq<Action>, o: Retainable)
    requires Exec(run).Some?
    ensures Create(o) in run <==> Known(Exec(run).value.graph, o)
    ensures ChildrenFirst(Exec(run).value.graph)
    decreases |run|
  {
    hide *;
    if run == [] {
      NothingKnown(o);
    } else {
      var front, a := run[..|run| - 1], run[|run| - 1];
      LastStep(run);
      CreatedOrDeleted(front, o);
      Conservation(front);
      NextKnown(Exec(front).value.graph, a, o);
      assert run == front + [a];
    }
  }

  lemma NothingKnown(o: Retainable)
    ensures Exec([]).Some? && !Known(Exec([]).value.graph, o) && ChildrenFirst(Exec([]).value.graph)
  {
  }

  lemma LastStep(run: seq<Action>)
    requires run != [] && Exec(run).Some?
    ensures var front, a := run[..|run| - 1], run[|run| - 1];
            && Exec(front).Some? && Allowed(Exec(front).value.graph, a)
            && Exec(run).value.graph == Next(Exec(front).value.graph, a)
  {
    hide Inv, Next, Allowed, LeakedBy;
  }

  lemma CutChildrenFirst(g: Graph, o: Retainable)
    requires Shape(g) && ChildrenFirst(g) && o in g.refs
    ensures ChildrenFirst(Cut(g, o))
  {
    forall i | 0 <= i < |g.deleted| ensures o.parent != g.deleted[i] {
      assert g.deleted[i] in g.deleted;
    }
  }

  lemma NextKnown(g: Graph, a: Action, x: Retainable)
    requires Inv(g) && Allowed(g, a) && ChildrenFirst(g)
    ensures Known(Next(g, a), x) <==> Known(g, x) || a == Create(x)
    ensures ChildrenFirst(Next(g, a))
  {
    match a
    case Create(o) =>
      hide Inv;
    case Retain(o) =>
      HeldExists(g, o);
      hide Inv;
    case Release(o) =>
      AppReleasable(g, o);
      AppReleasedIs(g, o);
      hide Inv, Releasable, Dropped, AppReleased;
      DroppedKnown(g.(app := g.app[o := g.app[o] - 1]), o, x);
    case Complete(o) =>
      CompletedIs(g, o);
      hide Inv, Dead, Deleted, Completed;
      if Count(g.refs, o) == 0 && o.kind == CommandEvent {
        DeletedKnown(Ended(g, o), o, x);
      }
  }

  lemma {:induction false} DroppedKnown(g: Graph, o: Retainable, x: Retainable)
    requires Releasable(g, o) && ChildrenFirst(g)
    ensures (Known(Dropped(g, o), x) <==> Known(g, x)) && ChildrenFirst(Dropped(g, o))
    decreases Depth(o.kind), 1
  {
    hide Shape, Balanced, Kept, KeptBut, Deleted;
    DecrementedInv(g, o);
    var h := Decremented(g, o);
    if h.refs[o] == 0 && o !in g.pending {
      DeletedKnown(h, o, x);
    }
  }

  lemma {:induction false} DeletedKnown(g: Graph, o: Retainable, x: Retainable)
    requires Dead(g, o) && ChildrenFirst(g)
    ensures (Known(Deleted(g, o), x) <==> Known(g, x)) && ChildrenFirst(Deleted(g, o))
    decreases Depth(o.kind), 0
  {
    hide Shape, Balanced, Dropped, Kept, KeptBut, WellPlaced, Depth;
    CutShape(g, o);
    CutBalanced(g, o);
    CutKept(g, o);
    CutChildrenFirst(g, o);
    assert Known(Cut(g, o), x) <==> Known(g, x);
    hide Known, ChildrenFirst, Cut;
    if o.parent != null {
      DroppedKnown(Cut(g, o), o.parent, x);
    }
  }

  /** A user event whose only reference is released by its callback: setting its status leaves it, and the
      context that it retains, for good. */
  lemma LeakingRun(c: Retainable, u: Retainable)
    requires c.kind == Context && c.parent == null && u.kind == UserEvent && u.parent == c
    ensures var r := Exec([Create(c), Create(u), Release(c), Release(u), Complete(u)]);
            r.Some? && r.value.leaks == {u} && r.value.graph.deleted == [] && {c, u} <= r.value.graph.refs.Keys
  {
    hide Allowed, Next, Exec;
    HeldOnce(c, u);
    var before := [] + [Create(c)] + [Create(u)];
    var g2 := Graph(map[c := 2, u := 1], {u}, map[c := 1, u := 1], []);
    var g3 := Graph(map[c := 1, u := 1], {u}, map[c := 0, u := 1], []);
    var g4 := Graph(map[c := 1, u := 0], {u}, map[c := 0, u := 0], []);
    var g5 := Graph(map[c := 1, u := 0], {}, map[c := 0, u := 0], []);
    NextSteps(c, u, g2, g3, g4, g5);
    More(before, g2, {}, Release(c), g3);
    assert {} + LeakedBy(g2, Release(c)) == {};
    More(before + [Release(c)], g3, {}, Release(u), g4);
    assert {} + LeakedBy(g3, Release(u)) == {};
    More(before + [Release(c)] + [Release(u)], g4, {}, Complete(u), g5);
    assert before + [Release(c)] + [Release(u)] + [Complete(u)]
        == [Create(c), Create(u), Release(c), Release(u), Complete(u)];
  }

  lemma HeldOnce(c: Retainable, u: Retainable)
    requires c.kind == Context && c.parent == null && u.kind == UserEvent && u.parent == c
    ensures Exec([] + [Create(c)] + [Create(u)])
         == Some(Run(Graph(map[c := 2, u := 1], {u}, map[c := 1, u := 1], []), {}))
  {
    assert c != u;
    More([], Empty(), {}, Create(c), Graph(map[c := 1], {}, map[c := 1], []));
    More([] + [Create(c)], Graph(map[c := 1], {}, map[c := 1], []), {}, Create(u),
         Graph(map[c := 2, u := 1], {u}, map[c := 1, u := 1], []));
  }

  lemma NextSteps(c: Retainable, u: Retainable, g2: Graph, g3: Graph, g4: Graph, g5: Graph)
    requires c.kind == Context && c.parent == null && u.kind == UserEvent && u.parent == c
    requires g2 == Graph(map[c := 2, u := 1], {u}, map[c := 1, u := 1], [])
    requires g3 == Graph(map[c := 1, u := 1], {u}, map[c := 0, u := 1], [])
    requires g4 == Graph(map[c := 1, u := 0], {u}, map[c := 0, u := 0], [])
    requires g5 == Graph(map[c := 1, u := 0], {}, map[c := 0, u := 0], [])
    ensures Allowed(g2, Release(c)) && Next(g2, Release(c)) == g3 && Allowed(g3, Release(u))
            && Next(g3, Release(u)) == g4
    ensures Allowed(g4, Complete(u)) && Next(g4, Complete(u)) == g5
    ensures LeakedBy(g2, Release(c)) == {} && LeakedBy(g3, Release(u)) == {} && LeakedBy(g4, Complete(u)) == {u}
  {
    assert c != u;
  }

  /** A kernel keeps its program and the context; with its last reference all three are deleted. */
  lemma CascadingRun(c: Retainable, p: Retainable, k: Retainable)
    requires c.kind == Context && c.parent == null && p.kind == Program && p.parent == c
    requires k.kind == Kernel && k.parent == p
    ensures Exec([Create(c), Create(p), Create(k), Release(c), Release(p), Release(k)])
         == Some(Run(Graph(map[], {}, map[], [k, p, c]), {}))
  {
    hide Allowed, Next, Exec;
    assert c != p && c != k && p != k;
    var g1 := Graph(map[c := 1], {}, map[c := 1], []);
    var g2 := Graph(map[c := 2, p := 1], {}, map[c := 1, p := 1], []);
    var g3 := Graph(map[c := 2, p := 2, k := 1], {}, map[c := 1, p := 1, k := 1], []);
    var g4 := Graph(map[c := 1, p := 2, k := 1], {}, map[c := 0, p := 1, k := 1], []);
    var g5 := Graph(map[c := 1, p := 1, k := 1], {}, map[c := 0, p := 0, k := 1], []);
    NextCreated(c, p, k, g1, g2, g3);
    NextReleased(c, p, k, g3, g4, g5);
    LastReleased(c, p, k, g5);
    NoneLeaks([Create(c), Create(p), Create(k), Release(c), Release(p), Release(k)],
      [Empty(), g1, g2, g3, g4, g5, Graph(map[], {}, map[], [k, p, c])]);
  }

  lemma NextCreated(c: Retainable, p: Retainable, k: Retainable, g1: Graph, g2: Graph, g3: Graph)
    requires c.kind == Context && c.parent == null && p.kind == Program && p.parent == c
    requires k.kind == Kernel && k.parent == p && g1 == Graph(map[c := 1], {}, map[c := 1], [])
    requires g2 == Graph(map[c := 2, p := 1], {}, map[c := 1, p := 1], [])
    requires g3 == Graph(map[c := 2, p := 2, k := 1], {}, map[c := 1, p := 1, k := 1], [])
    ensures Allowed(Empty(), Create(c)) && Next(Empty(), Create(c)) == g1
    ensures Allowed(g1, Create(p)) && Next(g1, Create(p)) == g2 && Allowed(g2, Create(k)) && Next(g2, Create(k)) == g3
  {
  }

  lemma NextReleased(c: Retainable, p: Retainable, k: Retainable, g3: Graph, g4: Graph, g5: Graph)
    requires c != p && c != k && p != k
    requires g3 == Graph(map[c := 2, p := 2, k := 1], {}, map[c := 1, p := 1, k := 1], [])
    requires g4 == Graph(map[c := 1, p := 2, k := 1], {}, map[c := 0, p := 1, k := 1], [])
    requires g5 == Graph(map[c := 1, p := 1, k := 1], {}, map[c := 0, p := 0, k := 1], [])
    ensures Allowed(g3, Release(c)) && Next(g3, Release(c)) == g4
    ensures Allowed(g4, Release(p)) && Next(g4, Release(p)) == g5
  {
    hide Next;
    assert Next(g3, Release(c)) == g4 by {
      OneLess(g3, c);
      LessInMap(c, p, k, g3.refs, c);
      LessInMap(c, p, k, g3.app, c);
    }
    assert Next(g4, Release(p)) == g5 by {
      OneLess(g4, p);
      LessInMap(c, p, k, g4.refs, p);
      LessInMap(c, p, k, g4.app, p);
    }
  }

  lemma LessInMap(a: Retainable, b: Retainable, c: Retainable, m: map<Retainable, nat>, o: Retainable)
    requires m.Keys == {a, b, c} && o in m && m[o] > 0
    ensures m[o := m[o] - 1] == map[a := if o == a then m[a] - 1 else m[a], b := if o == b then m[b] - 1 else m[b],
                                    c := if o == c then m[c] - 1 else m[c]]
  {
  }

  /** A release that is not the last one, or of a pending event. */
  lemma OneLess(g: Graph, o: Retainable)
    requires Count(g.app, o) > 0 && Count(g.refs, o) > 0 && (Count(g.refs, o) > 1 || o in g.pending)
    ensures Next(g, Release(o)) == g.(refs := g.refs[o := g.refs[o] - 1], app := g.app[o := g.app[o] - 1])
  {
  }

  lemma LastReleased(c: Retainable, p: Retainable, k: Retainable, g5: Graph)
    requires c.kind == Context && c.parent == null && p.kind == Program && p.parent == c
    requires k.kind == Kernel && k.parent == p
    requires g5 == Graph(map[c := 1, p := 1, k := 1], {}, map[c := 0, p := 0, k := 1], [])
    ensures Allowed(g5, Release(k)) && Next(g5, Release(k)) == Graph(map[], {}, map[], [k, p, c])
  {
    var g := g5.(app := g5.app[k := g5.app[k] - 1]);
    assert g == g5.(app := map[c := 0, p := 0, k := 0]);
    AppReleasedIs(g5, k);
    hide AppReleased;
    var h := Graph(map[c := 1, p := 1], {}, map[c := 0, p := 0], [k]);
    assert Cut(Decremented(g, k), k) == h;
    BothDropped(c, p, [k]);
    assert Dropped(g, k) == Dropped(h, p);
  }

  /** A context and what has retained it, with nothing else left. */
  lemma BothDropped(c: Retainable, p: Retainable, deleted: seq<Retainable>)
    requires c.kind == Context && c.parent == null && (p.kind == Program || p.kind == Queue) && p.parent == c
    ensures Dropped(Graph(map[c := 1, p := 1], {}, map[c := 0, p := 0], deleted), p)
         == Graph(map[], {}, map[], deleted + [p, c])
  {
    assert c != p;
    var h := Graph(map[c := 1, p := 1], {}, map[c := 0, p := 0], deleted);
    var i := Graph(map[c := 1], {}, map[c := 0], deleted + [p]);
    assert Cut(Decremented(h, p), p) == i;
    assert Cut(Decremented(i, c), c) == Graph(map[], {}, map[], deleted + [p] + [c]);
    assert Dropped(i, c) == Graph(map[], {}, map[], deleted + [p] + [c]);
    assert deleted + [p] + [c] == deleted + [p, c];
  }

  /** A run through these graphs, none of whose steps leaks anything. */
  lemma {:induction false} NoneLeaks(run: seq<Action>, graphs: seq<Graph>)
    requires |graphs| == |run| + 1 && graphs[0] == Empty()
    requires forall i :: 0 <= i < |run| ==>
               && Allowed(graphs[i], run[i]) && Next(graphs[i], run[i]) == graphs[i + 1]
               && LeakedBy(graphs[i], run[i]) == {}
    ensures Exec(run) == Some(Run(graphs[|run|], {}))
    decreases |run|
  {
    hide Allowed, Next, LeakedBy;
    if run != [] {
      var n := |run| - 1;
      NoneLeaks(run[..n], graphs[..n + 1]);
      assert graphs[..n + 1][n] == graphs[n];
      assert LeakedBy(graphs[n], run[n]) == {} && Next(graphs[n], run[n]) == graphs[n + 1];
      assert {} + LeakedBy(graphs[n], run[n]) == {};
    }
  }

  /** A pending event whose references are gone keeps its queue and the context until its command ends. */
  lemma PendingEventRun(c: Retainable, q: Retainable, e: Retainable)
    requires c.kind == Context && c.parent == null && q.kind == Queue && q.parent == c
    requires e.kind == CommandEvent && e.parent == q
    ensures var run := [Create(c), Create(q), Create(e), Retain(e), Release(e), Release(e), Release(q), Release(c)];
            && Exec(run) == Some(Run(Graph(map[c := 1, q := 1, e := 0], {e}, map[c := 0, q := 0, e := 0], []), {}))
            && Exec(run + [Complete(e)]) == Some(Run(Graph(map[], {}, map[], [e, q, c]), {}))
  {
    hide Allowed, Next, Exec;
    assert c != q && c != e && q != e;
    var g1 := Graph(map[c := 1], {}, map[c := 1], []);
    var g2 := Graph(map[c := 2, q := 1], {}, map[c := 1, q := 1], []);
    var g3 := Graph(map[c := 2, q := 2, e := 1], {e}, map[c := 1, q := 1, e := 1], []);
    var g4 := Graph(map[c := 2, q := 2, e := 2], {e}, map[c := 1, q := 1, e := 2], []);
    var g5 := Graph(map[c := 2, q := 2, e := 0], {e}, map[c := 1, q := 1, e := 0], []);
    var g6 := Graph(map[c := 2, q := 1, e := 0], {e}, map[c := 1, q := 0, e := 0], []);
    var g7 := Graph(map[c := 1, q := 1, e := 0], {e}, map[c := 0, q := 0, e := 0], []);
    EventCreated(c, q, e, g1, g2, g3);
    EventHeld(c, q, e, g3, g4, g5);
    OthersReleased(c, q, e, g5, g6, g7);
    EventCompleted(c, q, e, g7);
    var run := [Create(c), Create(q), Create(e), Retain(e), Release(e), Release(e), Release(q), Release(c)];
    NoneLeaks(run, [Empty(), g1, g2, g3, g4, g3, g5, g6, g7]);
    More(run, g7, {}, Complete(e), Graph(map[], {}, map[], [e, q, c]));
    assert {} + LeakedBy(g7, Complete(e)) == {};
  }

  lemma EventCreated(c: Retainable, q: Retainable, e: Retainable, g1: Graph, g2: Graph, g3: Graph)
    requires c.kind == Context && c.parent == null && q.kind == Queue && q.parent == c
    requires e.kind == CommandEvent && e.parent == q && g1 == Graph(map[c := 1], {}, map[c := 1], [])
    requires g2 == Graph(map[c := 2, q := 1], {}, map[c := 1, q := 1], [])
    requires g3 == Graph(map[c := 2, q := 2, e := 1], {e}, map[c := 1, q := 1, e := 1], [])
    ensures Allowed(Empty(), Create(c)) && Next(Empty(), Create(c)) == g1
    ensures Allowed(g1, Create(q)) && Next(g1, Create(q)) == g2 && Allowed(g2, Create(e)) && Next(g2, Create(e)) == g3
  {
  }

  lemma EventHeld(c: Retainable, q: Retainable, e: Retainable, g3: Graph, g4: Graph, g5: Graph)
    requires c != q && c != e && q != e
    requires g3 == Graph(map[c := 2, q := 2, e := 1], {e}, map[c := 1, q := 1, e := 1], [])
    requires g4 == Graph(map[c := 2, q := 2, e := 2], {e}, map[c := 1, q := 1, e := 2], [])
    requires g5 == Graph(map[c := 2, q := 2, e := 0], {e}, map[c := 1, q := 1, e := 0], [])
    ensures Allowed(g3, Retain(e)) && Next(g3, Retain(e)) == g4
    ensures Allowed(g4, Release(e)) && Next(g4, Release(e)) == g3
    ensures Allowed(g3, Release(e)) && Next(g3, Release(e)) == g5
  {
  }

  lemma OthersReleased(c: Retainable, q: Retainable, e: Retainable, g5: Graph, g6: Graph, g7: Graph)
    requires c != q && c != e && q != e
    requires g5 == Graph(map[c := 2, q := 2, e := 0], {e}, map[c := 1, q := 1, e := 0], [])
    requires g6 == Graph(map[c := 2, q := 1, e := 0], {e}, map[c := 1, q := 0, e := 0], [])
    requires g7 == Graph(map[c := 1, q := 1, e := 0], {e}, map[c := 0, q := 0, e := 0], [])
    ensures Allowed(g5, Release(q)) && Next(g5, Release(q)) == g6
    ensures Allowed(g6, Release(c)) && Next(g6, Release(c)) == g7
  {
    hide Next;
    OneLess(g5, q);
    LessInMap(c, q, e, g5.refs, q);
    LessInMap(c, q, e, g5.app, q);
    OneLess(g6, c);
    LessInMap(c, q, e, g6.refs, c);
    LessInMap(c, q, e, g6.app, c);
  }

  lemma EventCompleted(c: Retainable, q: Retainable, e: Retainable, g7: Graph)
    requires c.kind == Context && c.parent == null && q.kind == Queue && q.parent == c
    requires e.kind == CommandEvent && e.parent == q
    requires g7 == Graph(map[c := 1, q := 1, e := 0], {e}, map[c := 0, q := 0, e := 0], [])
    ensures Allowed(g7, Complete(e)) && Next(g7, Complete(e)) == Graph(map[], {}, map[], [e, q, c])
    ensures LeakedBy(g7, Complete(e)) == {}
  {
    var g := Graph(map[c := 1, q := 1], {}, map[c := 0, q := 0], [e]);
    assert Cut(Ended(g7, e), e) == g;
    BothDropped(c, q, [e]);
  }

  lemma More(run: seq<Action>, g: Graph, leaks: set<Retainable>, a: Action, h: Graph)
    requires Exec(run) == Some(Run(g, leaks)) && Allowed(g, a) && Next(g, a) == h
    ensures Exec(run + [a]) == Some(Run(h, leaks + LeakedBy(g, a)))
  {
    hide Allowed, Next;
    assert (run + [a])[..|run + [a]| - 1] == run;
  }

  // ---- the objects themselves ----

  class Icd {
    var live: set<Retainable>
    var deleted: seq<Retainable>
    /** The references held by the application. */
    ghost var app: map<Retainable, nat>

    ghost function State(): Graph
      reads this, live
    {
      Graph((map o | o in live :: o.refCount), (set o | o in live && !o.complete), app, deleted)
    }

    constructor ()
      ensures State() == Empty()
    {
      live, deleted, app := {}, [], map[];
    }

    method Retain(o: Retainable)
      requires o in live
      modifies this`app, o`refCount
      ensures State() == AppRetained(old(State()), o)
      ensures o.refCount == old(o.refCount) + 1 && app == old(app)[o := Count(old(app), o) + 1]
    {
      ghost var g := State();
      o.Retain();
      app := app[o := Count(app, o) + 1];
      assert State().refs == g.refs[o := g.refs[o] + 1];
    }

    /** Every constructor retains the object that the new one belongs to. */
    method Create(kind: Kind, parent: Retainable?) returns (o: Retainable)
      requires Inv(State()) && Placed(kind, parent) && (parent != null ==> parent in live)
      modifies this`live, this`app, live
      ensures fresh(o) && o.kind == kind && o.parent == parent
      ensures State() == Created(old(State()), o) && Inv(State())
    {
      hide *;
      ghost var g := State();
      LiveIs();
      o := new Retainable(kind, parent);
      assert o !in live && o !in deleted;
      CreatedIs(g, o);
      Insert(o);
      if parent != null {
        Hold(parent);
      }
    }

    method Insert(o: Retainable)
      requires o !in live && o.refCount == 1 && o.complete == !IsEvent(o.kind)
      modifies this`live, this`app
      ensures State() == Inserted(old(State()), o) && live == old(live) + {o}
    {
      ghost var g := State();
      live, app := live + {o}, app[o := 1];
      assert State().refs == g.refs[o := 1];
      assert State().pending == g.pending + if IsEvent(o.kind) then {o} else {};
    }

    method Hold(o: Retainable)
      requires o in live
      modifies o`refCount
      ensures State() == Retained(old(State()), o)
    {
      ghost var g := State();
      o.Retain();
      assert State().refs == g.refs[o := g.refs[o] + 1];
    }

    /** The command of an event, or the application for a user event, sets the final status. */
    method Complete(o: Retainable)
      requires Inv(State()) && o in State().pending
      modifies this`live, this`deleted, this`app, live
      ensures State() == Completed(old(State()), o) && Inv(State())
    {
      hide *;
      ghost var g := State();
      LiveIs();
      CompletedInv(g, o);
      CompletedIs(g, o);
      End(o);
      if o.refCount == 0 && o.kind == CommandEvent {
        Delete(o);
      }
    }

    method End(o: Retainable)
      requires o in State().pending
      modifies o`complete
      ensures State() == Ended(old(State()), o) && o.refCount == Count(State().refs, o) == Count(old(State()).refs, o)
    {
      ghost var g := State();
      o.complete := true;
      assert State().pending == g.pending - {o};
    }

    /** A reference of the application. */
    method Release(o: Retainable)
      requires Inv(State()) && Count(State().app, o) > 0
      modifies this, live
      ensures State() == AppReleased(old(State()), o) && Inv(State())
    {
      hide *;
      ghost var g := State();
      AppReleasedIs(g, o);
      AppReleasedInv(g, o);
      GiveUp(o);
      Drop(o);
    }

    ghost method GiveUp(o: Retainable)
      requires Count(State().app, o) > 0
      modifies this`app
      ensures var g := old(State()); o in g.app && g.app[o] > 0 && State() == g.(app := g.app[o := g.app[o] - 1])
    {
      app := app[o := app[o] - 1];
    }

    /** The release of a reference that its holder has given up already. The recursion runs from an object
        to what it had retained. */
    method Drop(o: Retainable)
      requires Releasable(State(), o)
      modifies this`live, this`deleted, this`app, live
      ensures State() == Dropped(old(State()), o) && live <= old(live)
      decreases Depth(o.kind), 1
    {
      hide *;
      ghost var g := State();
      DroppedIs(g, o);
      LiveIs();
      var destroyed := Subtract(o);
      if destroyed {
        Delete(o);
      }
    }

    method Subtract(o: Retainable) returns (destroyed: bool)
      requires o in live && Count(State().refs, o) > 0
      modifies o`refCount
      ensures State() == Decremented(old(State()), o)
      ensures destroyed <==> State().refs[o] == 0 && o !in State().pending
    {
      ghost var g := State();
      destroyed := o.Release();
      assert State().refs == g.refs[o := g.refs[o] - 1];
    }

    /** The destructor. */
    method Delete(o: Retainable)
      requires Dead(State(), o)
      modifies this`live, this`deleted, this`app, live
      ensures State() == Deleted(old(State()), o) && live <= old(live)
      decreases Depth(o.kind), 0
    {
      hide *;
      ghost var g := State();
      DeletedIs(g, o);
      LiveIs();
      Remove(o);
      if o.parent != null {
        Drop(o.parent);
      }
    }

    method Remove(o: Retainable)
      requires o in live && o !in State().pending
      modifies this`live, this`deleted, this`app
      ensures State() == Cut(old(State()), o) && live <= old(live)
    {
      ghost var g := State();
      live, deleted, app := live - {o}, deleted + [o], app - {o};
      assert State().refs == g.refs - {o};
    }

    lemma LiveIs()
      ensures State().refs.Keys == live && State().deleted == deleted
    {
    }
  }

  /** An object whose last reference is gone, about to be deleted. */
  ghost predicate Dead(g: Graph, o: Retainable) {
    Shape(g) && Balanced(g, null) && KeptBut(g, o) && o in g.refs && g.refs[o] == 0 && o !in g.pending
  }

  lemma CreatedIs(g: Graph, o: Retainable)
    requires Inv(g) && o !in g.refs.Keys && o !in g.deleted && Placed(o.kind, o.parent)
    requires o.parent != null ==> o.parent in g.refs.Keys
    ensures Inv(Created(g, o))
    ensures Created(g, o) == if o.parent == null then Inserted(g, o) else Retained(Inserted(g, o), o.parent)
  {
    hide Inv, Inserted, Retained, Placed;
    CreatedInv(g, o);
  }

  lemma CompletedIs(g: Graph, o: Retainable)
    requires Inv(g) && o in g.pending
    ensures o in g.refs.Keys
    ensures var last := Count(g.refs, o) == 0 && o.kind == CommandEvent;
            && (last ==> Dead(Ended(g, o), o))
            && Completed(g, o) == if last then Deleted(Ended(g, o), o) else Ended(g, o)
  {
    hide Deleted, Balanced, Shape, Kept, KeptBut;
    EndedInv(g, o);
  }

  lemma DroppedIs(g: Graph, o: Retainable)
    requires Releasable(g, o)
    ensures o in g.refs.Keys && Count(g.refs, o) > 0
    ensures var h := Decremented(g, o); var last := h.refs[o] == 0 && o !in g.pending;
            && h.pending == g.pending && (last ==> Dead(h, o))
            && Dropped(g, o) == if last then Deleted(h, o) else h
  {
    hide Deleted, Balanced, Shape, Kept, KeptBut;
    DecrementedInv(g, o);
  }

  lemma DeletedIs(g: Graph, o: Retainable)
    requires Dead(g, o)
    ensures o in g.refs.Keys && o !in g.pending
    ensures o.parent != null ==> Depth(o.parent.kind) < Depth(o.kind) && Releasable(Cut(g, o), o.parent)
    ensures Deleted(g, o) == if o.parent != null then Dropped(Cut(g, o), o.parent) else Cut(g, o)
  {
    CutShape(g, o);
    CutBalanced(g, o);
    CutKept(g, o);
    hide Shape, Balanced, Kept, KeptBut, Cut, Dropped;
  }
}
