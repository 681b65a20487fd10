/**
 The invariant of all runs that start rounds and other transfers apart. `n` and `q` are the owner and the
 queue of the rounds at work: while a round is unfinished, all rounds at work have the same.
 */
module SyncRuns {
  import opened Seqs
  import opened Links
  import opened SyncProtocol
  import opened SyncLists
  import opened SyncInvariant
  import opened SyncDrained

  ghost predicate AllOthers(ls: seq<Label>) {
    forall l :: l in ls ==> l.Other?
  }

  /** Receives of items that are posted and not complete. */
  function ItemsTail(l: Link): seq<Label> {
    if Tail(l) != [] && Tail(l)[0].Item? then Tail(l) else []
  }

  /** Acquire chains that are not complete. */
  function Pending(w: Waiter, q: nat): seq<Label> {
    Undone(LaneOf(w, q)) + w.loop
  }

  ghost predicate OwnersOk(cfg: Config, o: map<nat, Owner>, n: nat, part: seq<Label>) {
    forall m :: m in o && Uses(cfg, m) ==> UpOk(cfg, m, o[m], if m == n then part else [])
  }

  ghost predicate TailOf(cfg: Config, m: nat, link: Link, n: nat) {
    AllOthers(Tail(link)) || (m == n && Uses(cfg, n) && AllItems(Tail(link)))
  }

  ghost predicate TailsOk(cfg: Config, o: map<nat, Owner>, n: nat) {
    forall m :: m in o ==> TailOf(cfg, m, o[m].link, n)
  }

  ghost predicate Present(cfg: Config, o: map<nat, Owner>) {
    forall r :: 0 <= r < |cfg.rounds| ==> Provided(cfg.rounds[r], o)
  }

  ghost predicate Provided(q: Round, o: map<nat, Owner>) {
    q.owner in o && forall x :: x in q.own ==> x in o[q.owner].mem
  }

  /** Requests that reached an owner were taken by the host. */
  ghost predicate SeenOk(cfg: Config, o: map<nat, Owner>, asked: Mail) {
    asked.seen <= |asked.log| && forall m :: m in o && Uses(cfg, m) ==> TakenOnly(o[m].segs, asked.log[..asked.seen])
  }

  ghost predicate TakenOnly(segs: seq<Seg>, taken: seq<nat>) {
    forall r :: Sync(r) in segs ==> r in taken
  }

  ghost predicate LanesOk(cfg: Config, lanes: map<nat, Lane>, q: nat) {
    forall p :: p in lanes ==> LaneOk(lanes[p]) && QueueOk(cfg, lanes[p].log, p) && (p != q ==> Undone(lanes[p]) == [])
  }

  ghost predicate QueueOk(cfg: Config, log: seq<Label>, p: nat) {
    forall l :: l in log ==> GetRound(cfg, RoundOf(l)).queue == p
  }

  ghost predicate Fits(cfg: Config, l: Label, n: nat, q: nat) {
    l.Item? && l.round < |cfg.rounds| && GetRound(cfg, l.round).owner == n && GetRound(cfg, l.round).queue == q
  }

  ghost predicate AllFit(cfg: Config, ls: seq<Label>, n: nat, q: nat) {
    forall l :: l in ls ==> Fits(cfg, l, n, q)
  }

  ghost predicate AllFrom(cfg: Config, rs: seq<nat>, n: nat, q: nat) {
    forall r :: r in rs ==> r < |cfg.rounds| && GetRound(cfg, r).owner == n && GetRound(cfg, r).queue == q
  }

  ghost predicate Flow(cfg: Config, w: Waiter, h: HostState, n: nat, q: nat) {
    AllFit(cfg, Pending(w, q), n, q) && AllFit(cfg, h.loop, n, q) && AllFrom(cfg, Unseen(w.asked), n, q)
  }

  /** While chains are not complete, no other transfer is under way. */
  ghost predicate Alone(o: map<nat, Owner>, w: Waiter, sends: seq<Send>, n: nat, q: nat) {
    Pending(w, q) != [] ==> n in o && OthersDone(o[n].link) && OthersDone(w.link) && SendsDone(w.link, sends)
  }

  predicate SendsDone(link: Link, sends: seq<Send>) {
    forall l :: l in SendTags(sends) && l.Other? ==> l in Labels(link.got)
  }

  function TailAt(o: map<nat, Owner>, n: nat): seq<Label> {
    if n in o then ItemsTail(o[n].link) else []
  }

  ghost predicate InvAt(cfg: Config, s: State, n: nat, q: nat) {
    && OwnersOk(cfg, s.o, n, s.h.loop) && TailsOk(cfg, s.o, n) && Present(cfg, s.o) && SeenOk(cfg, s.o, s.w.asked)
    && LanesOk(cfg, s.w.lanes, q) && Flow(cfg, s.w, s.h, n, q) && Alone(s.o, s.w, s.h.sends, n, q)
    && DownOk(cfg, s.w, s.h, TailAt(s.o, n), q)
  }

  // ---- nothing is left to do for complete rounds ----

  /** When every acquire chain is complete, the host has nothing left to send. */
  lemma Quiet(cfg: Config, w: Waiter, h: HostState, tail: seq<Label>, q: nat)
    requires WellFormed(cfg) && DownOk(cfg, w, h, tail, q) && Pending(w, q) == []
    ensures HostPending(cfg, w, h, tail) == []
  {
    var full, k := HostList(cfg, w, h, tail), |h.sends|;
    if HostPending(cfg, w, h, tail) != [] {
      assert full[k] == HostPending(cfg, w, h, tail)[0];
      PendingItems(cfg, w, h, tail);
      SentIsPrefix(cfg, w.link.sent, h.sends, HostPending(cfg, w, h, tail));
      hide WaiterSide, HostPending, Undone;
      var l := PendingRound(cfg, w.segs, w.link, LaneOf(w, q), w.loop, full, k);
    }
  }

  lemma PendingItems(cfg: Config, w: Waiter, h: HostState, tail: seq<Label>)
    requires AllItems(h.loop) && AllItems(Opt(h.trigger)) && AllItems(Opt(h.posting)) && AllItems(tail)
    ensures AllItems(HostPending(cfg, w, h, tail))
  {
    RequestedItems(cfg, AtHost, Unseen(w.asked));
  }

  lemma SentIsPrefix(cfg: Config, sent: seq<Chunk>, sends: seq<Send>, rest: seq<Label>)
    requires SendsOk(cfg, sent, sends)
    ensures Labels(sent) <= SendTags(sends) + rest
  {
  }

  lemma PendingParts(cfg: Config, w: Waiter, h: HostState, tail: seq<Label>)
    requires WellFormed(cfg) && HostPending(cfg, w, h, tail) == []
             && (forall r :: r in Unseen(w.asked) ==> r < |cfg.rounds|)
    ensures h.trigger == None && PostLanded(h) == [] && tail == [] && h.loop == [] && Unseen(w.asked) == []
  {
    assert Opt(h.trigger) == [] && PostLanded(h) == [] && tail == [] && h.loop == [];
    if Unseen(w.asked) != [] {
      assert Unseen(w.asked)[0] in Unseen(w.asked);
      ListNotEmpty(cfg, Unseen(w.asked)[0]);
    }
  }

  // ---- no side lacks a transfer while none is under way ----

  lemma PostedNoDup(cfg: Config, side: Side, segs: seq<Seg>, posted: seq<Label>, part: seq<Label>)
    requires WellFormed(cfg) && Proper(cfg, segs) && Covers(cfg, side, segs, posted + part)
    ensures NoDup(posted)
  {
    CoversPrefix(cfg, side, segs, posted + part);
    hide Expand, Covers;
    forall i, j | 0 <= i < j < |posted| ensures posted[i] != posted[j] {
      assert (posted + part)[i] != (posted + part)[j];
    }
  }

  lemma NotEarlier(ls: seq<Label>, k: nat, i: nat)
    requires NoDup(ls) && k <= i < |ls|
    ensures ls[i] !in ls[..k]
  {
  }

  lemma TailItems(link: Link)
    requires NoDup(link.posted) && |link.got| <= |link.posted| && Labels(link.got) == link.posted[..|link.got|]
    requires OthersDone(link)
    ensures AllItems(Tail(link))
  {
    forall i | 0 <= i < |Tail(link)| ensures Tail(link)[i].Item? {
      NotEarlier(link.posted, |link.got|, |link.got| + i);
      assert link.posted[|link.got| + i] in link.posted;
    }
  }

  lemma WaiterNotLacking(cfg: Config, w: Waiter, h: HostState, lane: Lane)
    requires DownBasics(cfg, w, h) && WaiterSide(cfg, w.segs, w.link, lane, w.loop)
    requires OthersDone(w.link) && SendsDone(w.link, h.sends)
    ensures !Lacks(cfg, AtWaiter, w.segs, w.link.posted + (Rest(lane) + w.loop))
  {
    var full := w.link.posted + (Rest(lane) + w.loop);
    if Lacks(cfg, AtWaiter, w.segs, full) {
      var tag := w.segs[|w.segs| - 1].tag;
      BegunIsGot(cfg, w, h, tag);
      LastIsNew(cfg, AtWaiter, w.segs, tag);
    }
  }

  lemma BegunIsGot(cfg: Config, w: Waiter, h: HostState, tag: Label)
    requires DownBasics(cfg, w, h) && OthersDone(w.link) && SendsDone(w.link, h.sends) && Apart(tag) in w.segs
    ensures tag in Labels(w.link.got) && tag in w.link.posted
  {
    assert tag.Other?;
    assert tag in w.link.posted || tag in SendTags(h.sends);
  }

  lemma HostNotLacking(cfg: Config, w: Waiter, h: HostState, tail: seq<Label>, lane: Lane)
    requires WellFormed(cfg) && DownBasics(cfg, w, h) && WaiterSide(cfg, w.segs, w.link, lane, w.loop)
    requires OthersDone(w.link) && SendsDone(w.link, h.sends)
    ensures !Lacks(cfg, AtHost, w.segs, HostList(cfg, w, h, tail))
  {
    hide LaneOk, TailOk, Expand, Rest;
    var full := HostList(cfg, w, h, tail);
    if Lacks(cfg, AtHost, w.segs, full) {
      WaiterNotLacking(cfg, w, h, lane);
      SentIsPrefix(cfg, w.link.sent, h.sends, HostPending(cfg, w, h, tail));
      BegunIsGot(cfg, w, h, w.segs[|w.segs| - 1].tag);
      LastGot(cfg, AtHost, AtWaiter, w.segs, w.link, w.link.posted + (Rest(lane) + w.loop));
      SentTotal(cfg.size, w.link, full);
    }
  }

  // ---- another owner, another queue ----

  /** When no round is unfinished, any owner and any queue may be the next. */
  lemma Relead(cfg: Config, s: State, n: nat, q: nat, n': nat, q': nat)
    requires WellFormed(cfg) && InvAt(cfg, s, n, q) && Pending(s.w, q) == []
    ensures InvAt(cfg, s, n', q') && Pending(s.w, q') == []
    ensures TailAt(s.o, n') == [] && s.h.loop == [] && Unseen(s.w.asked) == []
    ensures HostPending(cfg, s.w, s.h, []) == []
  {
    hide HostPending, Undone, Tail, Uses, UpOk, DownBasics, WaiterSide, HostSide, LanesOk, Provided, TakenOnly, Fits;
    Quiet(cfg, s.w, s.h, TailAt(s.o, n), q);
    PendingParts(cfg, s.w, s.h, TailAt(s.o, n));
    NoTail(cfg, s.o, n);
    IdleLane(cfg, s.w, q, q');
    hide ItemsTail, AllOthers;
  }

  lemma NoTail(cfg: Config, o: map<nat, Owner>, n: nat)
    requires TailsOk(cfg, o, n) && TailAt(o, n) == []
    ensures forall m :: m in o ==> AllOthers(Tail(o[m].link)) && ItemsTail(o[m].link) == []
  {
    forall m | m in o ensures AllOthers(Tail(o[m].link)) && ItemsTail(o[m].link) == [] {
      assert TailOf(cfg, m, o[m].link, n);
      if Tail(o[m].link) != [] {
        assert Tail(o[m].link)[0] in Tail(o[m].link);
      }
    }
  }

  lemma IdleLane(cfg: Config, w: Waiter, q: nat, q': nat)
    requires LanesOk(cfg, w.lanes, q) && Pending(w, q) == [] && WaiterSide(cfg, w.segs, w.link, LaneOf(w, q), w.loop)
    ensures LanesOk(cfg, w.lanes, q') && Pending(w, q') == [] && WaiterSide(cfg, w.segs, w.link, LaneOf(w, q'), w.loop)
  {
    hide SideOk, Tail, QueueOk, Rest, AtStage;
    assert Undone(LaneOf(w, q)) == [] && w.loop == [];
    assert LaneOk(LaneOf(w, q')) && Undone(LaneOf(w, q')) == [];
    IdleRest(LaneOf(w, q));
    IdleRest(LaneOf(w, q'));
    hide Undone, LaneOk;
  }

  lemma IdleRest(lane: Lane)
    requires LaneOk(lane) && Undone(lane) == []
    ensures Rest(lane) == [] && forall stage :: !AtStage(lane, stage)
  {
  }
}
