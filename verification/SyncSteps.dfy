/** Every step keeps the invariant of `SyncRuns`, action by action. */
module SyncSteps {
  import opened Seqs
  import opened Links
  import opened SyncProtocol
  import opened SyncLists
  import opened SyncInvariant
  import opened SyncDrained
  import opened SyncRuns

  // ---- steps of an owner ----

  function Part(h: HostState, m: nat, n: nat): seq<Label> {
    if m == n then h.loop else []
  }

  /** What an owner's step has to keep. */
  ghost predicate OwnerMay(cfg: Config, s: State, n: nat, q: nat, m: nat, o: Owner) {
    && m in s.o && (Uses(cfg, m) ==> UpOk(cfg, m, o, Part(s.h, m, n)))
    && TailOf(cfg, m, o.link, n) && ItemsTail(o.link) == ItemsTail(s.o[m].link)
    && s.o[m].mem.Keys <= o.mem.Keys && (forall r :: Sync(r) in o.segs ==> Sync(r) in s.o[m].segs)
    && (m == n && Pending(s.w, q) != [] && OthersDone(s.o[m].link) ==> OthersDone(o.link))
  }

  lemma OwnerStep(cfg: Config, s: State, n: nat, q: nat, m: nat, o: Owner)
    requires InvAt(cfg, s, n, q) && OwnerMay(cfg, s, n, q, m, o)
    ensures InvAt(cfg, Put(s, m, o), n, q)
  {
    hide UpOk, TailOf, ItemsTail, Uses, OthersDone, DownOk, LanesOk, Flow, SendsDone, Pending, Provided, TakenOnly;
    PresentPut(cfg, s.o, m, o);
    SeenPut(cfg, s.o, s.w.asked, m, o);
  }

  lemma PresentPut(cfg: Config, o: map<nat, Owner>, m: nat, o': Owner)
    requires Present(cfg, o) && m in o && o[m].mem.Keys <= o'.mem.Keys
    ensures Present(cfg, o[m := o'])
  {
    forall r | 0 <= r < |cfg.rounds| ensures Provided(cfg.rounds[r], o[m := o']) {
      assert Provided(cfg.rounds[r], o);
    }
  }

  lemma SeenPut(cfg: Config, o: map<nat, Owner>, asked: Mail, m: nat, o': Owner)
    requires SeenOk(cfg, o, asked) && m in o && (forall r :: Sync(r) in o'.segs ==> Sync(r) in o[m].segs)
    ensures SeenOk(cfg, o[m := o'], asked)
  {
    hide Uses;
  }

  /** A step that leaves stream and history alone. */
  lemma LocalStep(cfg: Config, s: State, n: nat, q: nat, m: nat, o: Owner)
    requires InvAt(cfg, s, n, q) && m in s.o && (Uses(cfg, m) ==> UpOk(cfg, m, o, Part(s.h, m, n)))
    requires o.link == s.o[m].link && o.segs == s.o[m].segs && s.o[m].mem.Keys <= o.mem.Keys
    ensures InvAt(cfg, Put(s, m, o), n, q)
  {
    assert TailOf(cfg, m, s.o[m].link, n);
    hide UpOk, TailOf, ItemsTail, Uses, OthersDone, InvAt, Pending;
    OwnerStep(cfg, s, n, q, m, o);
  }

  lemma OwnerIsOk(cfg: Config, s: State, n: nat, q: nat, m: nat)
    requires InvAt(cfg, s, n, q) && m in s.o && Uses(cfg, m)
    ensures UpOk(cfg, m, s.o[m], Part(s.h, m, n))
  {
    hide UpOk;
  }

  lemma UpWrites(cfg: Config, n: nat, o: Owner, part: seq<Label>, x: Obj, data: Bytes)
    requires UpOk(cfg, n, o, part) && |data| == cfg.size(x)
    ensures UpOk(cfg, n, o.(mem := o.mem[x := data]), part)
  {
    hide Conserved, Proper, SideOk, Expand;
  }

  lemma WritesStep(cfg: Config, s: State, n: nat, q: nat, m: nat, x: Obj, data: Bytes)
    requires InvAt(cfg, s, n, q) && m in s.o && |data| == cfg.size(x)
    ensures InvAt(cfg, Put(s, m, s.o[m].(mem := s.o[m].mem[x := data])), n, q)
  {
    hide InvAt, UpOk, Uses;
    if Uses(cfg, m) {
      OwnerIsOk(cfg, s, n, q, m);
      UpWrites(cfg, m, s.o[m], Part(s.h, m, n), x, data);
    }
    LocalStep(cfg, s, n, q, m, s.o[m].(mem := s.o[m].mem[x := data]));
  }

  lemma OSyncStep(cfg: Config, s: State, n: nat, q: nat, m: nat)
    requires InvAt(cfg, s, n, q) && Enabled(cfg, OSync(m), s)
    ensures InvAt(cfg, Apply(cfg, OSync(m), s), n, q)
  {
    hide InvAt, UpOk, Uses;
    var o := s.o[m];
    if Uses(cfg, m) {
      OwnerIsOk(cfg, s, n, q, m);
      UpSync(cfg, m, o, Part(s.h, m, n));
    }
    LocalStep(cfg, s, n, q, m, o.(orders := o.orders.(seen := o.orders.seen + 1),
                                  loop := Items(cfg, AtOwner, o.orders.log[o.orders.seen])));
  }

  lemma OEnqueueStep(cfg: Config, s: State, n: nat, q: nat, m: nat)
    requires InvAt(cfg, s, n, q) && Enabled(cfg, OEnqueue(m), s)
    ensures InvAt(cfg, Apply(cfg, OEnqueue(m), s), n, q)
  {
    hide InvAt, UpOk, Uses;
    var o := s.o[m];
    if Uses(cfg, m) {
      OwnerIsOk(cfg, s, n, q, m);
      UpEnqueue(cfg, m, o, Part(s.h, m, n));
    }
    LocalStep(cfg, s, n, q, m, o.(lane := Enqueued(o.lane, o.loop[0]), loop := o.loop[1..]));
  }

  lemma HeadSize(cfg: Config, m: nat, o: Owner, part: seq<Label>)
    requires UpOk(cfg, m, o, part) && AtStage(o.lane, Idle) && ObjectOf(Head(o.lane)) in o.mem
    ensures |o.mem[ObjectOf(Head(o.lane))]| == Len(cfg.size, Head(o.lane)) && Head(o.lane).Item?
  {
    hide Conserved, Proper, SideOk, Expand;
    assert Head(o.lane) in o.lane.log;
  }

  lemma OMapStep(cfg: Config, s: State, n: nat, q: nat, m: nat)
    requires InvAt(cfg, s, n, q) && Enabled(cfg, OMap(m), s)
    ensures InvAt(cfg, Apply(cfg, OMap(m), s), n, q)
  {
    hide InvAt, Enabled, Apply, UpOk;
    var o', bytes := MapParts(cfg, s, m);
    MapStep(cfg, s, n, q, m, o', bytes);
    SameParts(cfg, Put(s, m, o'), Apply(cfg, OMap(m), s), n, q);
  }

  lemma MapParts(cfg: Config, s: State, m: nat) returns (o: Owner, bytes: Bytes)
    requires Enabled(cfg, OMap(m), s)
    ensures m in s.o && AtStage(s.o[m].lane, Idle) && ObjectOf(Head(s.o[m].lane)) in s.o[m].mem
    ensures bytes == s.o[m].mem[ObjectOf(Head(s.o[m].lane))]
    ensures o == s.o[m].(lane := s.o[m].lane.(stage := Mapped, buffer := bytes))
    ensures var t := Apply(cfg, OMap(m), s); t.o == Put(s, m, o).o && t.h == s.h && t.w == s.w
  {
    bytes := s.o[m].mem[ObjectOf(Head(s.o[m].lane))];
    o := s.o[m].(lane := s.o[m].lane.(stage := Mapped, buffer := bytes));
  }

  lemma SameParts(cfg: Config, s: State, t: State, n: nat, q: nat)
    requires InvAt(cfg, s, n, q) && t.o == s.o && t.h == s.h && t.w == s.w.(mem := t.w.mem, kept := t.w.kept)
    ensures InvAt(cfg, t, n, q)
  {
    SameDown(cfg, s.w, t.w, s.h, TailAt(s.o, n), q);
    hide OwnersOk, TailsOk, Present, SeenOk, LanesOk, Flow, Alone, DownOk;
  }

  lemma SameDown(cfg: Config, w: Waiter, w': Waiter, h: HostState, tail: seq<Label>, q: nat)
    requires DownOk(cfg, w, h, tail, q) && w' == w.(mem := w'.mem, kept := w'.kept)
    ensures DownOk(cfg, w', h, tail, q)
  {
    hide Conserved, AskedOk, SendsOk, Begun, Holds, AllItems, SideOk, LaneOk, TailOk, PostingOk;
  }

  /** The host's copies change. */
  lemma CopyStep(cfg: Config, s: State, n: nat, q: nat, cache: map<Obj, Bytes>)
    requires InvAt(cfg, s, n, q) && Holds(cfg, cache)
    ensures InvAt(cfg, s.(h := s.h.(cache := cache)), n, q)
  {
    hide OwnersOk, TailsOk, Present, SeenOk, LanesOk, Alone, DownOk, AllFit, AllFrom, TailAt;
    CopyDown(cfg, s.w, s.h, TailAt(s.o, n), q, cache);
  }

  lemma CopyDown(cfg: Config, w: Waiter, h: HostState, tail: seq<Label>, q: nat, cache: map<Obj, Bytes>)
    requires DownOk(cfg, w, h, tail, q) && Holds(cfg, cache)
    ensures DownOk(cfg, w, h.(cache := cache), tail, q)
  {
    hide Conserved, AskedOk, SendsOk, Begun, Holds, AllItems, SideOk, WaiterSide, HostPending;
    assert HostPending(cfg, w, h.(cache := cache), tail) == HostPending(cfg, w, h, tail) by {
      CopyPending(cfg, w, h, tail, cache);
    }
  }

  lemma CopyPending(cfg: Config, w: Waiter, h: HostState, tail: seq<Label>, cache: map<Obj, Bytes>)
    ensures HostPending(cfg, w, h.(cache := cache), tail) == HostPending(cfg, w, h, tail)
  {
  }

  lemma CopiesHeld(cfg: Config, s: State, n: nat, q: nat)
    requires InvAt(cfg, s, n, q)
    ensures Holds(cfg, s.h.cache)
  {
    hide OwnersOk, TailsOk, Present, SeenOk, LanesOk, Alone, Flow, HostSide, WaiterSide, TailAt, Conserved, AskedOk,
      SendsOk, Begun, Holds, AllItems;
  }

  lemma AllocatesStep(cfg: Config, s: State, n: nat, q: nat, x: Obj, data: Bytes)
    requires InvAt(cfg, s, n, q) && |data| == cfg.size(x)
    ensures InvAt(cfg, s.(h := s.h.(cache := s.h.cache[x := data])), n, q)
  {
    hide InvAt;
    CopiesHeld(cfg, s, n, q);
    CopyStep(cfg, s, n, q, s.h.cache[x := data]);
  }

  lemma MapStep(cfg: Config, s: State, n: nat, q: nat, m: nat, o': Owner, bytes: Bytes)
    requires InvAt(cfg, s, n, q) && m in s.o && AtStage(s.o[m].lane, Idle) && ObjectOf(Head(s.o[m].lane)) in s.o[m].mem
    requires bytes == s.o[m].mem[ObjectOf(Head(s.o[m].lane))]
    requires o' == s.o[m].(lane := s.o[m].lane.(stage := Mapped, buffer := bytes))
    ensures InvAt(cfg, Put(s, m, o'), n, q)
  {
    hide InvAt, UpOk, Uses;
    if Uses(cfg, m) {
      OwnerIsOk(cfg, s, n, q, m);
      HeadSize(cfg, m, s.o[m], Part(s.h, m, n));
      UpMap(cfg, m, s.o[m], Part(s.h, m, n), bytes);
    }
    LocalStep(cfg, s, n, q, m, o');
  }

  lemma OUnmapStep(cfg: Config, s: State, n: nat, q: nat, m: nat)
    requires InvAt(cfg, s, n, q) && Enabled(cfg, OUnmap(m), s)
    ensures InvAt(cfg, Apply(cfg, OUnmap(m), s), n, q)
  {
    hide InvAt, UpOk, Uses;
    var o := s.o[m];
    if Uses(cfg, m) {
      OwnerIsOk(cfg, s, n, q, m);
      UpUnmap(cfg, m, o, Part(s.h, m, n));
    }
    LocalStep(cfg, s, n, q, m, o.(lane := Unmapped(o.lane)));
  }

  // sending

  lemma SentTail(link: Link, c: Chunk)
    ensures Tail(Sent(link, c)) == Tail(link) && ItemsTail(Sent(link, c)) == ItemsTail(link)
    ensures c.tag.Item? && OthersDone(link) ==> OthersDone(Sent(link, c))
  {
    assert Labels(link.sent + [c]) == Labels(link.sent) + [c.tag];
  }

  /** A chain that is not complete is of a round. */
  lemma AtWork(cfg: Config, w: Waiter, h: HostState, n: nat, q: nat)
    requires Flow(cfg, w, h, n, q) && Pending(w, q) != []
    ensures Uses(cfg, n)
  {
    var l := Pending(w, q)[0];
    assert Fits(cfg, l, n, q);
  }

  lemma OSendStep(cfg: Config, s: State, n: nat, q: nat, m: nat)
    requires InvAt(cfg, s, n, q) && Enabled(cfg, OSend(m), s)
    ensures InvAt(cfg, Apply(cfg, OSend(m), s), n, q)
  {
    hide UpOk, Uses, TailOf, ItemsTail, Tail, OthersDone, Pending, Flow, SendsDone, DownOk, LanesOk, Fits;
    var o := s.o[m];
    var c := Chunk(Head(o.lane), o.lane.buffer);
    if Uses(cfg, m) {
      OwnerIsOk(cfg, s, n, q, m);
      UpSend(cfg, m, o, Part(s.h, m, n));
      SentItem(cfg, m, o, Part(s.h, m, n));
    }
    if Pending(s.w, q) != [] {
      AtWork(cfg, s.w, s.h, n, q);
    }
    SentTail(o.link, c);
    TailSent(cfg, m, o.link, c, n);
    OwnerStep(cfg, s, n, q, m, o.(lane := o.lane.(stage := Moved), link := Sent(o.link, c)));
    hide InvAt;
  }

  lemma TailSent(cfg: Config, m: nat, link: Link, c: Chunk, n: nat)
    ensures TailOf(cfg, m, link, n) <==> TailOf(cfg, m, Sent(link, c), n)
  {
    SentTail(link, c);
  }

  lemma SentItem(cfg: Config, m: nat, o: Owner, part: seq<Label>)
    requires UpOk(cfg, m, o, part) && AtStage(o.lane, Mapped)
    ensures Head(o.lane).Item?
  {
    hide Conserved, Proper, SideOk, Expand;
    assert Head(o.lane) in o.lane.log;
  }

  // ---- reads from an owner ----

  /** No round that the owner has to do with is at work while it may be read from. */
  lemma NoRoundAtWork(cfg: Config, s: State, n: nat, q: nat, m: nat)
    requires WellFormed(cfg) && InvAt(cfg, s, n, q) && OwnerFree(cfg, s, m) && m == n && Uses(cfg, m)
    ensures Pending(s.w, q) == [] && s.h.loop == [] && TailAt(s.o, n) == []
  {
    hide DownOk, OwnersOk, TailsOk, Present, SeenOk, LanesOk, Alone, OthersDone;
    if Pending(s.w, q) != [] {
      assert Fits(cfg, Pending(s.w, q)[0], n, q);
      IsUnfinished(s.w, q, Pending(s.w, q)[0]);
    }
    hide Flow, Pending, OwnerFree;
    Relead(cfg, s, n, q, n, q);
  }

  lemma IsUnfinished(w: Waiter, q: nat, l: Label)
    requires l in Pending(w, q)
    ensures Unfinished(w, l)
  {
    if l !in w.loop {
      assert l in Undone(LaneOf(w, q));
      assert q in w.lanes;
    }
  }

  lemma OwnTailItems(cfg: Config, m: nat, o: Owner, part: seq<Label>)
    requires WellFormed(cfg) && UpOk(cfg, m, o, part) && OthersDone(o.link)
    ensures AllItems(Tail(o.link))
  {
    PostedNoDup(cfg, AtHost, o.segs, o.link.posted, part);
    hide Covers, Lacks, Expand, Data, Proper;
    TailItems(o.link);
  }

  lemma NothingInBoth(ls: seq<Label>)
    requires AllItems(ls) && AllOthers(ls)
    ensures ls == []
  {
    FirstIsItem(ls);
    FirstIsOther(ls);
  }

  lemma FirstIsItem(ls: seq<Label>)
    requires AllItems(ls)
    ensures ls != [] ==> ls[0].Item?
  {
  }

  lemma FirstIsOther(ls: seq<Label>)
    requires AllOthers(ls)
    ensures ls != [] ==> ls[0].Other?
  {
  }

  lemma NoItemsTail(cfg: Config, o: map<nat, Owner>, n: nat, m: nat)
    requires TailsOk(cfg, o, n) && m in o && (m == n && Uses(cfg, m) ==> TailAt(o, n) == [])
    ensures AllOthers(Tail(o[m].link))
  {
    assert TailOf(cfg, m, o[m].link, n);
    if Tail(o[m].link) != [] {
      assert Tail(o[m].link)[0] in Tail(o[m].link);
    }
  }

  lemma ReadSendStep(cfg: Config, s: State, n: nat, q: nat, m: nat, tag: Label, data: Bytes)
    requires WellFormed(cfg) && cfg.apart && InvAt(cfg, s, n, q) && Enabled(cfg, ReadSend(m, tag, data), s)
    ensures InvAt(cfg, Apply(cfg, ReadSend(m, tag, data), s), n, q)
  {
    hide UpOk, Uses, TailOf, ItemsTail, Tail, OthersDone, Pending, Flow, SendsDone, DownOk, LanesOk, Fits, WellFormed,
         OwnerFree, Unused;
    var o := s.o[m];
    var o' := o.(link := Sent(o.link, Chunk(tag, data)), segs := o.segs + [Apart(tag)]);
    if Uses(cfg, m) {
      BeforeRead(cfg, s, n, q, m, tag);
      UpReadSend(cfg, m, o, tag, data);
    }
    if Pending(s.w, q) != [] {
      AtWork(cfg, s.w, s.h, n, q);
    }
    SentTail(o.link, Chunk(tag, data));
    TailSent(cfg, m, o.link, Chunk(tag, data), n);
    OwnerStep(cfg, s, n, q, m, o');
    hide InvAt;
  }

  /** Nothing is under way on the owner's stream when it is read from. */
  lemma BeforeRead(cfg: Config, s: State, n: nat, q: nat, m: nat, tag: Label)
    requires WellFormed(cfg) && InvAt(cfg, s, n, q) && m in s.o && Uses(cfg, m) && OwnerFree(cfg, s, m)
    requires tag !in Labels(s.o[m].link.sent) && tag !in s.o[m].link.posted
    ensures Part(s.h, m, n) == [] && UpOk(cfg, m, s.o[m], []) && UpIdle(cfg, s.o[m]) && Apart(tag) !in s.o[m].segs
    ensures m == n ==> Pending(s.w, q) == []
    ensures AllOthers(Tail(s.o[m].link))
  {
    var o := s.o[m];
    assert OthersDone(o.link);
    if m == n {
      NoRoundAtWork(cfg, s, n, q, m);
    }
    OwnerIsOk(cfg, s, n, q, m);
    NoItemsTail(cfg, s.o, n, m);
    hide UpOk, Uses, TailOf, TailsOk, ItemsTail, Tail, OthersDone, Pending, InvAt, Enabled, WellFormed, OwnerFree,
         UpIdle;
    assert Part(s.h, m, n) == [];
    OwnTailItems(cfg, m, o, []);
    NothingInBoth(Tail(o.link));
    OwnerDrained(cfg, m, o);
    NewRead(cfg, m, o, [], tag);
  }

  lemma NewRead(cfg: Config, m: nat, o: Owner, part: seq<Label>, tag: Label)
    requires UpOk(cfg, m, o, part) && tag !in o.link.posted && tag !in Labels(o.link.sent)
    ensures Apart(tag) !in o.segs
  {
    hide UpBasics, SideOk;
  }

  lemma ReadPostStep(cfg: Config, s: State, n: nat, q: nat, m: nat, tag: Label)
    requires WellFormed(cfg) && cfg.apart && InvAt(cfg, s, n, q) && Enabled(cfg, ReadPost(m, tag), s)
    ensures InvAt(cfg, Apply(cfg, ReadPost(m, tag), s), n, q)
  {
    hide UpOk, Uses, TailOf, ItemsTail, Tail, OthersDone, Pending, Flow, SendsDone, DownOk, LanesOk, Fits, WellFormed,
         OwnerFree, Unused;
    var o := s.o[m];
    if Uses(cfg, m) {
      BeforeRead(cfg, s, n, q, m, tag);
      UpReadPost(cfg, m, o, tag);
    } else {
      NoItemsTail(cfg, s.o, n, m);
    }
    if Pending(s.w, q) != [] {
      AtWork(cfg, s.w, s.h, n, q);
    }
    PostedTail(o.link, tag);
    OthersHaveNoItemsTail(o.link);
    OthersHaveNoItemsTail(Posted(o.link, tag));
    OthersOnly(cfg, m, Posted(o.link, tag), n);
    OwnerStep(cfg, s, n, q, m, o.(link := Posted(o.link, tag), segs := o.segs + [Apart(tag)]));
    hide InvAt;
  }

  lemma PostedTail(link: Link, tag: Label)
    ensures AllOthers(Tail(link)) && tag.Other? ==> AllOthers(Tail(Posted(link, tag)))
  {
  }

  lemma OthersHaveNoItemsTail(link: Link)
    requires AllOthers(Tail(link))
    ensures ItemsTail(link) == []
  {
    if Tail(link) != [] {
      assert Tail(link)[0] in Tail(link);
    }
  }

  /** A read that the host has not taken up yet is under way, so that no round is. */
  lemma ReadUnderWay(cfg: Config, s: State, n: nat, q: nat, m: nat, tag: Label)
    requires WellFormed(cfg) && InvAt(cfg, s, n, q) && m in s.o && m == n && Uses(cfg, m)
    requires tag.Other? && tag in Labels(s.o[m].link.sent) && tag !in s.o[m].link.posted
    ensures Pending(s.w, q) == [] && s.h.loop == [] && TailAt(s.o, n) == []
  {
    OwnerIsOk(cfg, s, n, q, m);
    NotGot(cfg, m, s.o[m], Part(s.h, m, n), tag);
    hide UpOk, DownOk, OwnersOk, TailsOk, Present, SeenOk, LanesOk, Flow, Pending;
    assert Pending(s.w, q) == [];
    Relead(cfg, s, n, q, n, q);
  }

  lemma NotGot(cfg: Config, m: nat, o: Owner, part: seq<Label>, tag: Label)
    requires UpOk(cfg, m, o, part) && tag !in o.link.posted
    ensures tag !in Labels(o.link.got)
  {
    hide Proper, SideOk, Expand, Data;
  }

  lemma SentIsKnown(cfg: Config, m: nat, o: Owner, part: seq<Label>, tag: Label)
    requires WellFormed(cfg) && UpOk(cfg, m, o, part) && tag in Labels(o.link.sent) && tag.Other?
    ensures Apart(tag) in o.segs
  {
    hide OwnerPart, Conserved, LaneOk, Holds, Proper, WellFormed, Begun;
    PostedIsKnown(cfg, AtOwner, o.segs, Labels(o.link.sent), OwnerPart(cfg, o), tag);
  }

  lemma ReadPostAfterStep(cfg: Config, s: State, n: nat, q: nat, m: nat, tag: Label)
    requires WellFormed(cfg) && InvAt(cfg, s, n, q) && Enabled(cfg, ReadPostAfter(m, tag), s)
    ensures InvAt(cfg, Apply(cfg, ReadPostAfter(m, tag), s), n, q)
  {
    hide UpOk, Uses, TailOf, ItemsTail, Tail, OthersDone, Pending, SendsDone, DownOk, LanesOk, Fits, WellFormed;
    var o := s.o[m];
    if m == n && Uses(cfg, m) {
      ReadUnderWay(cfg, s, n, q, m, tag);
    } else if Pending(s.w, q) != [] {
      AtWork(cfg, s.w, s.h, n, q);
    }
    NoItemsTail(cfg, s.o, n, m);
    if Uses(cfg, m) {
      OwnerIsOk(cfg, s, n, q, m);
      LoopItems(cfg, s.h.loop, n, q);
      SentIsKnown(cfg, m, o, Part(s.h, m, n), tag);
      UpReadPostAfter(cfg, m, o, Part(s.h, m, n), tag);
    }
    PostedTail(o.link, tag);
    OthersHaveNoItemsTail(o.link);
    OthersHaveNoItemsTail(Posted(o.link, tag));
    OthersOnly(cfg, m, Posted(o.link, tag), n);
    OwnerStep(cfg, s, n, q, m, o.(link := Posted(o.link, tag)));
    hide InvAt;
  }

  lemma ReadSendAfterStep(cfg: Config, s: State, n: nat, q: nat, m: nat, tag: Label, data: Bytes)
    requires WellFormed(cfg) && InvAt(cfg, s, n, q) && Enabled(cfg, ReadSendAfter(m, tag, data), s)
    ensures InvAt(cfg, Apply(cfg, ReadSendAfter(m, tag, data), s), n, q)
  {
    hide UpOk, Uses, TailOf, ItemsTail, Tail, OthersDone, Pending, Flow, SendsDone, DownOk, LanesOk, Fits, WellFormed;
    var o, c := s.o[m], Chunk(tag, data);
    if Uses(cfg, m) {
      OwnerIsOk(cfg, s, n, q, m);
      SendAfterUp(cfg, m, o, Part(s.h, m, n), tag, data);
    }
    SentTail(o.link, c);
    TailSent(cfg, m, o.link, c, n);
    SentAfterOthers(o.link, c);
    OwnerStep(cfg, s, n, q, m, o.(link := Sent(o.link, c)));
    hide InvAt;
  }

  lemma SendAfterUp(cfg: Config, m: nat, o: Owner, part: seq<Label>, tag: Label, data: Bytes)
    requires WellFormed(cfg) && UpOk(cfg, m, o, part) && Payload(tag, data) && tag in o.link.posted
             && tag !in Labels(o.link.sent)
    ensures UpOk(cfg, m, o.(link := Sent(o.link, Chunk(tag, data))), part)
  {
    hide OwnerPart, Conserved, Holds, Proper, WellFormed, Begun, LaneOk;
    OwnerPartItems(cfg, o);
    PostedIsKnown(cfg, AtHost, o.segs, o.link.posted, part, tag);
    UpReadSendAfter(cfg, m, o, part, tag, data);
  }

  lemma SentAfterOthers(link: Link, c: Chunk)
    requires c.tag.Other? && c.tag in link.posted
    ensures OthersDone(link) ==> OthersDone(Sent(link, c))
  {
    assert Labels(link.sent + [c]) == Labels(link.sent) + [c.tag];
  }

  lemma OthersOnly(cfg: Config, m: nat, link: Link, n: nat)
    requires AllOthers(Tail(link))
    ensures TailOf(cfg, m, link, n)
  {
  }

  lemma LoopItems(cfg: Config, loop: seq<Label>, n: nat, q: nat)
    requires AllFit(cfg, loop, n, q)
    ensures AllItems(loop)
  {
  }

  // ---- steps of the host on an owner's stream ----

  /** While the host has something to do for a round, some acquire chain is not complete. */
  lemma BusyHost(cfg: Config, s: State, n: nat, q: nat)
    requires WellFormed(cfg) && InvAt(cfg, s, n, q)
    requires s.h.loop != [] || TailAt(s.o, n) != [] || Unseen(s.w.asked) != []
             || HostPending(cfg, s.w, s.h, TailAt(s.o, n)) != []
    ensures Pending(s.w, q) != [] && Uses(cfg, n) && n in s.o && OthersDone(s.o[n].link)
    ensures OthersDone(s.w.link) && SendsDone(s.w.link, s.h.sends)
  {
    hide OwnersOk, TailsOk, Present, SeenOk, LanesOk, DownOk, HostPending, OthersDone, SendsDone, Pending;
    if Pending(s.w, q) == [] {
      Relead(cfg, s, n, q, n, q);
    }
    AtWork(cfg, s.w, s.h, n, q);
  }

  /** What a step of the host on an owner's stream has to keep. */
  lemma HostOwnerStep(cfg: Config, s: State, n: nat, q: nat, m: nat, o: Owner, h: HostState)
    requires InvAt(cfg, s, n, q) && m in s.o && o.mem == s.o[m].mem && o.segs == s.o[m].segs
    requires OwnersOk(cfg, s.o[m := o], n, h.loop) && TailsOk(cfg, s.o[m := o], n) && Flow(cfg, s.w, h, n, q)
    requires Alone(s.o[m := o], s.w, h.sends, n, q) && DownOk(cfg, s.w, h, TailAt(s.o[m := o], n), q)
    ensures InvAt(cfg, Put(s, m, o).(h := h), n, q)
  {
    hide OwnersOk, TailsOk, DownOk, LanesOk, Flow, Alone, TailAt, Provided, TakenOnly;
    PresentPut(cfg, s.o, m, o);
    SeenPut(cfg, s.o, s.w.asked, m, o);
  }

  lemma OwnersPut(cfg: Config, o: map<nat, Owner>, n: nat, part: seq<Label>, m: nat, o': Owner, part': seq<Label>)
    requires OwnersOk(cfg, o, n, part) && (Uses(cfg, m) ==> UpOk(cfg, m, o', if m == n then part' else []))
    requires m == n || part' == part
    ensures OwnersOk(cfg, o[m := o'], n, part')
  {
    hide UpOk, Uses;
  }

  lemma TailsPut(cfg: Config, o: map<nat, Owner>, n: nat, m: nat, o': Owner)
    requires TailsOk(cfg, o, n) && TailOf(cfg, m, o'.link, n)
    ensures TailsOk(cfg, o[m := o'], n)
  {
    hide TailOf;
  }

  lemma AllItemsTail(link: Link)
    requires AllItems(Tail(link))
    ensures ItemsTail(link) == Tail(link)
  {
    if Tail(link) != [] {
      assert Tail(link)[0] in Tail(link);
    }
  }

  lemma PostedOthers(link: Link, l: Label)
    requires l.Item? && OthersDone(link)
    ensures OthersDone(Posted(link, l))
  {
  }

  lemma ReceivedOthers(size: Obj -> nat, link: Link)
    requires CanReceive(size, link)
    ensures OthersDone(link) ==> OthersDone(Received(size, link))
    ensures forall l :: l in Labels(link.got) ==> l in Labels(Received(size, link).got)
  {
    var c := Next(size, link);
    assert Labels(link.got + [c]) == Labels(link.got) + [c.tag];
  }

  /** The host's receive on the stream of the owner at work. */
  lemma PostUp(cfg: Config, n: nat, o: Owner, loop: seq<Label>)
    requires WellFormed(cfg) && UpOk(cfg, n, o, loop) && loop != [] && loop[0].Item? && OthersDone(o.link)
    ensures var o' := o.(link := Posted(o.link, loop[0]));
            && UpOk(cfg, n, o', loop[1..]) && OthersDone(o'.link)
            && AllItems(Tail(o'.link)) && ItemsTail(o'.link) == ItemsTail(o.link) + [loop[0]]
  {
    OwnTailItems(cfg, n, o, loop);
    UpPost(cfg, n, o, loop);
    GotBound(cfg, n, o, loop);
    hide UpOk, OthersDone, Tail, ItemsTail, WellFormed;
    TailPosted(o.link, loop[0]);
    PostedOthers(o.link, loop[0]);
    AllItemsTail(o.link);
    AllItemsTail(Posted(o.link, loop[0]));
  }

  lemma GotBound(cfg: Config, n: nat, o: Owner, part: seq<Label>)
    requires UpOk(cfg, n, o, part)
    ensures |o.link.got| <= |o.link.posted| && Conserved(cfg.size, o.link)
  {
    hide Proper, SideOk, Expand, Data, Sized;
  }

  lemma HPostStep(cfg: Config, s: State, n: nat, q: nat)
    requires WellFormed(cfg) && InvAt(cfg, s, n, q) && Enabled(cfg, HPost, s)
    ensures InvAt(cfg, Apply(cfg, HPost, s), n, q)
  {
    hide UpOk, Uses, TailOf, ItemsTail, Tail, OthersDone, Pending, SendsDone, LanesOk, WellFormed, WaiterSide,
         HostSide, DownBasics;
    BusyHost(cfg, s, n, q);
    var l := s.h.loop[0];
    assert Fits(cfg, l, n, q);
    OwnerIsOk(cfg, s, n, q, n);
    PostUp(cfg, n, s.o[n], s.h.loop);
    var o' := s.o[n].(link := Posted(s.o[n].link, l));
    var h' := s.h.(loop := s.h.loop[1..], posting := Some(l), postingLanded := false);
    OwnersPut(cfg, s.o, n, s.h.loop, n, o', h'.loop);
    ItemsOnly(cfg, n, o'.link);
    TailsPut(cfg, s.o, n, n, o');
    HostPosts(cfg, s.w, s.h, TailAt(s.o, n));
    BasicsPosts(cfg, s.w, s.h, h');
    HostOwnerStep(cfg, s, n, q, n, o', h');
    hide InvAt;
  }

  lemma ItemsOnly(cfg: Config, n: nat, link: Link)
    requires AllItems(Tail(link)) && Uses(cfg, n)
    ensures TailOf(cfg, n, link, n)
  {
  }

  lemma BasicsPosts(cfg: Config, w: Waiter, h: HostState, h': HostState)
    requires DownBasics(cfg, w, h) && h.loop != []
    requires h' == h.(loop := h.loop[1..], posting := Some(h.loop[0]), postingLanded := false)
    ensures DownBasics(cfg, w, h')
  {
    hide Conserved, AskedOk, SendsOk, Begun, Holds;
  }

  lemma BasicsLands(cfg: Config, w: Waiter, h: HostState, c: Chunk)
    requires DownBasics(cfg, w, h) && |c.bytes| == Len(cfg.size, c.tag)
    ensures DownBasics(cfg, w, Landed(h, c)) && Holds(cfg, Landed(h, c).cache)
  {
    hide Conserved, AskedOk, SendsOk, Begun, Patched;
  }

  lemma BasicsTakes(cfg: Config, w: Waiter, w': Waiter, h: HostState, r: nat)
    requires DownBasics(cfg, w, h) && w.asked.seen < |w.asked.log|
             && w' == w.(asked := w.asked.(seen := w.asked.seen + 1))
    ensures DownBasics(cfg, w', h.(loop := Items(cfg, AtHost, r)))
  {
    hide Conserved, SendsOk, Begun, Holds;
  }

  // ---- landing ----

  /** The receive at the head of an owner's stream. */
  lemma HeadTag(cfg: Config, m: nat, link: Link, n: nat)
    requires CanReceive(cfg.size, link) && TailOf(cfg, m, link, n)
    ensures Tail(link) != [] && Tail(link)[0] == Next(cfg.size, link).tag
    ensures Tail(Received(cfg.size, link)) == Tail(link)[1..]
    ensures Next(cfg.size, link).tag.Item? ==>
              m == n && Uses(cfg, n) && AllItems(Tail(link)) && ItemsTail(link) == Tail(link)
    ensures Next(cfg.size, link).tag.Other? ==> AllOthers(Tail(link)) && ItemsTail(link) == []
  {
    hide Uses;
    TailReceived(cfg.size, link);
    assert Tail(link)[0] in Tail(link);
  }

  lemma TailShorter(cfg: Config, m: nat, link: Link, link': Link, n: nat)
    requires TailOf(cfg, m, link, n) && Tail(link) != [] && Tail(link') == Tail(link)[1..]
    ensures TailOf(cfg, m, link', n)
    ensures AllItems(Tail(link)) ==> ItemsTail(link') == Tail(link)[1..]
    ensures AllOthers(Tail(link)) ==> ItemsTail(link') == []
  {
    hide Tail, Uses;
    if Tail(link') != [] {
      assert Tail(link')[0] == Tail(link)[1] && Tail(link)[1] in Tail(link);
    }
  }

  lemma HReceiveStep(cfg: Config, s: State, n: nat, q: nat, m: nat)
    requires WellFormed(cfg) && InvAt(cfg, s, n, q) && Enabled(cfg, HReceive(m), s)
    ensures InvAt(cfg, Apply(cfg, HReceive(m), s), n, q)
  {
    hide UpOk, Uses, TailOf, ItemsTail, Tail, OthersDone, Pending, SendsDone, LanesOk, WellFormed, WaiterSide, HostSide,
      DownBasics, CanReceive, Landed, Received, Next, AllItems, AllOthers;
    var o, link := s.o[m], s.o[m].link;
    var c, o' := Next(cfg.size, link), o.(link := Received(cfg.size, link));
    var h' := Landed(s.h, c);
    assert TailOf(cfg, m, link, n);
    HeadTag(cfg, m, link, n);
    TailShorter(cfg, m, link, o'.link, n);
    LandedParts(s.h, c);
    if Uses(cfg, m) {
      OwnerIsOk(cfg, s, n, q, m);
      UpReceive(cfg, m, o, Part(s.h, m, n));
    }
    OwnersPut(cfg, s.o, n, s.h.loop, m, o', h'.loop);
    TailsPut(cfg, s.o, n, m, o');
    ReceivedOthers(cfg.size, link);
    NextSize(cfg.size, link);
    BasicsLands(cfg, s.w, s.h, c);
    if c.tag.Item? {
      TailNoDup(cfg, m, o, Part(s.h, m, n));
      HostLands(cfg, s.w, s.h, TailAt(s.o, n), c);
    } else {
      CopyDown(cfg, s.w, s.h, TailAt(s.o, n), q, h'.cache);
    }
    HostOwnerStep(cfg, s, n, q, m, o', h');
    hide InvAt;
  }

  lemma NextSize(size: Obj -> nat, link: Link)
    requires CanReceive(size, link)
    ensures |Next(size, link).bytes| == Len(size, Next(size, link).tag)
  {
  }

  lemma LandedParts(h: HostState, c: Chunk)
    ensures Landed(h, c).loop == h.loop && Landed(h, c).sends == h.sends
    ensures c.tag.Other? ==> Landed(h, c) == h.(cache := Landed(h, c).cache)
  {
  }

  lemma TailNoDup(cfg: Config, m: nat, o: Owner, part: seq<Label>)
    requires WellFormed(cfg) && UpOk(cfg, m, o, part)
    ensures NoDup(Tail(o.link))
  {
    PostedNoDup(cfg, AtHost, o.segs, o.link.posted, part);
  }

  // ---- the host takes up a request ----

  lemma HSyncStep(cfg: Config, s: State, n: nat, q: nat)
    requires WellFormed(cfg) && InvAt(cfg, s, n, q) && Enabled(cfg, HSync, s)
    ensures InvAt(cfg, Apply(cfg, HSync, s), n, q)
  {
    hide UpOk, Uses, TailOf, Tail, OthersDone, Pending, SendsDone, LanesOk, WellFormed, WaiterSide, HostSide,
      DownBasics, AllItems, AllOthers, Provided, TakenOnly, OwnersOk;
    var r := s.w.asked.log[s.w.asked.seen];
    assert Unseen(s.w.asked)[0] == r && r in Unseen(s.w.asked);
    BusyHost(cfg, s, n, q);
    var o := s.o[n];
    var o' := o.(orders := o.orders.(log := o.orders.log + [r]), segs := o.segs + [Sync(r)]);
    var w' := s.w.(asked := s.w.asked.(seen := s.w.asked.seen + 1));
    var h' := s.h.(loop := Items(cfg, AtHost, r));
    OwnerIsOk(cfg, s, n, q, n);
    NewRequest(cfg, s.o, s.w, s.h, n, r);
    OrderUp(cfg, n, o, r);
    OwnersPut(cfg, s.o, n, [], n, o', h'.loop);
    TailsPut(cfg, s.o, n, n, o');
    PresentPut(cfg, s.o, n, o');
    SeenMore(cfg, s.o, s.w.asked, n, o', r);
    HostTakes(cfg, s.w, w', s.h, TailAt(s.o, n));
    BasicsTakes(cfg, s.w, w', s.h, r);
    FlowTakes(cfg, s.w, w', s.h, r, n, q);
    SamePending(s.w, w', q);
    hide ItemsTail, Flow;
  }

  lemma SamePending(w: Waiter, w': Waiter, q: nat)
    requires w'.lanes == w.lanes && w'.loop == w.loop
    ensures Pending(w', q) == Pending(w, q)
  {
  }

  lemma OrderUp(cfg: Config, n: nat, o: Owner, r: nat)
    requires WellFormed(cfg) && UpOk(cfg, n, o, []) && r < |cfg.rounds| && GetRound(cfg, r).owner == n
             && Sync(r) !in o.segs && OthersDone(o.link)
    ensures UpOk(cfg, n, o.(orders := o.orders.(log := o.orders.log + [r]), segs := o.segs + [Sync(r)]),
            Items(cfg, AtHost, r))
  {
    hide UpOk;
    UpNotLacking(cfg, n, o, []);
    UpOrder(cfg, n, o, r);
  }

  lemma NewRequest(cfg: Config, o: map<nat, Owner>, w: Waiter, h: HostState, n: nat, r: nat)
    requires DownBasics(cfg, w, h) && SeenOk(cfg, o, w.asked) && n in o && Uses(cfg, n)
    requires w.asked.seen < |w.asked.log| && r == w.asked.log[w.asked.seen]
    ensures Sync(r) !in o[n].segs
  {
    hide Conserved, SendsOk, Begun, Holds, AllItems, Uses;
    assert r !in w.asked.log[..w.asked.seen];
    assert TakenOnly(o[n].segs, w.asked.log[..w.asked.seen]);
  }

  lemma SeenMore(cfg: Config, o: map<nat, Owner>, asked: Mail, n: nat, o': Owner, r: nat)
    requires SeenOk(cfg, o, asked) && n in o && o'.segs == o[n].segs + [Sync(r)]
    requires asked.seen < |asked.log| && r == asked.log[asked.seen]
    ensures SeenOk(cfg, o[n := o'], asked.(seen := asked.seen + 1))
  {
    hide Uses;
    assert asked.log[..asked.seen + 1] == asked.log[..asked.seen] + [r];
  }

  lemma FlowTakes(cfg: Config, w: Waiter, w': Waiter, h: HostState, r: nat, n: nat, q: nat)
    requires Flow(cfg, w, h, n, q) && w.asked.seen < |w.asked.log| && r == w.asked.log[w.asked.seen]
    requires w' == w.(asked := w.asked.(seen := w.asked.seen + 1))
    ensures Flow(cfg, w', h.(loop := Items(cfg, AtHost, r)), n, q)
  {
    SamePending(w, w', q);
    assert Unseen(w.asked)[0] == r && Unseen(w.asked)[1..] == Unseen(w'.asked);
    assert r in Unseen(w.asked);
    RoundFits(cfg, AtHost, r, n, q);
    hide Pending, Unseen, Fits;
    assert forall x :: x in Unseen(w.asked)[1..] ==> x in Unseen(w.asked);
  }

  // ---- steps of the host on the stream to the waiting node ----

  /** A step that leaves the owners alone, the rounds requested, and what the host has to post. */
  lemma DownStep(cfg: Config, s: State, n: nat, q: nat, w: Waiter, h: HostState)
    requires InvAt(cfg, s, n, q) && h.loop == s.h.loop && w.asked == s.w.asked && LanesOk(cfg, w.lanes, q)
    requires AllFit(cfg, Pending(w, q), n, q) && Alone(s.o, w, h.sends, n, q) && DownOk(cfg, w, h, TailAt(s.o, n), q)
    ensures InvAt(cfg, s.(w := w, h := h), n, q)
  {
    hide OwnersOk, TailsOk, DownOk, LanesOk, AllFit, Alone, TailAt, Present, SeenOk;
  }

  lemma DownIs(cfg: Config, s: State, n: nat, q: nat)
    requires InvAt(cfg, s, n, q)
    ensures LanesOk(cfg, s.w.lanes, q) && AllFit(cfg, Pending(s.w, q), n, q) && AllFit(cfg, s.h.loop, n, q)
    ensures Alone(s.o, s.w, s.h.sends, n, q) && DownBasics(cfg, s.w, s.h) && HostSide(cfg, s.w, s.h, TailAt(s.o, n))
    ensures WaiterSide(cfg, s.w.segs, s.w.link, LaneOf(s.w, q), s.w.loop)
  {
    hide OwnersOk, TailsOk, LanesOk, AllFit, Alone, TailAt, Present, SeenOk, DownBasics, HostSide, WaiterSide;
  }

  /** Sends for items are posted. */
  lemma BasicsSends(cfg: Config, w: Waiter, h: HostState, h': HostState, more: seq<Send>)
    requires DownBasics(cfg, w, h) && h' == h.(sends := h.sends + more, posting := h'.posting, trigger := h'.trigger)
    requires AllItems(Opt(h'.trigger)) && AllItems(Opt(h'.posting)) && forall x :: x in more ==> SendOk(cfg, x)
    ensures DownBasics(cfg, w, h')
  {
    hide Conserved, AskedOk, Holds, AllItems, SendOk;
    assert SendTags(h.sends + more) == SendTags(h.sends) + SendTags(more);
    forall k | 0 <= k < |h'.sends| ensures SendOk(cfg, h'.sends[k]) {
      if k >= |h.sends| {
        assert h'.sends[k] == more[k - |h.sends|];
      }
    }
  }

  lemma SendsAlone(o: map<nat, Owner>, w: Waiter, sends: seq<Send>, l: Label, n: nat, q: nat)
    requires Alone(o, w, sends, n, q) && l.Item?
    ensures Alone(o, w, sends + [Cached(l)], n, q)
  {
    hide OthersDone, Pending;
    SendTagsAppend(sends, Cached(l));
  }

  lemma HTriggerStep(cfg: Config, s: State, n: nat, q: nat)
    requires InvAt(cfg, s, n, q) && Enabled(cfg, HTrigger, s)
    ensures InvAt(cfg, Apply(cfg, HTrigger, s), n, q)
  {
    hide InvAt, DownBasics, HostSide, WaiterSide, LanesOk, Pending, Alone, AllFit, TailAt;
    DownIs(cfg, s, n, q);
    var l := s.h.trigger.value;
    var h' := s.h.(trigger := None, sends := s.h.sends + [Cached(l)]);
    OptItems(cfg, s.w, s.h);
    BasicsSends(cfg, s.w, s.h, h', [Cached(l)]);
    HostTriggers(cfg, s.w, s.h, TailAt(s.o, n));
    SendsAlone(s.o, s.w, s.h.sends, l, n, q);
    DownStep(cfg, s, n, q, s.w, h');
  }

  lemma OptItems(cfg: Config, w: Waiter, h: HostState)
    requires DownBasics(cfg, w, h)
    ensures AllItems(Opt(h.trigger)) && AllItems(Opt(h.posting)) && AllItems(Opt(None))
    ensures (h.trigger.Some? ==> h.trigger.value.Item?) && (h.posting.Some? ==> h.posting.value.Item?)
  {
    hide Conserved, AskedOk, SendsOk, Begun, Holds;
    assert h.trigger.Some? ==> h.trigger.value in Opt(h.trigger);
    assert h.posting.Some? ==> h.posting.value in Opt(h.posting);
  }

  lemma HSetCallbackStep(cfg: Config, s: State, n: nat, q: nat)
    requires InvAt(cfg, s, n, q) && Enabled(cfg, HSetCallback, s)
    ensures InvAt(cfg, Apply(cfg, HSetCallback, s), n, q)
  {
    hide InvAt, DownBasics, HostSide, WaiterSide, LanesOk, Pending, Alone, AllFit, TailAt;
    DownIs(cfg, s, n, q);
    var l := s.h.posting.value;
    var more := if s.h.postingLanded then [Cached(l)] else [];
    var h' := s.h.(posting := None, sends := s.h.sends + more);
    OptItems(cfg, s.w, s.h);
    BasicsSends(cfg, s.w, s.h, h', more);
    HostSetsCallback(cfg, s.w, s.h, TailAt(s.o, n));
    SendsAlone(s.o, s.w, s.h.sends, l, n, q);
    assert s.h.sends + [] == s.h.sends;
    DownStep(cfg, s, n, q, s.w, h');
  }

  lemma HTransmitStep(cfg: Config, s: State, n: nat, q: nat)
    requires InvAt(cfg, s, n, q) && Enabled(cfg, HTransmit, s)
    ensures InvAt(cfg, Apply(cfg, HTransmit, s), n, q)
  {
    hide InvAt, DownBasics, HostSide, WaiterSide, LanesOk, Pending, Alone, AllFit, TailAt;
    DownIs(cfg, s, n, q);
    var c := Transmitted(s.h, s.h.sends[|s.w.link.sent|]);
    var w' := s.w.(link := Sent(s.w.link, c));
    BasicsTransmits(cfg, s.w, s.h);
    SamePending(s.w, w', q);
    TransmitsAlone(s.o, s.w, s.h.sends, c, n, q);
    SentTail(s.w.link, c);
    SideTransmits(cfg, s.w, w', s.h, TailAt(s.o, n), c, q);
    DownStep(cfg, s, n, q, w', s.h);
  }

  lemma BasicsTransmits(cfg: Config, w: Waiter, h: HostState)
    requires DownBasics(cfg, w, h) && |w.link.sent| < |h.sends| && Ready(h, h.sends[|w.link.sent|])
    ensures DownBasics(cfg, w.(link := Sent(w.link, Transmitted(h, h.sends[|w.link.sent|]))), h)
  {
    var k := |w.link.sent|;
    var c := Transmitted(h, h.sends[k]);
    assert SendOk(cfg, h.sends[k]);
    ConservedSent(cfg.size, w.link, c);
    hide Conserved, AskedOk, Begun;
    assert Labels(w.link.sent + [c]) == Labels(w.link.sent) + [c.tag];
    assert SendTags(h.sends)[..k + 1] == SendTags(h.sends)[..k] + [c.tag];
  }

  lemma TransmitsAlone(o: map<nat, Owner>, w: Waiter, sends: seq<Send>, c: Chunk, n: nat, q: nat)
    requires Alone(o, w, sends, n, q) && c.tag in SendTags(sends)
    ensures Alone(o, w.(link := Sent(w.link, c)), sends, n, q)
  {
    SamePending(w, w.(link := Sent(w.link, c)), q);
    hide Pending;
    assert Labels(w.link.sent + [c]) == Labels(w.link.sent) + [c.tag];
  }

  lemma SideTransmits(cfg: Config, w: Waiter, w': Waiter, h: HostState, tail: seq<Label>, c: Chunk, q: nat)
    requires HostSide(cfg, w, h, tail) && WaiterSide(cfg, w.segs, w.link, LaneOf(w, q), w.loop)
             && w' == w.(link := Sent(w.link, c))
    ensures HostSide(cfg, w', h, tail) && WaiterSide(cfg, w'.segs, w'.link, LaneOf(w', q), w'.loop)
  {
    SentTail(w.link, c);
    hide SideOk, PostingOk, Tail, Rest;
  }

  // ---- the waiting node requests a round ----

  function Asking(cfg: Config, w: Waiter, r: nat): Waiter {
    w.(asked := w.asked.(log := w.asked.log + [r]), loop := Items(cfg, AtWaiter, r), segs := w.segs + [Sync(r)])
  }

  lemma BasicsAsks(cfg: Config, w: Waiter, h: HostState, r: nat)
    requires DownBasics(cfg, w, h) && r < |cfg.rounds| && r !in w.asked.log
    ensures DownBasics(cfg, Asking(cfg, w, r), h)
  {
    hide Conserved, SendsOk, Holds;
    assert Sync(r) !in w.segs;
    ProperAppend(cfg, w.segs, Sync(r));
    AskedMore(cfg, w.asked, w.segs, r);
    hide AskedOk, Proper;
  }

  lemma AskedMore(cfg: Config, asked: Mail, segs: seq<Seg>, r: nat)
    requires AskedOk(cfg, asked, segs) && r !in asked.log && Proper(cfg, segs + [Sync(r)])
    ensures AskedOk(cfg, asked.(log := asked.log + [r]), segs + [Sync(r)])
  {
    hide Proper;
  }

  lemma AsksOk(cfg: Config, w: Waiter, h: HostState, tail: seq<Label>, q: nat, r: nat)
    requires WellFormed(cfg) && DownOk(cfg, w, h, tail, q) && r < |cfg.rounds| && r !in w.asked.log && w.loop == []
    requires OthersDone(w.link) && SendsDone(w.link, h.sends)
    ensures DownOk(cfg, Asking(cfg, w, r), h, tail, q)
  {
    hide Conserved, SendsOk, Begun, Holds, HostSide, WaiterSide, AllItems, OthersDone, SendsDone, WellFormed;
    BasicsAsks(cfg, w, h, r);
    HostNotLacking(cfg, w, h, tail, LaneOf(w, q));
    WaiterNotLacking(cfg, w, h, LaneOf(w, q));
    AskedBound(cfg, w, h);
    hide DownBasics, Lacks;
    HostAsked(cfg, w, Asking(cfg, w, r), h, tail, r);
    WaiterAsks(cfg, w.segs, w.link, LaneOf(w, q), r);
  }

  lemma AskedBound(cfg: Config, w: Waiter, h: HostState)
    requires DownBasics(cfg, w, h)
    ensures w.asked.seen <= |w.asked.log|
  {
    hide Conserved, SendsOk, Begun, Holds, AllItems, Proper;
  }

  lemma FlowAsks(cfg: Config, w: Waiter, h: HostState, r: nat, n: nat, q: nat)
    requires Flow(cfg, w, h, n, q) && w.loop == [] && r < |cfg.rounds| && w.asked.seen <= |w.asked.log|
    requires GetRound(cfg, r).owner == n && GetRound(cfg, r).queue == q
    ensures Flow(cfg, Asking(cfg, w, r), h, n, q)
  {
    PendingAsks(cfg, w, r, q);
    RoundFits(cfg, AtWaiter, r, n, q);
    hide Pending, Fits, Unseen;
    assert forall l ::
        l in Pending(w, q) + Items(cfg, AtWaiter, r) ==> l in Pending(w, q) || l in Items(cfg, AtWaiter, r);
  }

  lemma PendingAsks(cfg: Config, w: Waiter, r: nat, q: nat)
    requires w.loop == [] && w.asked.seen <= |w.asked.log|
    ensures Unseen(Asking(cfg, w, r).asked) == Unseen(w.asked) + [r]
    ensures Pending(Asking(cfg, w, r), q) == Pending(w, q) + Items(cfg, AtWaiter, r)
  {
    hide Undone;
  }

  lemma RoundFits(cfg: Config, side: Side, r: nat, n: nat, q: nat)
    requires r < |cfg.rounds| && GetRound(cfg, r).owner == n && GetRound(cfg, r).queue == q
    ensures AllFit(cfg, Items(cfg, side, r), n, q)
  {
  }

  lemma SeenAsks(cfg: Config, o: map<nat, Owner>, asked: Mail, r: nat)
    requires SeenOk(cfg, o, asked)
    ensures SeenOk(cfg, o, asked.(log := asked.log + [r]))
  {
    hide Uses;
    assert (asked.log + [r])[..asked.seen] == asked.log[..asked.seen];
  }

  lemma AskStep(cfg: Config, s: State, n: nat, q: nat, r: nat)
    requires WellFormed(cfg) && InvAt(cfg, s, n, q) && Enabled(cfg, WSync(r), s)
    requires GetRound(cfg, r).owner == n && GetRound(cfg, r).queue == q
    requires OthersDone(At(s, n).link) && DownOthersDone(s)
    ensures InvAt(cfg, Apply(cfg, WSync(r), s), n, q)
  {
    hide OwnersOk, TailsOk, LanesOk, Flow, TailAt, Present, SeenOk, DownOk, OthersDone, WellFormed, Pending, Uses;
    InTheMap(cfg, s.o, r);
    AsksOk(cfg, s.w, s.h, TailAt(s.o, n), q, r);
    hide SendsDone;
    SeenAsks(cfg, s.o, s.w.asked, r);
    SeenIs(cfg, s.o, s.w.asked);
    FlowAsks(cfg, s.w, s.h, r, n, q);
    hide Asking;
  }

  lemma SeenIs(cfg: Config, o: map<nat, Owner>, asked: Mail)
    requires SeenOk(cfg, o, asked)
    ensures asked.seen <= |asked.log|
  {
  }

  lemma InTheMap(cfg: Config, o: map<nat, Owner>, r: nat)
    requires Present(cfg, o) && r < |cfg.rounds|
    ensures GetRound(cfg, r).owner in o
  {
    assert Provided(cfg.rounds[r], o);
  }

  lemma WSyncStep(cfg: Config, s: State, n: nat, q: nat, r: nat)
    requires WellFormed(cfg) && cfg.apart && InvAt(cfg, s, n, q) && Enabled(cfg, WSync(r), s)
    ensures InvAt(cfg, Apply(cfg, WSync(r), s), GetRound(cfg, r).owner, GetRound(cfg, r).queue)
  {
    hide InvAt, Apply, OthersDone, DownOthersDone, WellFormed, Pending, Unfinished;
    var n', q' := GetRound(cfg, r).owner, GetRound(cfg, r).queue;
    if Pending(s.w, q) == [] {
      Relead(cfg, s, n, q, n', q');
    } else {
      var l := Pending(s.w, q)[0];
      IsUnfinished(s.w, q, l);
      WorkOf(cfg, s, n, q);
      assert Compatible(cfg, RoundOf(l), r);
    }
    AskStep(cfg, s, n', q', r);
  }

  lemma WorkOf(cfg: Config, s: State, n: nat, q: nat)
    requires InvAt(cfg, s, n, q)
    ensures AllFit(cfg, Pending(s.w, q), n, q)
  {
    hide OwnersOk, TailsOk, LanesOk, TailAt, Present, SeenOk, DownOk, Alone, AllFit;
  }

  // ---- the acquire chains ----

  lemma WaiterLane(cfg: Config, w: Waiter, q: nat)
    requires LanesOk(cfg, w.lanes, q)
    ensures LaneOk(LaneOf(w, q)) && QueueOk(cfg, LaneOf(w, q).log, q)
  {
  }

  lemma LanesPut(cfg: Config, lanes: map<nat, Lane>, q: nat, lane: Lane)
    requires LanesOk(cfg, lanes, q) && LaneOk(lane) && QueueOk(cfg, lane.log, q)
    ensures LanesOk(cfg, lanes[q := lane], q)
  {
    hide LaneOk, QueueOk, Undone;
  }

  /** Only the queue at work has a chain at its head. */
  lemma OnlyQueue(cfg: Config, w: Waiter, q: nat, p: nat)
    requires LanesOk(cfg, w.lanes, q) && LaneOf(w, p).pos < |LaneOf(w, p).log|
    ensures p == q
  {
    assert Undone(LaneOf(w, p)) != [];
  }

  /** A step of the waiting node that posts nothing and takes no bytes. */
  lemma LaneStep(cfg: Config, s: State, n: nat, q: nat, w: Waiter)
    requires InvAt(cfg, s, n, q) && w.link == s.w.link && w.segs == s.w.segs && w.asked == s.w.asked && AllItems(w.loop)
    requires LanesOk(cfg, w.lanes, q) && forall l :: l in Pending(w, q) ==> l in Pending(s.w, q)
    requires WaiterSide(cfg, w.segs, w.link, LaneOf(w, q), w.loop)
    ensures InvAt(cfg, s.(w := w), n, q)
  {
    DownIs(cfg, s, n, q);
    hide InvAt, WaiterSide, LanesOk, Pending, OthersDone, SendsDone, Fits, TailAt;
    assert Pending(w, q) != [] ==> Pending(w, q)[0] in Pending(s.w, q);
    BasicsLoop(cfg, s.w, w, s.h);
    HostUnaffected(cfg, s.w, w, s.h, TailAt(s.o, n));
    hide DownBasics, HostSide;
    DownStep(cfg, s, n, q, w, s.h);
  }

  lemma BasicsLoop(cfg: Config, w: Waiter, w': Waiter, h: HostState)
    requires DownBasics(cfg, w, h) && w'.link == w.link && w'.segs == w.segs && w'.asked == w.asked && AllItems(w'.loop)
    ensures DownBasics(cfg, w', h)
  {
    hide Conserved, SendsOk, Begun, Holds, AllItems, AskedOk;
  }

  lemma HostUnaffected(cfg: Config, w: Waiter, w': Waiter, h: HostState, tail: seq<Label>)
    requires HostSide(cfg, w, h, tail) && w'.segs == w.segs && w'.asked == w.asked
    ensures HostSide(cfg, w', h, tail)
  {
    hide SideOk, PostingOk;
  }

  lemma WEnqueueStep(cfg: Config, s: State, n: nat, q: nat)
    requires InvAt(cfg, s, n, q) && Enabled(cfg, WEnqueue, s)
    ensures InvAt(cfg, Apply(cfg, WEnqueue, s), n, q)
  {
    hide InvAt, DownBasics, HostSide, WaiterSide, LanesOk, Alone, TailAt, QueueOk, LaneOk, Undone, Enqueued;
    DownIs(cfg, s, n, q);
    var l, lane := s.w.loop[0], LaneOf(s.w, q);
    assert l in Pending(s.w, q);
    assert Fits(cfg, l, n, q);
    WaiterLane(cfg, s.w, q);
    EnqueuedLane(cfg, lane, l, q);
    var w' := PutLane(s.w, q, Enqueued(lane, l)).(loop := s.w.loop[1..]);
    WaiterEnqueues(cfg, s.w.segs, s.w.link, lane, s.w.loop);
    LanesPut(cfg, s.w.lanes, q, Enqueued(lane, l));
    assert Pending(w', q) == Pending(s.w, q);
    LoopRest(cfg, s.w, s.h);
    LaneStep(cfg, s, n, q, w');
  }

  lemma LoopRest(cfg: Config, w: Waiter, h: HostState)
    requires DownBasics(cfg, w, h)
    ensures AllItems(w.loop) && (w.loop != [] ==> AllItems(w.loop[1..]))
  {
    hide Conserved, SendsOk, Begun, Holds, AskedOk;
  }

  lemma EnqueuedLane(cfg: Config, lane: Lane, l: Label, q: nat)
    requires LaneOk(lane) && QueueOk(cfg, lane.log, q) && l.Item? && GetRound(cfg, l.round).queue == q
    ensures LaneOk(Enqueued(lane, l)) && QueueOk(cfg, Enqueued(lane, l).log, q)
    ensures Undone(Enqueued(lane, l)) == Undone(lane) + [l]
  {
  }

  lemma WMapStep(cfg: Config, s: State, n: nat, q: nat, p: nat)
    requires InvAt(cfg, s, n, q) && Enabled(cfg, WMap(p), s)
    ensures InvAt(cfg, Apply(cfg, WMap(p), s), n, q)
  {
    hide InvAt, DownBasics, HostSide, WaiterSide, LanesOk, Alone, TailAt, QueueOk, AllFit;
    DownIs(cfg, s, n, q);
    OnlyQueue(cfg, s.w, q, p);
    var lane := LaneOf(s.w, q);
    WaiterLane(cfg, s.w, q);
    WaiterMaps(cfg, s.w.segs, s.w.link, lane, s.w.loop);
    LanesPut(cfg, s.w.lanes, q, lane.(stage := Mapped));
    var w' := PutLane(s.w, q, lane.(stage := Mapped));
    assert Pending(w', q) == Pending(s.w, q);
    LoopRest(cfg, s.w, s.h);
    LaneStep(cfg, s, n, q, w');
  }

  lemma WUnmapStep(cfg: Config, s: State, n: nat, q: nat, p: nat)
    requires InvAt(cfg, s, n, q) && Enabled(cfg, WUnmap(p), s)
    ensures InvAt(cfg, Apply(cfg, WUnmap(p), s), n, q)
  {
    hide InvAt, DownBasics, HostSide, WaiterSide, LanesOk, Alone, TailAt, QueueOk, AllFit;
    DownIs(cfg, s, n, q);
    OnlyQueue(cfg, s.w, q, p);
    var lane := LaneOf(s.w, q);
    WaiterLane(cfg, s.w, q);
    WaiterUnmaps(cfg, s.w.segs, s.w.link, lane, s.w.loop);
    LanesPut(cfg, s.w.lanes, q, Unmapped(lane));
    var w' := Apply(cfg, WUnmap(p), s).w;
    assert Undone(lane) == [Head(lane)] + Undone(Unmapped(lane));
    LoopRest(cfg, s.w, s.h);
    LaneStep(cfg, s, n, q, w');
  }

  // ---- the waiting node's stream ----

  lemma LinkBound(cfg: Config, w: Waiter, h: HostState)
    requires DownBasics(cfg, w, h)
    ensures |w.link.got| <= |w.link.posted| && Conserved(cfg.size, w.link)
  {
    hide AskedOk, SendsOk, Begun, Holds, AllItems;
  }

  /** Basics, after a receive is posted. */
  lemma BasicsWaiterPosts(cfg: Config, w: Waiter, w': Waiter, h: HostState, l: Label)
    requires DownBasics(cfg, w, h) && w'.link == Posted(w.link, l) && w'.asked == w.asked && w'.loop == w.loop
    requires w'.segs == w.segs
    ensures DownBasics(cfg, w', h)
  {
    ConservedPosted(cfg.size, w.link, l);
    hide Conserved, AskedOk, SendsOk, Holds, AllItems;
  }

  lemma BasicsWaiterReceives(cfg: Config, w: Waiter, w': Waiter, h: HostState)
    requires DownBasics(cfg, w, h) && CanReceive(cfg.size, w.link) && w'.link == Received(cfg.size, w.link)
    requires w'.asked == w.asked && w'.loop == w.loop && w'.segs == w.segs
    ensures DownBasics(cfg, w', h)
  {
    ConservedReceived(cfg.size, w.link);
    hide Conserved, AskedOk, SendsOk, Holds, AllItems;
  }

  lemma DownTailItems(cfg: Config, w: Waiter, h: HostState, lane: Lane)
    requires WellFormed(cfg) && DownBasics(cfg, w, h) && WaiterSide(cfg, w.segs, w.link, lane, w.loop)
             && OthersDone(w.link)
    ensures AllItems(Tail(w.link))
  {
    hide LaneOk, TailOk, SendsOk, Begun, Holds, Data, OthersDone, Covers, Lacks, WellFormed, Proper, Rest;
    PostedNoDup(cfg, AtWaiter, w.segs, w.link.posted, Rest(lane) + w.loop);
    TailItems(w.link);
  }

  lemma NotWaitingTail(link: Link, lane: Lane)
    requires TailOk(link, lane) && !AtStage(lane, Waiting)
    ensures AllOthers(Tail(link))
  {
  }

  lemma WPostStep(cfg: Config, s: State, n: nat, q: nat, p: nat)
    requires WellFormed(cfg) && InvAt(cfg, s, n, q) && Enabled(cfg, WPost(p), s)
    ensures InvAt(cfg, Apply(cfg, WPost(p), s), n, q)
  {
    hide InvAt, DownBasics, HostSide, WaiterSide, LanesOk, TailAt, QueueOk, LaneOk, OthersDone, SendsDone, WellFormed,
         Undone;
    DownIs(cfg, s, n, q);
    OnlyQueue(cfg, s.w, q, p);
    var lane := LaneOf(s.w, q);
    var w' := PutLane(s.w, q, lane.(stage := Waiting)).(link := Posted(s.w.link, Head(lane)));
    WaiterLane(cfg, s.w, q);
    StageLane(cfg, lane, Waiting, lane.buffer, q);
    LanesPut(cfg, s.w.lanes, q, lane.(stage := Waiting));
    assert Head(lane) in Pending(s.w, q);
    assert Fits(cfg, Head(lane), n, q);
    DownTailItems(cfg, s.w, s.h, lane);
    SideTail(cfg, s.w, lane);
    NothingInBoth(Tail(s.w.link));
    LinkBound(cfg, s.w, s.h);
    hide Tail;
    WaiterPosts(cfg, s.w.segs, s.w.link, lane, s.w.loop);
    BasicsWaiterPosts(cfg, s.w, w', s.h, Head(lane));
    PostedOthers(s.w.link, Head(lane));
    HostUnaffected(cfg, s.w, w', s.h, TailAt(s.o, n));
    assert Pending(w', q) == Pending(s.w, q);
    SendsDoneSame(s.w.link, w'.link, s.h.sends);
    DownStep(cfg, s, n, q, w', s.h);
  }

  lemma SendsDoneSame(link: Link, link': Link, sends: seq<Send>)
    requires SendsDone(link, sends) && forall l :: l in Labels(link.got) ==> l in Labels(link'.got)
    ensures SendsDone(link', sends)
  {
  }

  /** The lane may change its stage while it has a chain at its head. */
  lemma StageLane(cfg: Config, lane: Lane, stage: Stage, buffer: Bytes, q: nat)
    requires LaneOk(lane) && QueueOk(cfg, lane.log, q) && lane.pos < |lane.log|
    ensures var lane' := lane.(stage := stage, buffer := buffer);
            LaneOk(lane') && QueueOk(cfg, lane'.log, q) && Undone(lane') == Undone(lane) && Head(lane) in Undone(lane)
  {
    assert Undone(lane)[0] == Head(lane);
  }

  lemma SideTail(cfg: Config, w: Waiter, lane: Lane)
    requires WaiterSide(cfg, w.segs, w.link, lane, w.loop) && !AtStage(lane, Waiting)
    ensures AllOthers(Tail(w.link))
  {
    hide SideOk, Tail, Rest;
    NotWaitingTail(w.link, lane);
  }

  lemma WReceiveStep(cfg: Config, s: State, n: nat, q: nat)
    requires WellFormed(cfg) && InvAt(cfg, s, n, q) && Enabled(cfg, WReceive, s)
    ensures InvAt(cfg, Apply(cfg, WReceive, s), n, q)
  {
    hide InvAt, DownBasics, HostSide, WaiterSide, LanesOk, TailAt, QueueOk, LaneOk, OthersDone, SendsDone, WellFormed,
         Undone,
      CanReceive, Received, Next, Alone, AllFit, Fits;
    DownIs(cfg, s, n, q);
    var lane, link := LaneOf(s.w, q), s.w.link;
    var c, w' := Next(cfg.size, link), WaiterReceived(cfg, s.w);
    WaiterLane(cfg, s.w, q);
    NextTag(cfg.size, link);
    if c.tag.Item? {
      WaiterReceives(cfg, s.w.segs, link, lane, s.w.loop);
      StageLane(cfg, lane, Moved, c.bytes, q);
      HeadQueue(cfg, lane, q);
      LanesPut(cfg, s.w.lanes, q, lane.(stage := Moved, buffer := c.bytes));
    } else {
      WaiterReceivesOther(cfg, s.w.segs, link, lane, s.w.loop);
    }
    BasicsWaiterReceives(cfg, s.w, w', s.h);
    HostUnaffected(cfg, s.w, w', s.h, TailAt(s.o, n));
    assert Pending(w', q) == Pending(s.w, q);
    ReceivedAlone(cfg, s.o, s.w, w', s.h.sends, n, q);
    DownStep(cfg, s, n, q, w', s.h);
  }

  lemma NextTag(size: Obj -> nat, link: Link)
    requires CanReceive(size, link)
    ensures |link.got| < |link.posted| && Next(size, link).tag == link.posted[|link.got|]
  {
  }

  lemma HeadQueue(cfg: Config, lane: Lane, q: nat)
    requires QueueOk(cfg, lane.log, q) && lane.pos < |lane.log|
    ensures GetRound(cfg, RoundOf(Head(lane))).queue == q
  {
    assert Head(lane) in lane.log;
  }

  lemma ReceivedAlone(cfg: Config, o: map<nat, Owner>, w: Waiter, w': Waiter, sends: seq<Send>, n: nat, q: nat)
    requires Alone(o, w, sends, n, q) && CanReceive(cfg.size, w.link) && w'.link == Received(cfg.size, w.link)
    requires Pending(w', q) == Pending(w, q)
    ensures Alone(o, w', sends, n, q)
  {
    hide OthersDone, Pending, CanReceive, Received, SendsDone;
    ReceivedOthers(cfg.size, w.link);
    if Pending(w, q) != [] {
      SendsDoneSame(w.link, w'.link, sends);
    }
  }

  // ---- writes to the waiting node ----

  lemma NoRound(s: State, q: nat)
    requires MayWrite(s)
    ensures Pending(s.w, q) == []
  {
    hide OthersDone, DownOthersDone, Unfinished, Pending;
    if Pending(s.w, q) != [] {
      IsUnfinished(s.w, q, Pending(s.w, q)[0]);
    }
  }

  /** Nothing is under way when another command begins a transfer to the waiting node. */
  lemma BeforeWrite(cfg: Config, s: State, n: nat, q: nat)
    requires WellFormed(cfg) && InvAt(cfg, s, n, q) && MayWrite(s)
    ensures Pending(s.w, q) == [] && s.w.loop == [] && Undone(LaneOf(s.w, q)) == []
    ensures TailAt(s.o, n) == [] && HostPending(cfg, s.w, s.h, []) == []
    ensures !Lacks(cfg, AtWaiter, s.w.segs, s.w.link.posted + [])
    ensures !Lacks(cfg, AtHost, s.w.segs, SendTags(s.h.sends) + [])
  {
    hide InvAt, DownBasics, HostSide, WaiterSide, LanesOk, TailAt, OthersDone, SendsDone, WellFormed, HostPending,
         Alone,
      AllFit, Lacks;
    NoRound(s, q);
    Relead(cfg, s, n, q, n, q);
    DownIs(cfg, s, n, q);
    WaiterLane(cfg, s.w, q);
    IdleRest(LaneOf(s.w, q));
    WriteDone(s);
    WaiterNotLacking(cfg, s.w, s.h, LaneOf(s.w, q));
    HostNotLacking(cfg, s.w, s.h, [], LaneOf(s.w, q));
  }

  lemma WriteDone(s: State)
    requires MayWrite(s)
    ensures OthersDone(s.w.link) && SendsDone(s.w.link, s.h.sends)
  {
    hide OthersDone;
  }

  lemma NewTag(cfg: Config, w: Waiter, h: HostState, tag: Label)
    requires DownBasics(cfg, w, h) && tag !in w.link.posted && tag !in SendTags(h.sends)
    ensures Apart(tag) !in w.segs
  {
    hide Conserved, SendsOk, AskedOk, Holds, AllItems;
  }

  /** Another transfer is added to the history of the stream. */
  lemma BasicsBegins(cfg: Config, w: Waiter, w': Waiter, h: HostState, h': HostState, tag: Label)
    requires DownBasics(cfg, w, h) && tag.Other? && tag.len > 0 && Apart(tag) !in w.segs
    requires w'.segs == w.segs + [Apart(tag)] && w'.asked == w.asked && w'.loop == w.loop
    requires Conserved(cfg.size, w'.link) && w'.link.sent == w.link.sent && SendsOk(cfg, w.link.sent, h'.sends)
    requires h' == h.(sends := h'.sends) && w.link.posted <= w'.link.posted && SendTags(h.sends) <= SendTags(h'.sends)
    requires tag in w'.link.posted || tag in SendTags(h'.sends)
    ensures DownBasics(cfg, w', h')
  {
    ProperAppend(cfg, w.segs, Apart(tag));
    AskedSame(cfg, w.asked, w.segs, tag);
    BegunMore(w.segs, w.link.posted, SendTags(h.sends), w'.link.posted, SendTags(h'.sends), tag);
    hide Conserved, SendsOk, AskedOk, Holds, AllItems, Begun, Proper;
  }

  lemma AskedSame(cfg: Config, asked: Mail, segs: seq<Seg>, tag: Label)
    requires AskedOk(cfg, asked, segs) && Proper(cfg, segs + [Apart(tag)])
    ensures AskedOk(cfg, asked, segs + [Apart(tag)])
  {
    hide Proper;
  }

  /** A step that begins another transfer to the waiting node. */
  lemma WriteStep(cfg: Config, s: State, n: nat, q: nat, w: Waiter, h: HostState)
    requires InvAt(cfg, s, n, q) && h.loop == s.h.loop && w.asked == s.w.asked && w.lanes == s.w.lanes
             && w.loop == s.w.loop
    requires Pending(s.w, q) == [] && DownOk(cfg, w, h, TailAt(s.o, n), q)
    ensures InvAt(cfg, s.(w := w, h := h), n, q)
  {
    hide InvAt, Pending, OthersDone, SendsDone, LanesOk, DownOk, TailAt;
    SamePending(s.w, w, q);
    DownIs(cfg, s, n, q);
    DownStep(cfg, s, n, q, w, h);
  }

  lemma WritePostStep(cfg: Config, s: State, n: nat, q: nat, tag: Label)
    requires WellFormed(cfg) && cfg.apart && InvAt(cfg, s, n, q) && Enabled(cfg, WritePost(tag), s)
    ensures InvAt(cfg, Apply(cfg, WritePost(tag), s), n, q)
  {
    hide InvAt, DownBasics, HostSide, WaiterSide, LanesOk, TailAt, WellFormed, HostPending, Alone, AllFit, Lacks,
      Pending, Undone, MayWrite, Conserved, SendsOk;
    BeforeWrite(cfg, s, n, q);
    DownIs(cfg, s, n, q);
    var w' := s.w.(link := Posted(s.w.link, tag), segs := s.w.segs + [Apart(tag)]);
    LinkBound(cfg, s.w, s.h);
    ConservedPosted(cfg.size, s.w.link, tag);
    NewTag(cfg, s.w, s.h, tag);
    SendsAreOk(cfg, s.w, s.h);
    BasicsBegins(cfg, s.w, w', s.h, s.h, tag);
    WaiterBegins(cfg, s.w.segs, s.w.link, LaneOf(s.w, q), tag);
    HostLacks(cfg, s.w, w', s.h, tag);
    WriteStep(cfg, s, n, q, w', s.h);
  }

  lemma SendsAreOk(cfg: Config, w: Waiter, h: HostState)
    requires DownBasics(cfg, w, h)
    ensures SendsOk(cfg, w.link.sent, h.sends)
  {
    hide Conserved, SendsOk, AskedOk, Holds, AllItems, Begun;
  }

  lemma SendsMore(cfg: Config, sent: seq<Chunk>, sends: seq<Send>, x: Send)
    requires SendsOk(cfg, sent, sends) && SendOk(cfg, x)
    ensures SendsOk(cfg, sent, sends + [x]) && SendTags(sends + [x]) == SendTags(sends) + [SendTag(x)]
  {
    hide SendOk;
    forall k | 0 <= k < |sends + [x]| ensures SendOk(cfg, (sends + [x])[k]) {
    }
  }

  lemma OutgoingOk(cfg: Config, tag: Label, data: Bytes)
    requires tag.Other? && Source(tag, data)
    ensures SendOk(cfg, Outgoing(tag, data)) && SendTag(Outgoing(tag, data)) == tag && !Outgoing(tag, data).Cached?
  {
  }

  lemma WriteSendStep(cfg: Config, s: State, n: nat, q: nat, tag: Label, data: Bytes)
    requires WellFormed(cfg) && cfg.apart && InvAt(cfg, s, n, q) && Enabled(cfg, WriteSend(tag, data), s)
    ensures InvAt(cfg, Apply(cfg, WriteSend(tag, data), s), n, q)
  {
    hide InvAt, DownBasics, HostSide, WaiterSide, LanesOk, TailAt, WellFormed, HostPending, Alone, AllFit, Lacks,
      Pending, Undone, MayWrite, Conserved, SendsOk;
    BeforeWrite(cfg, s, n, q);
    DownIs(cfg, s, n, q);
    var x := Outgoing(tag, data);
    OutgoingOk(cfg, tag, data);
    var w', h' := s.w.(segs := s.w.segs + [Apart(tag)]), s.h.(sends := s.h.sends + [x]);
    LinkBound(cfg, s.w, s.h);
    NewTag(cfg, s.w, s.h, tag);
    SendsAreOk(cfg, s.w, s.h);
    SendsMore(cfg, s.w.link.sent, s.h.sends, x);
    BasicsBegins(cfg, s.w, w', s.h, h', tag);
    WaiterLacks(cfg, s.w.segs, s.w.link, LaneOf(s.w, q), tag);
    HostBegins(cfg, s.w, w', s.h, x);
    WriteStep(cfg, s, n, q, w', h');
  }

  /** A transfer that a side has posted is in the history. */
  lemma PostedIsKnown(cfg: Config, side: Side, segs: seq<Seg>, posted: seq<Label>, part: seq<Label>, tag: Label)
    requires WellFormed(cfg) && Proper(cfg, segs) && Covers(cfg, side, segs, posted + part) && tag in posted
             && tag.Other?
    ensures Apart(tag) in segs
  {
    CoversPrefix(cfg, side, segs, posted + part);
    OtherInExpand(cfg, side, segs, tag);
    hide Expand, Covers;
    assert tag in posted + part;
  }

  /** A transfer in the history has been posted by a side that lacks none. */
  lemma KnownIsPosted(cfg: Config, side: Side, segs: seq<Seg>, posted: seq<Label>, part: seq<Label>, tag: Label)
    requires Covers(cfg, side, segs, posted + part) && !Lacks(cfg, side, segs, posted + part) && AllItems(part)
    requires tag.Other? && Apart(tag) in segs
    ensures tag in posted
  {
    OtherInExpand(cfg, side, segs, tag);
    hide Expand;
    OtherPosted(posted, part, tag);
  }

  /** A transfer whose other side is not posted is under way, so that no round is. */
  lemma WriteUnderWay(cfg: Config, s: State, n: nat, q: nat, tag: Label)
    requires WellFormed(cfg) && InvAt(cfg, s, n, q) && tag.Other?
    requires (tag in s.w.link.posted) != (tag in SendTags(s.h.sends))
    ensures Pending(s.w, q) == [] && Apart(tag) in s.w.segs && !AtStage(LaneOf(s.w, q), Waiting)
    ensures TailAt(s.o, n) == [] && HostPending(cfg, s.w, s.h, []) == []
  {
    hide InvAt, LanesOk, TailAt, OthersDone, SendsDone, WellFormed, HostPending, Alone, AllFit, Lacks, AtStage,
         Conserved,
      SendsOk, Begun, Holds, Proper, LaneOk, TailOk, PostingOk, Covers, Rest, Undone;
    DownIs(cfg, s, n, q);
    var lane, tail := LaneOf(s.w, q), TailAt(s.o, n);
    ItemsToDo(cfg, s.w, s.h, tail, lane);
    if tag in s.w.link.posted {
      PostedIsKnown(cfg, AtWaiter, s.w.segs, s.w.link.posted, Rest(lane) + s.w.loop, tag);
    } else {
      PostedIsKnown(cfg, AtHost, s.w.segs, SendTags(s.h.sends), HostPending(cfg, s.w, s.h, tail), tag);
    }
    if Pending(s.w, q) != [] {
      StillAlone(s.o, s.w, s.h.sends, n, q);
      WaiterNotLacking(cfg, s.w, s.h, lane);
      HostNotLacking(cfg, s.w, s.h, tail, lane);
      KnownIsPosted(cfg, AtWaiter, s.w.segs, s.w.link.posted, Rest(lane) + s.w.loop, tag);
      KnownIsPosted(cfg, AtHost, s.w.segs, SendTags(s.h.sends), HostPending(cfg, s.w, s.h, tail), tag);
    }
    Relead(cfg, s, n, q, n, q);
    WaiterLane(cfg, s.w, q);
    IdleRest(lane);
  }

  lemma StillAlone(o: map<nat, Owner>, w: Waiter, sends: seq<Send>, n: nat, q: nat)
    requires Alone(o, w, sends, n, q) && Pending(w, q) != []
    ensures OthersDone(w.link) && SendsDone(w.link, sends)
  {
  }

  lemma ItemsToDo(cfg: Config, w: Waiter, h: HostState, tail: seq<Label>, lane: Lane)
    requires DownBasics(cfg, w, h) && HostSide(cfg, w, h, tail) && LaneOk(lane)
    ensures AllItems(HostPending(cfg, w, h, tail)) && AllItems(Rest(lane) + w.loop)
  {
    PendingItems(cfg, w, h, tail);
    RestItems(lane);
    hide HostPending, SideOk, Rest, Conserved, SendsOk, Begun, Holds, AskedOk;
  }

  lemma WriteSendAfterStep(cfg: Config, s: State, n: nat, q: nat, tag: Label, data: Bytes)
    requires WellFormed(cfg) && InvAt(cfg, s, n, q) && Enabled(cfg, WriteSendAfter(tag, data), s)
    ensures InvAt(cfg, Apply(cfg, WriteSendAfter(tag, data), s), n, q)
  {
    hide InvAt, DownBasics, HostSide, WaiterSide, LanesOk, TailAt, WellFormed, HostPending, Alone, AllFit, Pending,
         Undone;
    WriteUnderWay(cfg, s, n, q, tag);
    DownIs(cfg, s, n, q);
    var x := Outgoing(tag, data);
    OutgoingOk(cfg, tag, data);
    var h' := s.h.(sends := s.h.sends + [x]);
    OptItems(cfg, s.w, s.h);
    BasicsSends(cfg, s.w, s.h, h', [x]);
    HostCatchesUp(cfg, s.w, s.h, [], x);
    WriteStep(cfg, s, n, q, s.w, h');
  }

  lemma WritePostAfterStep(cfg: Config, s: State, n: nat, q: nat, tag: Label)
    requires WellFormed(cfg) && InvAt(cfg, s, n, q) && Enabled(cfg, WritePostAfter(tag), s)
    ensures InvAt(cfg, Apply(cfg, WritePostAfter(tag), s), n, q)
  {
    hide InvAt, DownBasics, HostSide, WaiterSide, LanesOk, TailAt, WellFormed, HostPending, Alone, AllFit, Pending,
         Undone;
    WriteUnderWay(cfg, s, n, q, tag);
    DownIs(cfg, s, n, q);
    var w' := s.w.(link := Posted(s.w.link, tag));
    LinkBound(cfg, s.w, s.h);
    LoopRest(cfg, s.w, s.h);
    BasicsWaiterPosts(cfg, s.w, w', s.h, tag);
    WaiterCatchesUp(cfg, s.w.segs, s.w.link, LaneOf(s.w, q), s.w.loop, tag);
    HostUnaffected(cfg, s.w, w', s.h, TailAt(s.o, n));
    WriteStep(cfg, s, n, q, w', s.h);
  }

  // ---- all steps ----

  lemma OwnerStepInv(cfg: Config, a: Action, s: State, n: nat, q: nat)
    requires WellFormed(cfg) && cfg.apart && InvAt(cfg, s, n, q) && Enabled(cfg, a, s)
    requires a.EventCompletes? || a.ReplicaCompletes? || a.OwnerWrites? || a.WaiterWrites? || a.Allocates?
      || a.HostStores? || a.OSync? || a.OEnqueue? || a.OMap? || a.OSend? || a.OUnmap? || a.ReadSend?
      || a.ReadPostAfter? || a.ReadPost? || a.ReadSendAfter?
    ensures InvAt(cfg, Apply(cfg, a, s), n, q)
  {
    hide InvAt, WellFormed, MayRead, Payload, Unused;
    match a
    case EventCompletes(_) | WaiterWrites(_, _) => SameParts(cfg, s, Apply(cfg, a, s), n, q);
    case ReplicaCompletes(_) => SameParts(cfg, s, Apply(cfg, a, s), n, q);
    case OwnerWrites(m, x, data) => WritesStep(cfg, s, n, q, m, x, data);
    case Allocates(x, data) => AllocatesStep(cfg, s, n, q, x, data);
    case HostStores(x, data) => AllocatesStep(cfg, s, n, q, x, data);
    case OSync(m) => OSyncStep(cfg, s, n, q, m);
    case OEnqueue(m) => OEnqueueStep(cfg, s, n, q, m);
    case OMap(m) => OMapStep(cfg, s, n, q, m);
    case OSend(m) => OSendStep(cfg, s, n, q, m);
    case OUnmap(m) => OUnmapStep(cfg, s, n, q, m);
    case ReadSend(m, tag, data) => ReadSendStep(cfg, s, n, q, m, tag, data);
    case ReadPostAfter(m, tag) => ReadPostAfterStep(cfg, s, n, q, m, tag);
    case ReadPost(m, tag) => ReadPostStep(cfg, s, n, q, m, tag);
    case ReadSendAfter(m, tag, data) => ReadSendAfterStep(cfg, s, n, q, m, tag, data);
  }

  lemma OtherStepInv(cfg: Config, a: Action, s: State, n: nat, q: nat)
    requires WellFormed(cfg) && cfg.apart && InvAt(cfg, s, n, q) && Enabled(cfg, a, s)
    requires a.WEnqueue? || a.WMap? || a.WPost? || a.WReceive? || a.WUnmap? || a.HSync? || a.HPost? || a.HSetCallback?
      || a.HReceive? || a.HTrigger? || a.HTransmit? || a.WritePost? || a.WriteSendAfter? || a.WriteSend?
         || a.WritePostAfter?
    ensures InvAt(cfg, Apply(cfg, a, s), n, q)
  {
    hide InvAt, WellFormed, Enabled, Apply;
    match a
    case WEnqueue => WEnqueueStep(cfg, s, n, q);
    case WMap(p) => WMapStep(cfg, s, n, q, p);
    case WPost(p) => WPostStep(cfg, s, n, q, p);
    case WReceive => WReceiveStep(cfg, s, n, q);
    case WUnmap(p) => WUnmapStep(cfg, s, n, q, p);
    case HSync => HSyncStep(cfg, s, n, q);
    case HPost => HPostStep(cfg, s, n, q);
    case HSetCallback => HSetCallbackStep(cfg, s, n, q);
    case HReceive(m) => HReceiveStep(cfg, s, n, q, m);
    case HTrigger => HTriggerStep(cfg, s, n, q);
    case HTransmit => HTransmitStep(cfg, s, n, q);
    case WritePost(tag) => WritePostStep(cfg, s, n, q, tag);
    case WriteSendAfter(tag, data) => WriteSendAfterStep(cfg, s, n, q, tag, data);
    case WriteSend(tag, data) => WriteSendStep(cfg, s, n, q, tag, data);
    case WritePostAfter(tag) => WritePostAfterStep(cfg, s, n, q, tag);
  }

  /** Every step keeps the invariant; a request may change the owner and the queue at work. */
  lemma StepInv(cfg: Config, a: Action, s: State, n: nat, q: nat) returns (n': nat, q': nat)
    requires WellFormed(cfg) && cfg.apart && InvAt(cfg, s, n, q) && Enabled(cfg, a, s)
    ensures InvAt(cfg, Apply(cfg, a, s), n', q')
    ensures n' == (if a.WSync? then GetRound(cfg, a.r).owner else n)
    ensures q' == (if a.WSync? then GetRound(cfg, a.r).queue else q)
  {
    hide InvAt, WellFormed, Enabled, Apply;
    n', q' := n, q;
    match a
    case WSync(r) => WSyncStep(cfg, s, n, q, r); n', q' := GetRound(cfg, r).owner, GetRound(cfg, r).queue;
    case EventCompletes(_) | ReplicaCompletes(_) | OwnerWrites(_, _, _) | WaiterWrites(_, _) | Allocates(_, _)
      | HostStores(_, _) | OSync(_) | OEnqueue(_) | OMap(_) | OSend(_)
      | OUnmap(_) | ReadSend(_, _, _) | ReadPostAfter(_, _) | ReadPost(_, _) | ReadSendAfter(_, _, _) =>
      OwnerStepInv(cfg, a, s, n, q);
    case _ => OtherStepInv(cfg, a, s, n, q);
  }

  // ---- the initial state ----

  lemma EmptyLists(cfg: Config, side: Side)
    ensures Expand(cfg, side, []) == [] && Requested(cfg, side, []) == []
  {
  }

  lemma InitUp(cfg: Config, n: nat, mem: map<Obj, Bytes>)
    requires Holds(cfg, mem)
    ensures UpOk(cfg, n, NewOwner(mem), [])
  {
    ConservedEmpty(cfg.size);
    EmptyLists(cfg, AtOwner);
    EmptyLists(cfg, AtHost);
  }

  lemma InitDown(cfg: Config, wm: map<Obj, Bytes>, n: nat, q: nat)
    ensures DownOk(cfg, Init(map[], wm).w, Init(map[], wm).h, [], q)
  {
    ConservedEmpty(cfg.size);
    EmptyLists(cfg, AtWaiter);
    EmptyLists(cfg, AtHost);
  }

  lemma InitInv(cfg: Config, mems: map<nat, map<Obj, Bytes>>, wm: map<Obj, Bytes>, n: nat, q: nat)
    requires Memory(cfg, mems)
    ensures InvAt(cfg, Init(mems, wm), n, q)
  {
    hide UpOk, DownOk, Uses, Holds;
    var s := Init(mems, wm);
    forall m | m in s.o ensures UpOk(cfg, m, s.o[m], []) && AllOthers(Tail(s.o[m].link)) {
      InitUp(cfg, m, mems[m]);
    }
    InitDown(cfg, wm, n, q);
    forall r | 0 <= r < |cfg.rounds| ensures Provided(cfg.rounds[r], s.o) {
      ProvidedAtFirst(cfg, mems, wm, r);
    }
  }

  lemma ProvidedAtFirst(cfg: Config, mems: map<nat, map<Obj, Bytes>>, wm: map<Obj, Bytes>, r: nat)
    requires Memory(cfg, mems) && r < |cfg.rounds|
    ensures Provided(cfg.rounds[r], Init(mems, wm).o)
  {
    hide Holds;
    var q := cfg.rounds[r];
    assert forall x :: x in q.own ==> x in mems[q.owner];
  }
}
