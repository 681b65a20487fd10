/**
 The host's copies, shared by the rounds of all waiting nodes: exactly when everything that is forwarded is what
 was received for it, over all runs of several waiting nodes.
 */
module SyncCopies {
  import opened Seqs
  import opened Links
  import opened SyncProtocol
  import opened SyncContents
  import opened SyncPhases
  import opened SyncLandings
  import opened SyncNodes

  /** An object that the host lists for its round. */
  predicate Listed(cfg: Config, l: Label) {
    l.Item? && l.obj in List(cfg, AtHost, l.round)
  }

  predicate KnownMap(cfg: Config, n: nat, l: Label) {
    IsMap(l) ==> (n, l.place.obj) in cfg.maps
  }

  /** What an owner's stream is used for. */
  ghost predicate StreamKnown(cfg: Config, n: nat, link: Link) {
    && (forall l :: l in link.posted ==> KnownMap(cfg, n, l) && (l.Item? ==> Listed(cfg, l)))
    && forall l :: l in Labels(link.sent) ==> KnownMap(cfg, n, l)
  }

  predicate ChainsAreItems(o: Owner) {
    (forall l :: l in o.loop ==> l.Item?) && forall l :: l in o.lane.log ==> l.Item?
  }

  ghost predicate OwnerKnown(cfg: Config, n: nat, o: Owner) {
    StreamKnown(cfg, n, o.link) && ChainsAreItems(o)
  }

  ghost predicate OwnersKnown(cfg: Config, o: map<nat, Owner>) {
    forall n :: n in o ==> OwnerKnown(cfg, n, o[n])
  }

  /** Whatever has been received is still there. */
  ghost predicate CopiesKept(cfg: Config, h: HostState) {
    && (forall l :: l in h.loop ==> Listed(cfg, l))
    && (h.posting.Some? ==> Listed(cfg, h.posting.value) && (h.postingLanded ==> h.posting.value in h.landed))
    && (h.trigger.Some? ==> h.trigger.value in h.landed)
    && forall l :: l in h.landed ==> Listed(cfg, l) && Own(h, l)
  }

  /** Only what was received is forwarded. */
  ghost predicate SendsLanded(h: HostState, sends: seq<Send>) {
    forall i :: 0 <= i < |sends| && sends[i].Cached? ==> sends[i].tag in h.landed
  }

  // ---- owners ----

  lemma PostedKnown(cfg: Config, n: nat, link: Link, l: Label)
    requires StreamKnown(cfg, n, link) && KnownMap(cfg, n, l) && (l.Item? ==> Listed(cfg, l))
    ensures StreamKnown(cfg, n, Posted(link, l))
  {
    hide Listed, KnownMap;
  }

  lemma SentKnown(cfg: Config, n: nat, link: Link, c: Chunk)
    requires StreamKnown(cfg, n, link) && KnownMap(cfg, n, c.tag)
    ensures StreamKnown(cfg, n, Sent(link, c))
  {
    hide Listed, KnownMap;
    assert Labels(link.sent + [c]) == Labels(link.sent) + [c.tag];
  }

  lemma ReceivedKnown(cfg: Config, n: nat, link: Link)
    requires StreamKnown(cfg, n, link) && CanReceive(cfg.size, link)
    ensures StreamKnown(cfg, n, Received(cfg.size, link))
  {
    hide Listed, KnownMap;
  }

  lemma ChainsStay(cfg: Config, a: Action, s: State, n: nat)
    requires n in s.o && ChainsAreItems(s.o[n]) && Enabled(cfg, a, s) && n in Apply(cfg, a, s).o
    ensures ChainsAreItems(Apply(cfg, a, s).o[n])
  {
    if FarFromOwners(a) {
      hide ChainsAreItems, Enabled, Apply;
      SameOwners(cfg, a, s);
    } else {
      hide MayRead, Payload, PartOf, Landed, Received, Items;
      if a.OSync? {
        ItemsOfRound(cfg, s.o[a.n].orders.log[s.o[a.n].orders.seen]);
      }
    }
  }

  predicate IsRead(a: Action) {
    a.ReadSend? || a.ReadPost? || a.ReadSendAfter? || a.ReadPostAfter?
  }

  lemma ReadStaysKnown(cfg: Config, a: Action, s: State)
    requires Enabled(cfg, a, s) && IsRead(a) && StreamKnown(cfg, a.n, s.o[a.n].link)
    ensures StreamKnown(cfg, a.n, Apply(cfg, a, s).o[a.n].link)
  {
    hide MayRead, Payload, Landed, Received, Listed, StreamKnown, Own, Items, GetRound;
    var link := s.o[a.n].link;
    match a
    case ReadSend(n, tag, data) => SentKnown(cfg, n, link, Chunk(tag, data));
    case ReadSendAfter(n, tag, data) =>
      PostedIsKnownMap(cfg, n, link, tag);
      SentKnown(cfg, n, link, Chunk(tag, data));
    case ReadPost(n, tag) => PostedKnown(cfg, n, link, tag);
    case ReadPostAfter(n, tag) =>
      SentIsKnownMap(cfg, n, link, tag);
      PostedKnown(cfg, n, link, tag);
  }

  lemma SameStreams(cfg: Config, a: Action, s: State, n: nat)
    requires Enabled(cfg, a, s) && IsRead(a) && n in Apply(cfg, a, s).o && n != a.n
    ensures n in s.o && Apply(cfg, a, s).o[n] == s.o[n]
  {
    hide MayRead, Payload, PartOf, Landed, Received, Items, GetRound;
  }

  lemma StreamStaysKnown(cfg: Config, a: Action, s: State, n: nat)
    requires OwnersKnown(cfg, s.o) && CopiesKept(cfg, s.h) && Enabled(cfg, a, s) && n in Apply(cfg, a, s).o
    ensures n in s.o && StreamKnown(cfg, n, Apply(cfg, a, s).o[n].link)
  {
    if FarFromOwners(a) {
      hide StreamKnown, Enabled, Apply;
      SameOwners(cfg, a, s);
    } else if IsRead(a) {
      hide StreamKnown, Apply, PartOf, Payload, MayRead;
      ReadStaysKnown(cfg, a, s);
      if n != a.n {
        SameStreams(cfg, a, s, n);
      }
    } else if a.OSend? || a.HPost? || a.HReceive? {
      hide Enabled, Apply;
      SyncStaysKnown(cfg, a, s, n);
    } else {
      hide StreamKnown;
      SameLinks(cfg, a, s, n);
    }
  }

  lemma SameLinks(cfg: Config, a: Action, s: State, n: nat)
    requires Enabled(cfg, a, s) && n in Apply(cfg, a, s).o
    requires !FarFromOwners(a) && !IsRead(a) && !a.OSend? && !a.HPost? && !a.HReceive?
    ensures n in s.o && Apply(cfg, a, s).o[n].link == s.o[n].link
  {
    hide Items;
  }

  lemma SyncStaysKnown(cfg: Config, a: Action, s: State, n: nat)
    requires OwnersKnown(cfg, s.o) && CopiesKept(cfg, s.h) && Enabled(cfg, a, s) && n in Apply(cfg, a, s).o
    requires a.OSend? || a.HPost? || a.HReceive?
    ensures n in s.o && StreamKnown(cfg, n, Apply(cfg, a, s).o[n].link)
  {
    hide Landed, Received, Listed, StreamKnown, Own, CanReceive;
    match a
    case OSend(m) =>
      assert Head(s.o[m].lane) in s.o[m].lane.log;
      SentKnown(cfg, m, s.o[m].link, Chunk(Head(s.o[m].lane), s.o[m].lane.buffer));
    case HPost =>
      var m := GetRound(cfg, RoundOf(s.h.loop[0])).owner;
      assert Listed(cfg, s.h.loop[0]);
      ListedIsNoMap(cfg, m, s.h.loop[0]);
      PostedKnown(cfg, m, s.o[m].link, s.h.loop[0]);
    case HReceive(m) => ReceivedKnown(cfg, m, s.o[m].link);
  }

  lemma ListedIsNoMap(cfg: Config, n: nat, l: Label)
    requires Listed(cfg, l)
    ensures KnownMap(cfg, n, l)
  {
  }

  lemma PostedIsKnownMap(cfg: Config, n: nat, link: Link, l: Label)
    requires StreamKnown(cfg, n, link) && l in link.posted
    ensures KnownMap(cfg, n, l) && (l.Item? ==> Listed(cfg, l))
  {
  }

  lemma SentIsKnownMap(cfg: Config, n: nat, link: Link, l: Label)
    requires StreamKnown(cfg, n, link) && l in Labels(link.sent)
    ensures KnownMap(cfg, n, l)
  {
  }

  lemma OwnersStayKnown(cfg: Config, a: Action, s: State)
    requires OwnersKnown(cfg, s.o) && CopiesKept(cfg, s.h) && Enabled(cfg, a, s)
    ensures OwnersKnown(cfg, Apply(cfg, a, s).o)
  {
    hide Enabled, Apply, StreamKnown, ChainsAreItems, CopiesKept;
    forall n | n in Apply(cfg, a, s).o ensures OwnerKnown(cfg, n, Apply(cfg, a, s).o[n]) {
      StreamStaysKnown(cfg, a, s, n);
      ChainsStay(cfg, a, s, n);
    }
  }

  // ---- the host ----

  /** Separate rounds are on separate objects. */
  lemma OneLabel(cfg: Config, l: Label, m: Label)
    requires Separate(cfg) && Listed(cfg, l) && Listed(cfg, m) && l.obj == m.obj
    ensures l == m
  {
    var x := l.obj;
    assert x in Set(List(cfg, AtHost, l.round)) && x in Set(List(cfg, AtHost, m.round));
  }

  lemma Spared(cfg: Config, l: Label, x: Obj)
    requires Separate(cfg) && Listed(cfg, l) && !OnlySynchronized(cfg, x)
    ensures l.obj != x
  {
  }

  /** A receipt keeps what was received for other rounds. */
  lemma LandedKept(cfg: Config, h: HostState, n: nat, c: Chunk)
    requires Separate(cfg) && CopiesKept(cfg, h) && KnownMap(cfg, n, c.tag) && (c.tag.Item? ==> Listed(cfg, c.tag))
    ensures CopiesKept(cfg, Landed(h, c)) && h.landed.Keys <= Landed(h, c).landed.Keys
  {
    hide Separate, Listed, Patched;
    forall l | l in h.landed && (c.tag.Item? || IsMap(c.tag))
      ensures c.tag.Item? && l.obj == c.tag.obj ==> l == c.tag
      ensures IsMap(c.tag) ==> l.obj != c.tag.place.obj
    {
      if IsMap(c.tag) {
        assert !OnlySynchronized(cfg, c.tag.place.obj);
        Spared(cfg, l, c.tag.place.obj);
      } else if l.obj == c.tag.obj {
        OneLabel(cfg, l, c.tag);
      }
    }
  }

  lemma ReceiptKeeps(cfg: Config, s: State, n: nat)
    requires Separate(cfg) && OwnersKnown(cfg, s.o) && CopiesKept(cfg, s.h) && Enabled(cfg, HReceive(n), s)
    ensures var t := Apply(cfg, HReceive(n), s); CopiesKept(cfg, t.h) && s.h.landed.Keys <= t.h.landed.Keys
  {
    var link := s.o[n].link;
    hide Separate, CopiesKept, StreamKnown, Landed, Received;
    assert OwnerKnown(cfg, n, s.o[n]);
    PostedIsKnownMap(cfg, n, link, Next(cfg.size, link).tag);
    LandedKept(cfg, s.h, n, Next(cfg.size, link));
  }

  lemma StoreKeeps(cfg: Config, h: HostState, x: Obj, data: Bytes)
    requires CopiesKept(cfg, h) && (x !in h.cache || (Separate(cfg) && x in cfg.stored))
    ensures CopiesKept(cfg, h.(cache := h.cache[x := data]))
  {
    hide Separate, Listed;
    forall l | l in h.landed ensures l.obj != x {
      if x in h.cache {
        Spared(cfg, l, x);
      }
    }
  }

  lemma CopiesStay(cfg: Config, a: Action, s: State)
    requires Separate(cfg) && OwnersKnown(cfg, s.o) && CopiesKept(cfg, s.h) && Enabled(cfg, a, s)
    ensures CopiesKept(cfg, Apply(cfg, a, s).h) && s.h.landed.Keys <= Apply(cfg, a, s).h.landed.Keys
  {
    hide Separate;
    if FarFromHost(a) {
      hide Enabled, Apply, Listed;
      SameHost(cfg, a, s);
    } else if a.HReceive? {
      hide Enabled, Apply, OwnersKnown, CopiesKept;
      ReceiptKeeps(cfg, s, a.n);
    } else if a.HostStores? || a.Allocates? {
      hide CopiesKept, OwnersKnown;
      StoreKeeps(cfg, s.h, a.x, a.data);
    } else {
      hide OwnersKnown, CopiesKept, Enabled, Apply;
      ServeKeeps(cfg, a, s);
    }
  }

  /** Steps of the thread that serves requests, and of the callbacks. */
  lemma ServeKeeps(cfg: Config, a: Action, s: State)
    requires CopiesKept(cfg, s.h) && Enabled(cfg, a, s) && (a.HSync? || a.HPost? || a.HSetCallback? || a.HTrigger?)
    ensures CopiesKept(cfg, Apply(cfg, a, s).h) && s.h.landed == Apply(cfg, a, s).h.landed
  {
    if a.HSync? {
      AllListed(cfg, s.w.asked.log[s.w.asked.seen]);
    }
    hide Own, Listed, Items, GetRound;
  }

  lemma AllListed(cfg: Config, r: nat)
    ensures forall l :: l in Items(cfg, AtHost, r) ==> Listed(cfg, l)
  {
  }

  lemma SendsStay(cfg: Config, a: Action, s: State)
    requires CopiesKept(cfg, s.h) && SendsLanded(s.h, s.h.sends) && Enabled(cfg, a, s)
    requires s.h.landed.Keys <= Apply(cfg, a, s).h.landed.Keys
    ensures SendsLanded(Apply(cfg, a, s).h, Apply(cfg, a, s).h.sends)
  {
    hide CopiesKept, Enabled, Apply;
    if a.HSetCallback? || a.HTrigger? {
      CallbackSends(cfg, a, s);
    } else {
      NoneCached(cfg, a, s);
    }
  }

  lemma CallbackSends(cfg: Config, a: Action, s: State)
    requires CopiesKept(cfg, s.h) && Enabled(cfg, a, s) && (a.HSetCallback? || a.HTrigger?)
    ensures var sends, sends' := s.h.sends, Apply(cfg, a, s).h.sends;
            && |sends| <= |sends'| && sends'[..|sends|] == sends
            && forall i :: |sends| <= i < |sends'| && sends'[i].Cached? ==> sends'[i].tag in s.h.landed
  {
    hide Listed, Own;
  }

  /** Only callbacks post sends of the host's copies. */
  lemma NoneCached(cfg: Config, a: Action, s: State)
    requires Enabled(cfg, a, s) && !a.HSetCallback? && !a.HTrigger?
    ensures var sends, sends' := s.h.sends, Apply(cfg, a, s).h.sends;
            && |sends| <= |sends'| && sends'[..|sends|] == sends
            && forall i :: |sends| <= i < |sends'| ==> !sends'[i].Cached?
  {
    if OfWaiter(a) || a.WSync? {
      hide Enabled, Apply;
      WaiterOnly(cfg, a, s);
    } else {
      hide Received, Transmitted, Items, GetRound, MayRead, MayStart, Payload, PartOf, Patched, Head, LaneOf, PutLane,
        WaiterReceived, Enqueued, Unmapped, Posted, Sent;
    }
  }

  // ---- over all runs ----

  ghost predicate AllKept(net: Net, s: World) {
    && s.h.sends == [] && OwnersKnown(net.cfg, s.o) && CopiesKept(net.cfg, s.h)
    && forall k :: k in s.sends ==> SendsLanded(s.h, s.sends[k])
  }

  lemma StepKeeps(net: Net, k: nat, a: Action, s: World)
    requires Separate(net.cfg) && AllKept(net, s) && CanStep(net, k, a, s)
    ensures AllKept(net, Step(net, k, a, s))
  {
    var u := View(s, k);
    hide Separate, Enabled, Apply, OwnersKnown, CopiesKept, SendsLanded, Listed, Own;
    SameCopies(net.cfg, s.h, s.sends[k]);
    LandedMore(s.h, u.h, s.sends[k]);
    OwnersStayKnown(net.cfg, a, u);
    CopiesStay(net.cfg, a, u);
    SendsStay(net.cfg, a, u);
    SameCopies(net.cfg, Apply(net.cfg, a, u).h, []);
    OthersLanded(s, k, Apply(net.cfg, a, u));
  }

  lemma OthersLanded(s: World, k: nat, t: State)
    requires (forall j :: j in s.sends ==> SendsLanded(s.h, s.sends[j])) && SendsLanded(t.h, t.h.sends)
    requires s.h.landed.Keys <= t.h.landed.Keys
    ensures forall j :: j in With(s, k, t).sends ==> SendsLanded(With(s, k, t).h, With(s, k, t).sends[j])
  {
    hide SendsLanded;
    forall j | j in s.sends && j != k ensures SendsLanded(t.h.(sends := []), s.sends[j]) {
      LandedMore(s.h, t.h.(sends := []), s.sends[j]);
    }
    LandedMore(t.h, t.h.(sends := []), t.h.sends);
  }

  lemma SameCopies(cfg: Config, h: HostState, sends: seq<Send>)
    ensures CopiesKept(cfg, h) <==> CopiesKept(cfg, h.(sends := sends))
  {
    hide Listed;
  }

  lemma LandedMore(h: HostState, h': HostState, sends: seq<Send>)
    requires SendsLanded(h, sends) && h.landed.Keys <= h'.landed.Keys
    ensures SendsLanded(h', sends)
  {
  }

  lemma {:induction false} RunKeeps(net: Net, mems: map<nat, map<Obj, Bytes>>, waiters: map<nat, map<Obj, Bytes>>,
          run: seq<(nat, Action)>)
    requires Separate(net.cfg) && Run(net, Start(net, mems, waiters), run).Some?
    ensures AllKept(net, Run(net, Start(net, mems, waiters), run).value)
    decreases |run|
  {
    hide Separate, CanStep, Step;
    if run == [] {
    } else {
      hide AllKept, Start;
      RunKeeps(net, mems, waiters, run[..|run| - 1]);
      StepKeeps(net, run[|run| - 1].0, run[|run| - 1].1, Run(net, Start(net, mems, waiters), run[..|run| - 1]).value);
    }
  }

  /** For any number of waiting nodes and of owners, started at any time: everything that is forwarded is what
      was received for it, in every run, if and only if no two rounds share an object of the host, whoever
      waits for them, and no object of a round is mapped or stored to. */
  lemma CopiesAreExact(net: Net)
    requires Well(net)
    ensures AlwaysForwardsOwn(net) <==> Separate(net.cfg)
  {
    hide Comes, ForwardsOwn, Well;
    if Separate(net.cfg) {
      forall run, s | Comes(net, run, s) ensures ForwardsOwn(s) {
        SeparateForwards(net, run, s);
      }
    } else {
      var run, s := NotSeparate(net);
    }
  }

  lemma SeparateForwards(net: Net, run: seq<(nat, Action)>, s: World)
    requires Separate(net.cfg) && Comes(net, run, s)
    ensures ForwardsOwn(s)
  {
    hide Separate, Run, Start, Memory;
    var mems, waiters :| Memory(net.cfg, mems) && Run(net, Start(net, mems, waiters), run) == Some(s);
    RunKeeps(net, mems, waiters, run);
  }

  lemma NotSeparate(net: Net) returns (run: seq<(nat, Action)>, s: World)
    requires Well(net) && !Separate(net.cfg)
    ensures Comes(net, run, s) && !ForwardsOwn(s)
  {
    hide Comes, ForwardsOwn, OnlySynchronized;
    var cfg := net.cfg;
    if a, b :| 0 <= a < |cfg.rounds| && 0 <= b < |cfg.rounds| && a != b
               && !(Set(List(cfg, AtHost, a)) !! Set(List(cfg, AtHost, b))) {
      run, s := CommonIsLost(net, a, b);
    } else {
      var r, x :| 0 <= r < |cfg.rounds| && x in List(cfg, AtHost, r) && !OnlySynchronized(cfg, x);
      run, s := TouchedIsLost(net, r, x);
    }
  }
}
