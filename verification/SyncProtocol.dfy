/**
 Synchronization of memory objects between compute nodes, mediated by the host.

 A node that needs the results of another node's event sends one message to the host and enqueues an acquire
 chain (map, receive, unmap) for each memory object. The host forwards the message to the node that owns the
 event, posts one receive for each object and sends every received object on to the waiting node. The owner
 enqueues a release chain (map, send, unmap) for each object.

 There is one waiting node with any number of in-order command queues, and any number of owners. All
 processes take their steps in any order. The same data streams carry the transfers of other commands: reads
 and maps from any node, writes and unmaps to the waiting node, and the contents of buffers created there. A
 mapped region is part of the host's own copy of the buffer, the same memory that synchronization goes through.
 */
module SyncProtocol {
  import opened Seqs
  import opened Links

  /** One synchronized event: its owner, the queue of the waiting node that synchronizes with it, and its
      memory objects as each of the three processes lists them. */
  datatype Round = Round(owner: nat, queue: nat, own: seq<Obj>, host: seq<Obj>, wait: seq<Obj>)

  /** What the application does besides. `readFrom`, `maps`: the buffers that it reads and maps for reading, each
      with the node. `writes`, `unmaps`: the buffers that it writes or creates on the waiting node, and that it
      unmaps there after writing. `stored`: the buffers whose host memory it writes itself, mapped for writing
      or given as the host pointer. `apart`: whether all this keeps apart as `MayStart`, `MayRead`, `MayWrite`
      and `Unused` say. */
  datatype Config = Config(
    rounds: seq<Round>, size: Obj -> nat, readFrom: set<(nat, Obj)>, maps: set<(nat, Obj)>,
    writes: set<Obj>, unmaps: set<Obj>, stored: set<Obj>, apart: bool)

  datatype Side = AtOwner | AtHost | AtWaiter

  function GetRound(cfg: Config, r: nat): Round {
    if r < |cfg.rounds| then cfg.rounds[r] else Round(0, 0, [], [], [])
  }

  function List(cfg: Config, side: Side, r: nat): seq<Obj> {
    match side
    case AtOwner => GetRound(cfg, r).own
    case AtHost => GetRound(cfg, r).host
    case AtWaiter => GetRound(cfg, r).wait
  }

  function Tagged(r: nat, objs: seq<Obj>): (items: seq<Label>)
    ensures |items| == |objs| && forall i :: 0 <= i < |items| ==> items[i] == Item(r, objs[i])
  {
    seq(|objs|, i requires 0 <= i < |objs| => Item(r, objs[i]))
  }

  function Items(cfg: Config, side: Side, r: nat): seq<Label> {
    Tagged(r, List(cfg, side, r))
  }

  // ---- state ----

  /** Stage of the chain at the head of an in-order queue: nothing done; mapped; receive posted; transfer
      done, that is, the user event that the unmap waits for is set. */
  datatype Stage = Idle | Mapped | Waiting | Moved

  /** An in-order queue: all chains ever enqueued, of which the first `pos` are complete. */
  datatype Lane = Lane(log: seq<Label>, pos: nat, stage: Stage, buffer: Bytes)

  /** Messages: all ever sent, of which the first `seen` have been taken. */
  datatype Mail = Mail(log: seq<nat>, seen: nat)

  /** History of what a stream was used for. */
  datatype Seg = Sync(round: nat) | Apart(tag: Label)

  /** `loop`: objects that `onSynchronize` still has to visit. `link`: the stream to the host. */
  datatype Owner = Owner(mem: map<Obj, Bytes>, orders: Mail, loop: seq<Label>, lane: Lane, link: Link, segs: seq<Seg>)

  /** A send posted by the host: its copy of an object for a round, a region of such a copy for an unmap, or
      memory of the application. */
  datatype Send = Cached(tag: Label) | Region(tag: Label) | Given(chunk: Chunk)

  /** `posting`: the receive that is posted but whose callback is not registered yet, and whether it is
      complete already; `trigger`: a complete receive whose callback is about to run; `sends`: all sends to
      the waiting node ever posted; `cache`: the host's copy of each object; `landed` is a history. */
  datatype HostState = HostState(
    loop: seq<Label>, posting: Option<Label>, postingLanded: bool, trigger: Option<Label>,
    sends: seq<Send>, cache: map<Obj, Bytes>, landed: map<Label, Bytes>)

  /** `asked`: the rounds requested; `link`: the stream from the host. `installed` is a history, and so is
      `kept`: the objects that nothing has written since they were acquired. */
  datatype Waiter = Waiter(
    mem: map<Obj, Bytes>, asked: Mail, loop: seq<Label>, lanes: map<nat, Lane>, link: Link, segs: seq<Seg>,
    installed: seq<Chunk>, kept: set<Obj>)

  /** `events`, `replicas`: rounds whose event is complete on its owner and on the waiting node. `released`:
      history of what the release maps read. */
  datatype State = State(
    o: map<nat, Owner>, h: HostState, w: Waiter, events: set<nat>, replicas: set<nat>, released: map<Label, Bytes>)

  const NEW_LANE := Lane([], 0, Idle, [])

  function NewOwner(mem: map<Obj, Bytes>): Owner {
    Owner(mem, Mail([], 0), [], NEW_LANE, EMPTY, [])
  }

  function Init(mems: map<nat, map<Obj, Bytes>>, waiterMem: map<Obj, Bytes>): State {
    State(map n | n in mems :: NewOwner(mems[n]),
          HostState([], None, false, None, [], map[], map[]),
          Waiter(waiterMem, Mail([], 0), [], map[], EMPTY, [], [], {}),
          {}, {}, map[])
  }

  function At(s: State, n: nat): Owner {
    if n in s.o then s.o[n] else NewOwner(map[])
  }

  function LaneOf(w: Waiter, q: nat): Lane {
    if q in w.lanes then w.lanes[q] else NEW_LANE
  }

  function SendTag(x: Send): Label {
    if x.Given? then x.chunk.tag else x.tag
  }

  function SendTags(xs: seq<Send>): (ls: seq<Label>)
    ensures |ls| == |xs| && forall k :: 0 <= k < |xs| ==> ls[k] == SendTag(xs[k])
  {
    seq(|xs|, k requires 0 <= k < |xs| => SendTag(xs[k]))
  }

  // ---- lanes ----

  function Enqueued(lane: Lane, l: Label): Lane {
    lane.(log := lane.log + [l])
  }

  predicate AtStage(lane: Lane, stage: Stage) {
    lane.pos < |lane.log| && lane.stage == stage
  }

  function Head(lane: Lane): Label
    requires lane.pos < |lane.log|
  {
    lane.log[lane.pos]
  }

  function Unmapped(lane: Lane): Lane {
    lane.(pos := lane.pos + 1, stage := Idle)
  }

  /** Chains that are not complete. */
  function Undone(lane: Lane): seq<Label> {
    if lane.pos <= |lane.log| then lane.log[lane.pos..] else []
  }

  // ---- keeping apart ----

  function Set(s: seq<Obj>): set<Obj> {
    set x | x in s
  }

  /** Two rounds that may be under way together: no common object, one owner, one queue. */
  predicate Compatible(cfg: Config, q: nat, r: nat) {
    && Set(List(cfg, AtHost, q)) !! Set(List(cfg, AtHost, r))
    && GetRound(cfg, q).owner == GetRound(cfg, r).owner && GetRound(cfg, q).queue == GetRound(cfg, r).queue
  }

  /** Acquire chains that are not complete, enqueued or still to be enqueued. */
  predicate Unfinished(w: Waiter, l: Label) {
    l in w.loop || exists q :: q in w.lanes && l in Undone(w.lanes[q])
  }

  /** No other command's transfer is under way on a stream. */
  predicate OthersDone(link: Link) {
    && (forall l :: l in link.posted && l.Other? ==> l in Labels(link.got))
    && (forall l :: l in Labels(link.sent) && l.Other? ==> l in Labels(link.got))
  }

  predicate DownOthersDone(s: State) {
    OthersDone(s.w.link) && forall l :: l in SendTags(s.h.sends) && l.Other? ==> l in Labels(s.w.link.got)
  }

  predicate Uses(cfg: Config, n: nat) {
    exists r :: 0 <= r < |cfg.rounds| && cfg.rounds[r].owner == n
  }

  /** Posted and not complete, or sent and not posted yet. */
  predicate UnderWay(link: Link, tag: Label) {
    tag in Tail(link) || (tag in Labels(link.sent) && tag !in link.posted)
  }

  predicate IsMap(tag: Label) {
    tag.Other? && tag.mapped
  }

  /** No map of an object of round `r` is under way on a stream. */
  ghost predicate MapsNone(cfg: Config, link: Link, r: nat) {
    forall tag :: UnderWay(link, tag) && IsMap(tag) ==> tag.place.obj !in Set(List(cfg, AtHost, r))
  }

  /** No unfinished round has the object. */
  ghost predicate Unused(cfg: Config, w: Waiter, x: Obj) {
    forall l :: Unfinished(w, l) ==> x !in Set(List(cfg, AtHost, RoundOf(l)))
  }

  /** A round is started when all unfinished rounds are compatible, no other transfer is under way on its
      streams, and no map of its objects on any stream. */
  ghost predicate MayStart(cfg: Config, s: State, r: nat) {
    && (forall l :: Unfinished(s.w, l) ==> Compatible(cfg, RoundOf(l), r))
    && OthersDone(At(s, GetRound(cfg, r).owner).link) && DownOthersDone(s)
    && forall n :: n in s.o ==> MapsNone(cfg, s.o[n].link, r)
  }

  /** No round of that owner is unfinished and no other read of it is under way. */
  ghost predicate OwnerFree(cfg: Config, s: State, n: nat) {
    Uses(cfg, n) ==>
      (forall l :: Unfinished(s.w, l) ==> GetRound(cfg, RoundOf(l)).owner != n) && OthersDone(At(s, n).link)
  }

  /** A read or a map is started when the owner is free; a map, when no unfinished round has the object. */
  ghost predicate MayRead(cfg: Config, s: State, n: nat, tag: Label) {
    OwnerFree(cfg, s, n) && (IsMap(tag) ==> Unused(cfg, s.w, tag.place.obj))
  }

  /** A write or an unmap is started when no round at all is unfinished. */
  ghost predicate MayWrite(s: State) {
    (forall l :: !Unfinished(s.w, l)) && DownOthersDone(s)
  }

  // ---- steps ----

  datatype Action =
    | EventCompletes(r: nat)                        // the native event of round r completes on its owner
    | ReplicaCompletes(r: nat)                      // its status reaches the waiting node
    | OwnerWrites(n: nat, x: Obj, data: Bytes)      // any other command on an owner
    | WaiterWrites(x: Obj, data: Bytes)             // any other command on the waiting node
    | Allocates(x: Obj, data: Bytes)                // the host allocates memory for its copy of a buffer
    | HostStores(x: Obj, data: Bytes)               // the application writes to it
    | WSync(r: nat) | WEnqueue | WMap(q: nat) | WPost(q: nat) | WReceive | WUnmap(q: nat)
    | HSync | HPost | HSetCallback | HReceive(n: nat) | HTrigger | HTransmit
    | OSync(n: nat) | OEnqueue(n: nat) | OMap(n: nat) | OSend(n: nat) | OUnmap(n: nat)
    | ReadSend(n: nat, tag: Label, data: Bytes) | ReadPostAfter(n: nat, tag: Label)
    | ReadPost(n: nat, tag: Label) | ReadSendAfter(n: nat, tag: Label, data: Bytes)
    | WriteSend(tag: Label, data: Bytes) | WritePostAfter(tag: Label)
    | WritePost(tag: Label) | WriteSendAfter(tag: Label, data: Bytes)

  predicate Payload(tag: Label, data: Bytes) {
    tag.Other? && |data| == tag.len > 0
  }

  /** A part of a buffer; if it is mapped, the host's copy is there. */
  predicate PartOf(cfg: Config, h: HostState, tag: Label) {
    && tag.Other? && tag.len > 0 && tag.place.offset + tag.len <= cfg.size(tag.place.obj)
    && (tag.mapped ==> tag.place.obj in h.cache)
  }

  /** The application reads or maps the buffer on that node, and neither side has posted the transfer. */
  predicate FreshUp(cfg: Config, s: State, n: nat, tag: Label) {
    && PartOf(cfg, s.h, tag) && (n, tag.place.obj) in (if tag.mapped then cfg.maps else cfg.readFrom)
    && n in s.o && tag !in s.o[n].link.posted && tag !in Labels(s.o[n].link.sent)
  }

  predicate FreshDown(cfg: Config, s: State, tag: Label) {
    && PartOf(cfg, s.h, tag) && tag.place.obj in (if tag.mapped then cfg.unmaps else cfg.writes)
    && tag !in s.w.link.posted && tag !in SendTags(s.h.sends)
  }

  /** The bytes of a region are read when the stream writes them. */
  predicate Source(tag: Label, data: Bytes) {
    if IsMap(tag) then tag.len > 0 && data == [] else Payload(tag, data)
  }

  function Outgoing(tag: Label, data: Bytes): Send {
    if IsMap(tag) then Region(tag) else Given(Chunk(tag, data))
  }

  /** Bytes with a part replaced. */
  function Patched(bytes: Bytes, offset: nat, data: Bytes): (patched: Bytes)
    ensures |patched| == |bytes|
  {
    if offset + |data| <= |bytes| then bytes[..offset] + data + bytes[offset + |data|..] else bytes
  }

  /** From `offset` on the bytes are `data`; all others are as before. */
  ghost predicate Replaced(before: Bytes, after: Bytes, offset: nat, data: Bytes) {
    && |after| == |before| && offset + |data| <= |before|
    && forall i :: 0 <= i < |before| ==>
         after[i] == if offset <= i < offset + |data| then data[i - offset] else before[i]
  }

  /** The same for a part of one buffer among others. */
  ghost predicate ReplacedIn(before: map<Obj, Bytes>, after: map<Obj, Bytes>, p: Place, data: Bytes) {
    && after.Keys == before.Keys && p.obj in before && Replaced(before[p.obj], after[p.obj], p.offset, data)
    && forall x :: x in before && x != p.obj ==> after[x] == before[x]
  }

  /** The buffers after bytes have arrived for a part of one. */
  function Overlay(mem: map<Obj, Bytes>, p: Place, data: Bytes): map<Obj, Bytes> {
    if p.obj in mem then mem[p.obj := Patched(mem[p.obj], p.offset, data)] else mem
  }

  function Slice(mem: map<Obj, Bytes>, p: Place, len: nat): (data: Bytes)
    ensures |data| == len
  {
    if p.obj in mem && p.offset + len <= |mem[p.obj]| then mem[p.obj][p.offset..p.offset + len]
    else seq(len, _ => 0)
  }

  ghost predicate Enabled(cfg: Config, a: Action, s: State) {
    match a
    case EventCompletes(r) => r < |cfg.rounds| && r !in s.events
    case ReplicaCompletes(r) => r < |cfg.rounds| && r in s.events && r !in s.replicas
    case OwnerWrites(n, x, data) => n in s.o && |data| == cfg.size(x)
    case WaiterWrites(x, data) => |data| == cfg.size(x)
    // allocHostMemory, which mapping and acquiring call
    case Allocates(x, data) => x !in s.h.cache && |data| == cfg.size(x)
    case HostStores(x, data) =>
      x in cfg.stored && x in s.h.cache && |data| == cfg.size(x) && (cfg.apart ==> Unused(cfg, s.w, x))

    // RemoteEvent::synchronize: one message, then an acquire chain for each object
    case WSync(r) => r < |cfg.rounds| && r !in s.w.asked.log && s.w.loop == [] && (cfg.apart ==> MayStart(cfg, s, r))
    case WEnqueue => s.w.loop != []
    // Buffer::acquire: the map waits for the replica, the unmap for the receipt
    case WMap(q) => AtStage(LaneOf(s.w, q), Idle) && RoundOf(Head(LaneOf(s.w, q))) in s.replicas
    case WPost(q) => AtStage(LaneOf(s.w, q), Mapped)
    case WReceive => CanReceive(cfg.size, s.w.link)
    case WUnmap(q) => AtStage(LaneOf(s.w, q), Moved)

    // Event::onSynchronize: forwards the message, then onAcquire for each object
    case HSync => s.w.asked.seen < |s.w.asked.log| && s.h.loop == [] && s.h.posting == None
      && GetRound(cfg, s.w.asked.log[s.w.asked.seen]).owner in s.o
    case HPost => s.h.loop != [] && s.h.posting == None && GetRound(cfg, RoundOf(s.h.loop[0])).owner in s.o
    case HSetCallback => s.h.posting.Some?
    case HReceive(n) => n in s.o && s.h.trigger == None && CanReceive(cfg.size, s.o[n].link)
    case HTrigger => s.h.trigger.Some?
    case HTransmit => |s.w.link.sent| < |s.h.sends| && Ready(s.h, s.h.sends[|s.w.link.sent|])

    // LocalEvent::onSynchronize: a release chain for each object on the queue for synchronization
    case OSync(n) => n in s.o && s.o[n].orders.seen < |s.o[n].orders.log| && s.o[n].loop == []
    case OEnqueue(n) => n in s.o && s.o[n].loop != []
    // Buffer::release: the map waits for the event itself, the unmap for the sending
    case OMap(n) => n in s.o && AtStage(s.o[n].lane, Idle) && RoundOf(Head(s.o[n].lane)) in s.events
      && ObjectOf(Head(s.o[n].lane)) in s.o[n].mem
    case OSend(n) => n in s.o && AtStage(s.o[n].lane, Mapped)
    case OUnmap(n) => n in s.o && AtStage(s.o[n].lane, Moved)

    // read buffer, map for reading: the node tells the host and then starts its own transfer, so that either
    // side can be the first; the other one comes after it
    case ReadSend(n, tag, data) =>
      Payload(tag, data) && FreshUp(cfg, s, n, tag) && (cfg.apart ==> MayRead(cfg, s, n, tag))
    case ReadPostAfter(n, tag) => n in s.o && tag.Other? && tag in Labels(s.o[n].link.sent)
        && tag !in s.o[n].link.posted
    case ReadPost(n, tag) => FreshUp(cfg, s, n, tag) && (cfg.apart ==> MayRead(cfg, s, n, tag))
    case ReadSendAfter(n, tag, data) => n in s.o && Payload(tag, data)
      && tag in s.o[n].link.posted && tag !in Labels(s.o[n].link.sent)
    // write buffer, unmap after writing, create buffer with contents: the same towards the node
    case WriteSend(tag, data) => Source(tag, data) && FreshDown(cfg, s, tag) && (cfg.apart ==> MayWrite(s))
    case WritePostAfter(tag) => tag.Other? && tag in SendTags(s.h.sends) && tag !in s.w.link.posted
    case WritePost(tag) => FreshDown(cfg, s, tag) && (cfg.apart ==> MayWrite(s))
    case WriteSendAfter(tag, data) =>
      Source(tag, data) && tag.Other? && tag in s.w.link.posted && tag !in SendTags(s.h.sends)
  }

  predicate Ready(h: HostState, x: Send) {
    x.Cached? ==> ObjectOf(x.tag) in h.cache
  }

  function Transmitted(h: HostState, x: Send): Chunk
    requires Ready(h, x)
  {
    match x
    case Cached(tag) => Chunk(tag, h.cache[ObjectOf(tag)])
    case Region(tag) => Chunk(tag, if tag.Other? then Slice(h.cache, tag.place, tag.len) else [])
    case Given(c) => c
  }

  function Put(s: State, n: nat, o: Owner): State {
    s.(o := s.o[n := o])
  }

  function PutLane(w: Waiter, q: nat, lane: Lane): Waiter {
    w.(lanes := w.lanes[q := lane])
  }

  /** The receive at the head of the waiting node's stream sets the user event that its chain waits for, or
      brings another command's bytes. */
  function WaiterReceived(cfg: Config, w: Waiter): Waiter
    requires CanReceive(cfg.size, w.link)
  {
    var c := Next(cfg.size, w.link);
    var t := w.(link := Received(cfg.size, w.link));
    if c.tag.Other? then t.(mem := Overlay(t.mem, c.tag.place, c.bytes), kept := t.kept - {c.tag.place.obj}) else
    var q := GetRound(cfg, c.tag.round).queue;
    PutLane(t, q, LaneOf(w, q).(stage := Moved, buffer := c.bytes))
  }

  /** A receive for a round overwrites the host's copy; its callback runs unless it is not registered yet. A
      receive for a map writes the same memory. */
  function Landed(h: HostState, c: Chunk): HostState {
    if IsMap(c.tag) then h.(cache := Overlay(h.cache, c.tag.place, c.bytes)) else
    if c.tag.Other? then h else
    var t := h.(cache := h.cache[c.tag.obj := c.bytes], landed := h.landed[c.tag := c.bytes]);
    if h.posting == Some(c.tag) then t.(postingLanded := true) else t.(trigger := Some(c.tag))
  }

  ghost function Apply(cfg: Config, a: Action, s: State): State
    requires Enabled(cfg, a, s)
  {
    match a
    case EventCompletes(r) => s.(events := s.events + {r})
    case ReplicaCompletes(r) => s.(replicas := s.replicas + {r})
    case OwnerWrites(n, x, data) => Put(s, n, s.o[n].(mem := s.o[n].mem[x := data]))
    case WaiterWrites(x, data) => s.(w := s.w.(mem := s.w.mem[x := data], kept := s.w.kept - {x}))
    case Allocates(x, data) => s.(h := s.h.(cache := s.h.cache[x := data]))
    case HostStores(x, data) => s.(h := s.h.(cache := s.h.cache[x := data]))

    case WSync(r) =>
      s.(w := s.w.(asked := s.w.asked.(log := s.w.asked.log + [r]), loop := Items(cfg, AtWaiter, r),
                   segs := s.w.segs + [Sync(r)]))
    case WEnqueue =>
      var q := GetRound(cfg, RoundOf(s.w.loop[0])).queue;
      s.(w := PutLane(s.w, q, Enqueued(LaneOf(s.w, q), s.w.loop[0])).(loop := s.w.loop[1..]))
    case WMap(q) => s.(w := PutLane(s.w, q, LaneOf(s.w, q).(stage := Mapped)))
    case WPost(q) =>
      s.(w := PutLane(s.w, q, LaneOf(s.w, q).(stage := Waiting)).(link := Posted(s.w.link, Head(LaneOf(s.w, q)))))
    case WReceive => s.(w := WaiterReceived(cfg, s.w))
    case WUnmap(q) =>
      var lane := LaneOf(s.w, q);
      s.(w := PutLane(s.w, q, Unmapped(lane)).(mem := s.w.mem[ObjectOf(Head(lane)) := lane.buffer],
                                               installed := s.w.installed + [Chunk(Head(lane), lane.buffer)],
                                               kept := s.w.kept + {ObjectOf(Head(lane))}))

    case HSync =>
      var r := s.w.asked.log[s.w.asked.seen];
      var n := GetRound(cfg, r).owner;
      Put(s, n, s.o[n].(orders := s.o[n].orders.(log := s.o[n].orders.log + [r]), segs := s.o[n].segs + [Sync(r)]))
        .(h := s.h.(loop := Items(cfg, AtHost, r)), w := s.w.(asked := s.w.asked.(seen := s.w.asked.seen + 1)))
    case HPost =>
      var l := s.h.loop[0];
      var n := GetRound(cfg, RoundOf(l)).owner;
      Put(s, n, s.o[n].(link := Posted(s.o[n].link, l)))
        .(h := s.h.(loop := s.h.loop[1..], posting := Some(l), postingLanded := false))
    // a callback that is registered after completion runs at once in the registering thread
    case HSetCallback =>
      s.(h := s.h.(posting := None,
                   sends := s.h.sends + if s.h.postingLanded then [Cached(s.h.posting.value)] else []))
    case HReceive(n) =>
      var c := Next(cfg.size, s.o[n].link);
      Put(s, n, s.o[n].(link := Received(cfg.size, s.o[n].link))).(h := Landed(s.h, c))
    case HTrigger => s.(h := s.h.(trigger := None, sends := s.h.sends + [Cached(s.h.trigger.value)]))
    // the bytes of a posted send are read from the cache when the stream writes them
    case HTransmit => s.(w := s.w.(link := Sent(s.w.link, Transmitted(s.h, s.h.sends[|s.w.link.sent|]))))

    case OSync(n) =>
      var o := s.o[n];
      Put(s, n, o.(orders := o.orders.(seen := o.orders.seen + 1),
          loop := Items(cfg, AtOwner, o.orders.log[o.orders.seen])))
    case OEnqueue(n) => Put(s, n, s.o[n].(lane := Enqueued(s.o[n].lane, s.o[n].loop[0]), loop := s.o[n].loop[1..]))
    case OMap(n) =>
      var l := Head(s.o[n].lane);
      var bytes := s.o[n].mem[ObjectOf(l)];
      Put(s, n, s.o[n].(lane := s.o[n].lane.(stage := Mapped, buffer := bytes))).(released := s.released[l := bytes])
    // the mapped region does not change until the stream has written it
    case OSend(n) =>
      var lane := s.o[n].lane;
      Put(s, n, s.o[n].(lane := lane.(stage := Moved), link := Sent(s.o[n].link, Chunk(Head(lane), lane.buffer))))
    case OUnmap(n) => Put(s, n, s.o[n].(lane := Unmapped(s.o[n].lane)))

    case ReadSend(n, tag, data) =>
      Put(s, n, s.o[n].(link := Sent(s.o[n].link, Chunk(tag, data)), segs := s.o[n].segs + [Apart(tag)]))
    case ReadPostAfter(n, tag) => Put(s, n, s.o[n].(link := Posted(s.o[n].link, tag)))
    case ReadPost(n, tag) => Put(s, n, s.o[n].(link := Posted(s.o[n].link, tag), segs := s.o[n].segs + [Apart(tag)]))
    case ReadSendAfter(n, tag, data) => Put(s, n, s.o[n].(link := Sent(s.o[n].link, Chunk(tag, data))))
    case WriteSend(tag, data) =>
      s.(h := s.h.(sends := s.h.sends + [Outgoing(tag, data)]), w := s.w.(segs := s.w.segs + [Apart(tag)]))
    case WritePostAfter(tag) => s.(w := s.w.(link := Posted(s.w.link, tag)))
    case WritePost(tag) => s.(w := s.w.(link := Posted(s.w.link, tag), segs := s.w.segs + [Apart(tag)]))
    case WriteSendAfter(tag, data) => s.(h := s.h.(sends := s.h.sends + [Outgoing(tag, data)]))
  }

  /** The state after a list of actions, if each is enabled in its turn. */
  ghost function Exec(cfg: Config, from: State, run: seq<Action>): Option<State>
    decreases |run|
  {
    if run == [] then Some(from) else
    var s, a := Exec(cfg, from, run[..|run| - 1]), run[|run| - 1];
    if s.Some? && Enabled(cfg, a, s.value) then Some(Apply(cfg, a, s.value)) else None
  }

  // ---- what is supposed of the event lists and the memories ----

  ghost predicate Distinct(s: seq<Obj>) {
    forall i, j :: 0 <= i < j < |s| ==> s[i] != s[j]
  }

  /** Three lists of the same objects, in any orders. A remote event without objects starts no round. */
  ghost predicate WellFormedRound(q: Round) {
    Distinct(q.own) && Distinct(q.host) && Distinct(q.wait) && q.own != [] && Set(q.own) == Set(q.host) == Set(q.wait)
  }

  /** Memory objects are not empty, and there is something to synchronize. */
  ghost predicate WellFormed(cfg: Config) {
    && (forall x :: cfg.size(x) > 0) && cfg.rounds != []
    && forall r :: 0 <= r < |cfg.rounds| ==> WellFormedRound(cfg.rounds[r])
  }

  /** Every owner is there and holds its objects, each with its size. */
  ghost predicate Memory(cfg: Config, mems: map<nat, map<Obj, Bytes>>) {
    && (forall n :: n in mems ==> Holds(cfg, mems[n]))
    && (forall r :: 0 <= r < |cfg.rounds| ==> cfg.rounds[r].owner in mems)
    && forall r, x :: 0 <= r < |cfg.rounds| && x in cfg.rounds[r].own ==> x in mems[cfg.rounds[r].owner]
  }

  ghost predicate Holds(cfg: Config, mem: map<Obj, Bytes>) {
    forall x :: x in mem ==> |mem[x]| == cfg.size(x)
  }

  /** `s` can be reached from an initial state by some run. */
  ghost predicate Reaches(cfg: Config, run: seq<Action>, s: State) {
    exists mems, wm :: Memory(cfg, mems) && Exec(cfg, Init(mems, wm), run) == Some(s)
  }

  /** What was acquired for an object is what was released for it. */
  predicate Right(s: State, c: Chunk) {
    c.tag in s.released && s.released[c.tag] == c.bytes
  }

  /** Every acquire chain of every round is complete. */
  ghost predicate Final(cfg: Config, s: State) {
    && (forall r :: 0 <= r < |cfg.rounds| ==> r in s.w.asked.log)
    && (forall l :: !Unfinished(s.w, l))
  }
}
