/**
 The host's part of a synchronization as its objects carry it out: a message queue to the owner, the receives
 posted on the owner's stream with their callbacks, posted sends, and the cached data of each memory object.
 */
module SyncHost {
  import opened Seqs
  import opened Links
  import opened SyncProtocol
  import opened SyncMemory

  /** Messages to one process, oldest first. */
  class MessageQueue {
    var messages: seq<nat>

    constructor ()
      ensures messages == []
    {
      messages := [];
    }

    method Send(r: nat)
      modifies this
      ensures messages == old(messages) + [r]
    {
      messages := messages + [r];
    }
  }

  /** The receiving end of a stream: the receives posted on it, oldest first. */
  class Stream {
    var posted: seq<Label>

    constructor ()
      ensures posted == []
    {
      posted := [];
    }

    method Receive(l: Label)
      modifies this
      ensures posted == old(posted) + [l]
    {
      posted := posted + [l];
    }
  }

  class HostProcess {
    var posting: Option<Label>
    var postingLanded: bool
    var trigger: Option<Label>
    var sends: seq<Send>
    var cache: map<Obj, Bytes>
    ghost var landed: map<Label, Bytes>

    constructor ()
      ensures View() == Init(map[], map[]).h
    {
      posting, postingLanded, trigger, sends, cache, landed := None, false, None, [], map[], map[];
    }

    ghost function View(): HostState
      reads this
    {
      HostState([], posting, postingLanded, trigger, sends, cache, landed)
    }

    /** `Event::onSynchronize`: forwards the request, then acquires object after object. */
    method OnSynchronize(r: nat, objects: seq<Obj>, owner: MessageQueue, stream: Stream)
      requires posting == None
      modifies this, owner, stream
      ensures View() == Served(old(View()), objects)
      ensures owner.messages == old(owner.messages) + if objects == [] then [] else [r]
      ensures stream.posted == old(stream.posted) + Tagged(r, objects)
    {
      if objects == [] {
        return;
      }
      owner.Send(r);
      var i := 0;
      ghost var items := Tagged(r, objects);
      while i < |objects|
        invariant 0 <= i <= |objects| && owner.messages == old(owner.messages) + [r]
        invariant View() == Served(old(View()), objects[..i]) && stream.posted == old(stream.posted) + items[..i]
      {
        assert items[..i + 1] == items[..i] + [items[i]];
        OnAcquire(Item(r, objects[i]), stream);
        i := i + 1;
      }
      assert items[..|objects|] == items;
    }

    /** `onAcquire`: posts a receive and registers what is to happen when it is finished; nothing else
        happens to the transfer in between. */
    method OnAcquire(l: Label, stream: Stream)
      requires posting == None
      modifies this, stream
      ensures View() == old(View()).(postingLanded := false) && stream.posted == old(stream.posted) + [l]
    {
      stream.Receive(l);
      posting, postingLanded := Some(l), false;
      SetCallback();
    }

    /** The callback runs at once if the receive is finished already. */
    method SetCallback()
      requires posting.Some?
      modifies this
      ensures View() == old(View()).(posting := None,
                          sends := old(sends) + if old(postingLanded) then [Cached(old(posting).value)] else [])
    {
      if postingLanded {
        OnAcquireComplete(posting.value);
      }
      posting := None;
    }

    /** The stream finished a receive: of a synchronization, into the cached data; of a map, into its region of
        the same data; or of another command, into memory of the application. */
    method OnReceived(l: Label, bytes: Bytes)
      requires l.Item? ==> trigger == None
      modifies this
      ensures View() == Landed(old(View()), Chunk(l, bytes))
      ensures l.Item? ==> cache == old(cache)[l.obj := bytes]
      ensures IsMap(l) && l.place.obj in old(cache) && l.place.offset + |bytes| <= |old(cache)[l.place.obj]| ==>
                ReplacedIn(old(cache), cache, l.place, bytes)
      ensures l.Other? && !l.mapped ==> cache == old(cache)
    {
      match l {
        case Item(_, obj) =>
          if posting == Some(l) {
            postingLanded := true;
          } else {
            trigger := Some(l);
          }
          cache := cache[obj := bytes];
          landed := landed[l := bytes];
        case Other(_, _, place, mapped) =>
          if mapped && place.obj in cache {
            cache := cache[place.obj := Patched(cache[place.obj], place.offset, bytes)];
          }
      }
    }

    method TriggerCallback()
      requires trigger.Some?
      modifies this
      ensures View() == old(View()).(trigger := None, sends := old(sends) + [Cached(old(trigger).value)])
    {
      OnAcquireComplete(trigger.value);
      trigger := None;
    }

    /** `onAcquireComplete`: forwards the cached data. */
    method OnAcquireComplete(l: Label)
      modifies this`sends
      ensures sends == old(sends) + [Cached(l)]
    {
      sends := sends + [Cached(l)];
    }
  }

  /** The host after a request has been dealt with without interruption. */
  function Served(h: HostState, objects: seq<Obj>): HostState {
    h.(postingLanded := if objects == [] then h.postingLanded else false)
  }

  // ---- the same steps in the protocol ----

  function Posts(n: nat): seq<Action> {
    if n == 0 then [] else [HPost, HSetCallback] + Posts(n - 1)
  }

  /** The receives for `ls` are posted on the stream of owner `n`. */
  function WithPosted(s: State, n: nat, ls: seq<Label>): map<nat, Owner> {
    if n in s.o then s.o[n := s.o[n].(link := s.o[n].link.(posted := s.o[n].link.posted + ls))] else s.o
  }

  lemma {:induction false} PostsRun(cfg: Config, s: State, n: nat)
    requires s.h.posting == None && n in s.o
    requires forall l :: l in s.h.loop ==> GetRound(cfg, RoundOf(l)).owner == n
    ensures Exec(cfg, s, Posts(|s.h.loop|)) == Some(s.(o := WithPosted(s, n, s.h.loop),
              h := s.h.(loop := [], postingLanded := if s.h.loop == [] then s.h.postingLanded else false)))
    decreases |s.h.loop|
  {
    if s.h.loop == [] {
      assert s.o[n].link.posted + [] == s.o[n].link.posted;
      assert s.o[n := s.o[n]] == s.o;
    } else {
      hide Enabled, Apply, WithPosted;
      var u := OnePost(cfg, s, n);
      PostsRun(cfg, u, n);
      ExecAppend(cfg, s, [HPost, HSetCallback], Posts(|s.h.loop| - 1));
      PostedTwice(s, u, n, s.h.loop);
    }
  }

  lemma OnePost(cfg: Config, s: State, n: nat) returns (u: State)
    requires s.h.posting == None && n in s.o && s.h.loop != [] && GetRound(cfg, RoundOf(s.h.loop[0])).owner == n
    ensures Exec(cfg, s, [HPost, HSetCallback]) == Some(u) && n in u.o
    ensures u == s.(o := WithPosted(s, n, [s.h.loop[0]]), h := s.h.(loop := s.h.loop[1..], postingLanded := false))
  {
    var t := Apply(cfg, HPost, s);
    u := Apply(cfg, HSetCallback, t);
    TwoSteps(cfg, s, HPost, HSetCallback);
    assert u.h.sends == s.h.sends + [] == s.h.sends;
  }

  lemma PostedTwice(s: State, u: State, n: nat, ls: seq<Label>)
    requires n in s.o && ls != [] && u.o == WithPosted(s, n, [ls[0]])
    ensures WithPosted(u, n, ls[1..]) == WithPosted(s, n, ls)
  {
    assert s.o[n].link.posted + [ls[0]] + ls[1..] == s.o[n].link.posted + ls;
  }

  /** A request that is served without interruption is a run of the protocol, with the effect of the methods
      above; the protocol's other runs interleave it. */
  lemma RequestRun(cfg: Config, s: State)
    requires Enabled(cfg, HSync, s) && List(cfg, AtHost, s.w.asked.log[s.w.asked.seen]) != []
    ensures var r := s.w.asked.log[s.w.asked.seen]; var n, objects := GetRound(cfg, r).owner, List(cfg, AtHost, r);
            var t := Exec(cfg, s, [HSync] + Posts(|objects|));
            && t.Some? && n in s.o && n in t.value.o && t.value.h == Served(s.h, objects)
            && t.value.o[n].orders == s.o[n].orders.(log := s.o[n].orders.log + [r])
            && t.value.o[n].link == s.o[n].link.(posted := s.o[n].link.posted + Tagged(r, objects))
  {
    var r := s.w.asked.log[s.w.asked.seen];
    var t := Apply(cfg, HSync, s);
    PostsRun(cfg, t, GetRound(cfg, r).owner);
    assert [HSync][..0] == [];
    assert Exec(cfg, s, [HSync][..0]) == Some(s);
    assert Exec(cfg, s, [HSync]) == Some(t);
    ExecAppend(cfg, s, [HSync], Posts(|t.h.loop|));
  }
}
