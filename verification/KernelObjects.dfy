/**
 The memory objects that a kernel may write. Host and daemon keep one slot for each kernel argument and list
 the objects in the slots without duplicates, in the order of their addresses in the own process.
 */
module KernelObjects {
  import opened Seqs

  /** Memory objects are identified across processes; each process has its own addresses. */
  type Addresses = map<nat, nat>

  predicate Distinct(addr: Addresses) {
    forall x, y :: x in addr && y in addr && x != y ==> addr[x] != addr[y]
  }

  function Objects(slots: seq<Option<nat>>): set<nat> {
    set s | s in slots && s.Some? :: s.value
  }

  function Elements(s: seq<nat>): set<nat> {
    set x | x in s
  }

  predicate Increasing(list: seq<nat>, addr: Addresses) {
    (forall x :: x in list ==> x in addr) && forall i, j :: 0 <= i < j < |list| ==> addr[list[i]] < addr[list[j]]
  }

  /** Exactly the given objects, by increasing address. */
  ghost predicate Lists(list: seq<nat>, objects: set<nat>, addr: Addresses) {
    Increasing(list, addr) && Elements(list) == objects
  }

  class Kernel {
    var slots: seq<Option<nat>>

    constructor ()
      ensures slots == []
    {
      slots := [];
    }

    /** An object that the kernel only reads, or a value, leaves an earlier entry where it is. */
    method SetArgument(index: nat, memory: Option<nat>, isOutput: bool)
      modifies this
      ensures if memory.Some? && isOutput then
                && |slots| == (if index < |old(slots)| then |old(slots)| else index + 1)
                && slots[index] == memory
                && forall i :: 0 <= i < |slots| && i != index ==>
                     slots[i] == if i < |old(slots)| then old(slots)[i] else None
              else slots == old(slots)
    {
      if memory.Some? && isOutput {
        if |slots| <= index {
          slots := slots + seq(index + 1 - |slots|, _ => None);
        }
        slots := slots[index := memory];
      }
    }

    method WriteMemoryObjects(addr: Addresses) returns (list: seq<nat>)
      requires Distinct(addr) && Objects(slots) <= addr.Keys
      ensures Lists(list, Objects(slots), addr)
    {
      list := [];
      var i := 0;
      while i < |slots|
        invariant 0 <= i <= |slots|
        invariant Lists(list, Objects(slots[..i]), addr)
      {
        assert slots[..i + 1] == slots[..i] + [slots[i]];
        if slots[i].Some? {
          assert slots[i].value in Objects(slots);
          list := Insert(list, slots[i].value, addr);
          assert Objects(slots[..i + 1]) == Objects(slots[..i]) + {slots[i].value};
        } else {
          assert Objects(slots[..i + 1]) == Objects(slots[..i]);
        }
        i := i + 1;
      }
      assert slots[..|slots|] == slots;
    }
  }

  /** Insertion into a `std::set`. */
  method Insert(list: seq<nat>, x: nat, addr: Addresses) returns (r: seq<nat>)
    requires Increasing(list, addr) && Distinct(addr) && x in addr
    ensures Increasing(r, addr) && Elements(r) == Elements(list) + {x}
  {
    var i := 0;
    while i < |list| && addr[list[i]] < addr[x]
      invariant 0 <= i <= |list|
      invariant forall j :: 0 <= j < i ==> addr[list[j]] < addr[x]
    {
      i := i + 1;
    }
    if i < |list| && list[i] == x {
      r := list;
    } else {
      r := list[..i] + [x] + list[i..];
      forall y ensures y in r <==> y in list || y == x {
        assert list == list[..i] + list[i..];
      }
    }
  }

  // ---- do host and daemon agree on the order? ----

  /** There is only one such list. */
  lemma {:induction false} ListIsUnique(a: seq<nat>, b: seq<nat>, objects: set<nat>, addr: Addresses)
    requires Lists(a, objects, addr) && Lists(b, objects, addr)
    ensures a == b
    decreases |a|
  {
    if a == [] || b == [] {
      NoElements(a);
      NoElements(b);
    } else {
      var m, n := |a| - 1, |b| - 1;
      LastIsGreatest(a, b, objects, addr);
      WithoutLast(a, objects, addr);
      WithoutLast(b, objects, addr);
      ListIsUnique(a[..m], b[..n], objects - {a[m]}, addr);
      assert a == a[..m] + [a[m]] && b == b[..n] + [b[n]];
    }
  }

  lemma NoElements(s: seq<nat>)
    ensures s == [] <==> Elements(s) == {}
  {
    if s != [] {
      assert s[0] in Elements(s);
    }
  }

  lemma Single(a: seq<nat>, b: seq<nat>)
    requires Elements(a) == Elements(b) && |a| <= 1 && |b| <= 1
    ensures a == b
  {
    NoElements(a);
    NoElements(b);
    if a != [] {
      assert a[0] in Elements(b);
    }
  }

  lemma LastIsGreatest(a: seq<nat>, b: seq<nat>, objects: set<nat>, addr: Addresses)
    requires Lists(a, objects, addr) && Lists(b, objects, addr) && a != [] && b != []
    ensures a[|a| - 1] == b[|b| - 1]
  {
    assert a[|a| - 1] in objects && b[|b| - 1] in objects;
    var i :| 0 <= i < |b| && b[i] == a[|a| - 1];
    var j :| 0 <= j < |a| && a[j] == b[|b| - 1];
  }

  lemma WithoutLast(a: seq<nat>, objects: set<nat>, addr: Addresses)
    requires Lists(a, objects, addr) && a != []
    ensures Lists(a[..|a| - 1], objects - {a[|a| - 1]}, addr)
  {
    var m := |a| - 1;
    forall x ensures x in a[..m] <==> x in objects && x != a[m] {
      assert a == a[..m] + [a[m]];
    }
  }

  /** Two processes list the same objects alike exactly if their addresses order them alike. */
  lemma OrdersMatch(a: seq<nat>, b: seq<nat>, objects: set<nat>, addr: Addresses, addr': Addresses)
    requires Lists(a, objects, addr) && Lists(b, objects, addr')
    ensures objects <= addr.Keys && objects <= addr'.Keys
    ensures a == b <==> forall x, y :: x in objects && y in objects && addr[x] < addr[y] ==> addr'[x] < addr'[y]
  {
    assert forall x :: x in objects ==> x in a && x in b;
    if a == b {
      forall x, y | x in objects && y in objects && addr[x] < addr[y] ensures addr'[x] < addr'[y] {
        var i :| 0 <= i < |a| && a[i] == x;
        var j :| 0 <= j < |a| && a[j] == y;
      }
    } else if forall x, y :: x in objects && y in objects && addr[x] < addr[y] ==> addr'[x] < addr'[y] {
      forall i, j | 0 <= i < j < |a| ensures addr'[a[i]] < addr'[a[j]] {
        assert a[i] in objects && a[j] in objects;
      }
      ListIsUnique(a, b, objects, addr');
    }
  }

  function Reverse(s: seq<nat>): (r: seq<nat>)
    ensures |r| == |s| && forall i :: 0 <= i < |s| ==> r[i] == s[|s| - 1 - i]
  {
    if s == [] then [] else Reverse(s[1..]) + [s[0]]
  }

  predicate NoDuplicates(s: seq<nat>) {
    forall i, j :: 0 <= i < j < |s| ==> s[i] != s[j]
  }

  function IndexOf(s: seq<nat>, x: nat): (i: nat)
    requires x in s
    ensures i < |s| && s[i] == x
  {
    if s[0] == x then 0 else 1 + IndexOf(s[1..], x)
  }

  /** Addresses in the order of a list. */
  function InOrder(s: seq<nat>): Addresses {
    map x | x in s :: IndexOf(s, x)
  }

  lemma InOrderLists(s: seq<nat>)
    requires NoDuplicates(s)
    ensures Distinct(InOrder(s)) && Lists(s, Elements(s), InOrder(s))
  {
    assert forall i :: 0 <= i < |s| ==> IndexOf(s, s[i]) == i;
  }

  lemma {:induction false} Enumerated(objects: set<nat>) returns (s: seq<nat>)
    ensures NoDuplicates(s) && Elements(s) == objects && |s| == |objects|
    decreases |objects|
  {
    s := [];
    if objects != {} {
      var x :| x in objects;
      var rest := Enumerated(objects - {x});
      s := rest + [x];
      assert Elements(s) == Elements(rest) + {x};
      assert x !in Elements(rest);
    }
  }

  ghost predicate AlwaysAgree(objects: set<nat>) {
    forall addr, addr', a, b :: Distinct(addr) && Distinct(addr') && Lists(a, objects, addr) && Lists(b, objects, addr')
      ==> a == b
  }

  /** Host and daemon list the objects in the same order whatever their addresses are, exactly if there is at
      most one object. */
  lemma OrdersAgree(objects: set<nat>)
    ensures AlwaysAgree(objects) <==> |objects| <= 1
  {
    if |objects| <= 1 {
      forall addr, addr', a, b | Distinct(addr) && Distinct(addr') && Lists(a, objects, addr)
          && Lists(b, objects, addr')
        ensures a == b
      {
        AtMostOne(a, objects, addr);
        AtMostOne(b, objects, addr');
        Single(a, b);
      }
    } else {
      Disagree(objects);
    }
  }

  lemma Disagree(objects: set<nat>)
    requires |objects| > 1
    ensures !AlwaysAgree(objects)
  {
    var s := Enumerated(objects);
    var r := Reverse(s);
    Reversed(s);
    InOrderLists(s);
    InOrderLists(r);
    hide Lists, Distinct, InOrder, Reverse;
    assert s[0] != s[|s| - 1] == r[0];
  }

  lemma Reversed(s: seq<nat>)
    requires NoDuplicates(s)
    ensures NoDuplicates(Reverse(s)) && Elements(Reverse(s)) == Elements(s)
    ensures s != [] ==> Reverse(s)[0] == s[|s| - 1]
  {
    ReversedElements(s);
  }

  lemma {:induction false} ReversedElements(s: seq<nat>)
    ensures Elements(Reverse(s)) == Elements(s)
  {
    if s != [] {
      ReversedElements(s[1..]);
      assert s == [s[0]] + s[1..];
      assert Elements(s) == {s[0]} + Elements(s[1..]);
      assert Elements(Reverse(s)) == Elements(Reverse(s[1..])) + {s[0]};
    }
  }

  lemma AtMostOne(a: seq<nat>, objects: set<nat>, addr: Addresses)
    requires Lists(a, objects, addr) && |objects| <= 1
    ensures |a| <= 1
  {
    if |a| > 1 {
      assert a[0] in objects && a[1] in objects && a[0] != a[1];
      assert |{a[0], a[1]}| == 2 && {a[0], a[1]} <= objects;
      SubsetSize({a[0], a[1]}, objects);
    }
  }

  lemma SubsetSize(a: set<nat>, b: set<nat>)
    requires a <= b
    ensures |a| <= |b|
  {
    assert b == a + (b - a);
  }
}
