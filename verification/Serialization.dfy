/**
 The serialized form of the values that messages carry, independent of any buffer.

 Scalars are copied byte by byte in the host's own order, little-endian here, whatever their type; the
 class comment's promise of network byte order is not kept by the code. Lengths are written as 64-bit
 `size_t` values.
 */
module Serialization {
  import opened Seqs

  const SIZE_WIDTH: nat := 8
  const WORD := 0x1_0000_0000

  /** `Text` stands for strings and for raw binaries, which have the same serialized form. */
  datatype Ty = Scalar(width: nat) | Flag | Text | Vector(elem: Ty) | Table(key: Ty, val: Ty)

  /** A scalar is its bit pattern. A table lists its entries in the order of iteration. */
  datatype Val =
    | Num(bits: nat)
    | Bool(on: bool)
    | Str(chars: seq<byte>)
    | List(items: seq<Val>)
    | Pairs(entries: seq<Entry>)

  datatype Entry = Entry(key: Val, val: Val)

  function Power(w: nat): nat {
    if w == 0 then 1 else 256 * Power(w - 1)
  }

  /** Lengths stay below 2^32, the range of the buffer's own sizes; scalars have at most eight bytes. */
  predicate HasType(v: Val, t: Ty)
    decreases v, 1
  {
    match (v, t)
    case (Num(bits), Scalar(w)) => w <= 8 && bits < Power(w)
    case (Bool(_), Flag) => true
    case (Str(chars), Text) => |chars| < WORD
    case (List(items), Vector(e)) => |items| < WORD && AllTyped(items, e)
    case (Pairs(entries), Table(k, v)) =>
      |entries| < WORD && AllEntries(entries, k, v) && NoDuplicates(entries)
    case (_, _) => false
  }

  predicate AllTyped(items: seq<Val>, t: Ty)
    decreases items, 0
  {
    forall i :: 0 <= i < |items| ==> HasType(items[i], t)
  }

  predicate AllEntries(entries: seq<Entry>, k: Ty, v: Ty)
    decreases entries, 0
  {
    forall i :: 0 <= i < |entries| ==> EntryTyped(entries[i], k, v)
  }

  predicate EntryTyped(e: Entry, k: Ty, v: Ty)
    decreases e, 0
  {
    HasType(e.key, k) && HasType(e.val, v)
  }

  predicate NoDuplicates(entries: seq<Entry>) {
    forall i, j :: 0 <= i < j < |entries| ==> entries[i].key != entries[j].key
  }

  // ---- scalars ----

  function LittleEndian(n: nat, w: nat): (s: seq<byte>)
    ensures |s| == w
    decreases w
  {
    if w == 0 then [] else [(n % 256) as byte] + LittleEndian(n / 256, w - 1)
  }

  function FromLittleEndian(s: seq<byte>): nat {
    if s == [] then 0 else s[0] as nat + 256 * FromLittleEndian(s[1..])
  }

  lemma {:induction false} ScalarRoundTrip(n: nat, w: nat)
    requires n < Power(w)
    ensures FromLittleEndian(LittleEndian(n, w)) == n
  {
    if w > 0 {
      ScalarRoundTrip(n / 256, w - 1);
      assert LittleEndian(n, w)[1..] == LittleEndian(n / 256, w - 1);
    }
  }

  lemma SizeFits(n: nat)
    requires n < WORD
    ensures n < Power(SIZE_WIDTH)
  {
    assert Power(4) == WORD;
    assert Power(8) == WORD * WORD;
  }

  // ---- writing ----

  function Encode(v: Val, t: Ty): seq<byte>
    requires HasType(v, t)
    decreases v, 1
  {
    match (v, t)
    case (Num(bits), Scalar(w)) => LittleEndian(bits, w)
    case (Bool(on), Flag) => [if on then 1 else 0]
    case (Str(chars), Text) => LittleEndian(|chars|, SIZE_WIDTH) + chars
    case (List(items), Vector(e)) => LittleEndian(|items|, SIZE_WIDTH) + EncodeItems(items, e)
    case (Pairs(entries), Table(k, val)) => LittleEndian(|entries|, SIZE_WIDTH) + EncodeEntries(entries, k, val)
  }

  function EncodeItems(items: seq<Val>, t: Ty): seq<byte>
    requires AllTyped(items, t)
    decreases items, 0
  {
    if items == [] then [] else Encode(items[0], t) + EncodeItems(items[1..], t)
  }

  function EncodeEntries(entries: seq<Entry>, k: Ty, v: Ty): seq<byte>
    requires AllEntries(entries, k, v)
    decreases entries, 0
  {
    if entries == [] then [] else EncodeEntry(entries[0], k, v) + EncodeEntries(entries[1..], k, v)
  }

  function EncodeEntry(e: Entry, k: Ty, v: Ty): seq<byte>
    requires EntryTyped(e, k, v)
    decreases e, 0
  {
    Encode(e.key, k) + Encode(e.val, v)
  }

  // ---- reading ----

  /** `Underflow` is the exception of the bounds check. The check sees only the low 32 bits of a stored
      length; `Unguarded` is the case that it lets a read past the content through. */
  datatype Read<T> = Got(value: T) | Underflow | Unguarded

  /** Result of a read and the number of bytes it consumed, also when it failed. */
  datatype Parsed<T> = Parsed(result: Read<T>, used: nat)

  function Raw(n: nat, s: seq<byte>): (p: Parsed<seq<byte>>)
    ensures p.used <= |s|
  {
    if n % WORD > |s| then Parsed(Underflow, 0)
    else if n > |s| then Parsed(Unguarded, 0)
    else Parsed(Got(s[..n]), n)
  }

  function Decode(t: Ty, s: seq<byte>): (p: Parsed<Val>)
    ensures p.used <= |s|
    decreases t, 0
  {
    match t
    case Scalar(w) =>
      var p := Raw(w, s);
      Parsed(if p.result.Got? then Got(Num(FromLittleEndian(p.result.value))) else Fail(p.result), p.used)
    case Flag =>
      var p := Raw(1, s);
      Parsed(if p.result.Got? then Got(Bool(p.result.value[0] != 0)) else Fail(p.result), p.used)
    case Text =>
      var n := Raw(SIZE_WIDTH, s);
      if !n.result.Got? then Parsed(Fail(n.result), n.used) else
      var p := Raw(FromLittleEndian(n.result.value), s[n.used..]);
      Parsed(if p.result.Got? then Got(Str(p.result.value)) else Fail(p.result), n.used + p.used)
    case Vector(e) =>
      var n := Raw(SIZE_WIDTH, s);
      if !n.result.Got? then Parsed(Fail(n.result), n.used) else
      var p := DecodeItems(e, FromLittleEndian(n.result.value), s[n.used..]);
      Parsed(if p.result.Got? then Got(List(p.result.value)) else Fail(p.result), n.used + p.used)
    case Table(k, v) =>
      var n := Raw(SIZE_WIDTH, s);
      if !n.result.Got? then Parsed(Fail(n.result), n.used) else
      var p := DecodeEntries(k, v, FromLittleEndian(n.result.value), s[n.used..], []);
      Parsed(if p.result.Got? then Got(Pairs(p.result.value)) else Fail(p.result), n.used + p.used)
  }

  function Fail<S, T>(r: Read<S>): Read<T>
    requires !r.Got?
  {
    if r.Underflow? then Underflow else Unguarded
  }

  /** `n` values of one type, first to last. */
  function DecodeItems(t: Ty, n: nat, s: seq<byte>): (p: Parsed<seq<Val>>)
    ensures p.used <= |s|
    ensures p.result.Got? ==> |p.result.value| == n
    decreases t, n + 1
  {
    if n == 0 then Parsed(Got([]), 0) else
    var first := Decode(t, s);
    if !first.result.Got? then Parsed(Fail(first.result), first.used) else
    var rest := DecodeItems(t, n - 1, s[first.used..]);
    Parsed(if rest.result.Got? then Got([first.result.value] + rest.result.value) else Fail(rest.result),
           first.used + rest.used)
  }

  predicate HasKey(entries: seq<Entry>, k: Val) {
    exists i :: 0 <= i < |entries| && entries[i].key == k
  }

  /** A map ignores an entry whose key it already holds. */
  function Insert(entries: seq<Entry>, e: Entry): seq<Entry> {
    if HasKey(entries, e.key) then entries else entries + [e]
  }

  /** A key and its value. */
  function DecodeEntry(k: Ty, v: Ty, s: seq<byte>): (p: Parsed<Entry>)
    ensures p.used <= |s|
    decreases Table(k, v), 0, 0
  {
    var key := Decode(k, s);
    if !key.result.Got? then Parsed(Fail(key.result), key.used) else
    var val := Decode(v, s[key.used..]);
    Parsed(if val.result.Got? then Got(Entry(key.result.value, val.result.value))
        else Fail(val.result), key.used + val.used)
  }

  /** `n` further entries for a map that holds `acc`. */
  function DecodeEntries(k: Ty, v: Ty, n: nat, s: seq<byte>, acc: seq<Entry>): (p: Parsed<seq<Entry>>)
    ensures p.used <= |s|
    decreases Table(k, v), 0, n + 1
  {
    if n == 0 then Parsed(Got(acc), 0) else
    var e := DecodeEntry(k, v, s);
    if !e.result.Got? then Parsed(Fail(e.result), e.used) else
    var rest := DecodeEntries(k, v, n - 1, s[e.used..], Insert(acc, e.result.value));
    Parsed(rest.result, e.used + rest.used)
  }

  // ---- the layout of what is written ----

  /** The bytes of a number, the lowest first. */
  ghost predicate IsNumber(s: seq<byte>, n: nat, w: nat) {
    |s| == w && forall i :: 0 <= i < w ==> Power(i) > 0 && s[i] as nat == n / Power(i) % 256
  }

  ghost predicate At(s: seq<byte>, from: nat, part: seq<byte>) {
    from + |part| <= |s| && s[from..from + |part|] == part
  }

  /** The number of bytes of the first `k` elements. */
  ghost function ItemsBefore(items: seq<Val>, t: Ty, k: nat): nat
    requires AllTyped(items, t) && k <= |items|
  {
    if k == 0 then 0 else ItemsBefore(items, t, k - 1) + |Encode(items[k - 1], t)|
  }

  ghost function EntriesBefore(entries: seq<Entry>, k: Ty, v: Ty, n: nat): nat
    requires AllEntries(entries, k, v) && n <= |entries|
    decreases n
  {
    if n == 0 then 0 else
    var e := entries[n - 1];
    assert EntryTyped(e, k, v);
    EntriesBefore(entries, k, v, n - 1) + |Encode(e.key, k)| + |Encode(e.val, v)|
  }

  ghost predicate ItemsAt(s: seq<byte>, items: seq<Val>, t: Ty)
    requires AllTyped(items, t)
  {
    && |s| == SIZE_WIDTH + ItemsBefore(items, t, |items|)
    && forall k :: 0 <= k < |items| ==> At(s, SIZE_WIDTH + ItemsBefore(items, t, k), Encode(items[k], t))
  }

  ghost predicate EntriesAt(s: seq<byte>, entries: seq<Entry>, k: Ty, v: Ty)
    requires AllEntries(entries, k, v)
  {
    && |s| == SIZE_WIDTH + EntriesBefore(entries, k, v, |entries|)
    && forall n :: 0 <= n < |entries| ==>
         EntryAt(s, SIZE_WIDTH + EntriesBefore(entries, k, v, n), entries[n], k, v)
  }

  /** Scalars by their bytes, strings as their length and their characters, vectors and maps as their number of
      elements and then these one after the other, of a map first the key. */
  ghost predicate HasLayout(v: Val, t: Ty, s: seq<byte>)
    requires HasType(v, t)
  {
    match (v, t)
    case (Num(bits), Scalar(w)) => IsNumber(s, bits, w)
    case (Bool(on), Flag) => |s| == 1 && s[0] == if on then 1 else 0
    case (Str(chars), Text) =>
      |s| == SIZE_WIDTH + |chars| && IsNumber(s[..SIZE_WIDTH], |chars|, SIZE_WIDTH) && At(s, SIZE_WIDTH, chars)
    case (List(items), Vector(e)) =>
      |s| >= SIZE_WIDTH && IsNumber(s[..SIZE_WIDTH], |items|, SIZE_WIDTH) && ItemsAt(s, items, e)
    case (Pairs(entries), Table(key, val)) =>
      |s| >= SIZE_WIDTH && IsNumber(s[..SIZE_WIDTH], |entries|, SIZE_WIDTH) && EntriesAt(s, entries, key, val)
  }

  ghost predicate EntryAt(s: seq<byte>, from: nat, e: Entry, k: Ty, v: Ty)
    requires EntryTyped(e, k, v)
  {
    At(s, from, Encode(e.key, k)) && At(s, from + |Encode(e.key, k)|, Encode(e.val, v))
  }

  lemma {:induction false} DivideTwice(n: nat, i: nat)
    ensures Power(i) > 0 && n / 256 / Power(i) == n / Power(i + 1)
  {
    if i > 0 {
      DivideTwice(n / 256, i - 1);
      DivideTwice(n, i - 1);
    }
    assert n / 256 / Power(i) == n / (256 * Power(i)) by {
      DivideBy(n, Power(i));
    }
  }

  lemma DivideBy(n: nat, p: nat)
    requires p > 0
    ensures 256 * p > 0 && n / 256 / p == n / (256 * p)
  {
    var q := n / 256 / p;
    assert p * q <= n / 256 < p * (q + 1);
    assert 256 * (p * q) <= n < 256 * (p * (q + 1));
    Quotient(n, 256 * p, q);
  }

  lemma Quotient(n: nat, d: nat, q: nat)
    requires d > 0 && d * q <= n < d * (q + 1)
    ensures n / d == q
  {
    Product(d, n / d, q);
    Product(d, q, n / d);
  }

  lemma Product(d: nat, q: nat, r: nat)
    ensures q < r ==> d * (q + 1) <= d * r
  {
  }

  lemma {:induction false} NumberLayout(n: nat, w: nat)
    ensures IsNumber(LittleEndian(n, w), n, w)
    decreases w
  {
    if w > 0 {
      NumberLayout(n / 256, w - 1);
      var s := LittleEndian(n, w);
      forall i | 0 <= i < w ensures Power(i) > 0 && s[i] as nat == n / Power(i) % 256 {
        if i > 0 {
          DivideTwice(n, i - 1);
          assert s[i] == LittleEndian(n / 256, w - 1)[i - 1];
        }
      }
    }
  }

  lemma {:induction false} BeforeTail(items: seq<Val>, t: Ty, k: nat)
    requires AllTyped(items, t) && 1 <= k <= |items|
    ensures AllTyped(items[1..], t)
    ensures ItemsBefore(items, t, k) == |Encode(items[0], t)| + ItemsBefore(items[1..], t, k - 1)
    decreases k
  {
    hide Encode, HasType;
    if k > 1 {
      BeforeTail(items, t, k - 1);
    }
  }

  /** The elements of a vector, in order and without gaps. */
  lemma {:induction false} ItemLayout(items: seq<Val>, t: Ty, k: nat)
    requires AllTyped(items, t) && k <= |items|
    ensures k == |items| ==> |EncodeItems(items, t)| == ItemsBefore(items, t, k)
    ensures k < |items| ==> At(EncodeItems(items, t), ItemsBefore(items, t, k), Encode(items[k], t))
    decreases k
  {
    hide Encode, HasType, At;
    if k > 0 {
      BeforeTail(items, t, k);
      ItemLayout(items[1..], t, k - 1);
      if k < |items| {
        assert items[k] == items[1..][k - 1];
        hide AllTyped, ItemsBefore;
        Later(Encode(items[0], t), EncodeItems(items[1..], t), ItemsBefore(items[1..], t, k - 1), Encode(items[k], t));
      }
    } else if items != [] {
      First(Encode(items[0], t), EncodeItems(items[1..], t));
    }
  }

  lemma First(head: seq<byte>, rest: seq<byte>)
    ensures At(head + rest, 0, head)
  {
  }

  lemma Later(head: seq<byte>, rest: seq<byte>, from: nat, part: seq<byte>)
    requires At(rest, from, part)
    ensures At(head + rest, |head| + from, part)
  {
  }

  lemma {:induction false} EntriesTail(entries: seq<Entry>, k: Ty, v: Ty, n: nat)
    requires AllEntries(entries, k, v) && 1 <= n <= |entries|
    ensures AllEntries(entries[1..], k, v) && EntryTyped(entries[0], k, v)
    ensures EntriesBefore(entries, k, v, n)
         == |EncodeEntry(entries[0], k, v)| + EntriesBefore(entries[1..], k, v, n - 1)
    decreases n
  {
    hide Encode, HasType;
    if n > 1 {
      EntriesTail(entries, k, v, n - 1);
    }
  }

  lemma {:induction false} EntryLayout(entries: seq<Entry>, k: Ty, v: Ty, n: nat)
    requires AllEntries(entries, k, v) && n <= |entries|
    ensures n == |entries| ==> |EncodeEntries(entries, k, v)| == EntriesBefore(entries, k, v, n)
    ensures n < |entries| ==>
              && EntryTyped(entries[n], k, v)
              && EntryAt(EncodeEntries(entries, k, v), EntriesBefore(entries, k, v, n), entries[n], k, v)
    decreases n
  {
    hide Encode, HasType, EntryAt;
    if n > 0 {
      EntriesTail(entries, k, v, n);
      EntryLayout(entries[1..], k, v, n - 1);
      if n < |entries| {
        assert entries[n] == entries[1..][n - 1] && EntryTyped(entries[n], k, v);
        hide AllEntries, EntriesBefore, EntryTyped;
        EntryLater(EncodeEntry(entries[0], k, v), EncodeEntries(entries[1..], k, v),
                   EntriesBefore(entries[1..], k, v, n - 1), entries[n], k, v);
      }
    } else if entries != [] {
      FirstEntry(entries[0], k, v, EncodeEntries(entries[1..], k, v));
    }
  }

  lemma FirstEntry(e: Entry, k: Ty, v: Ty, rest: seq<byte>)
    requires EntryTyped(e, k, v)
    ensures EntryAt(EncodeEntry(e, k, v) + rest, 0, e, k, v)
  {
    hide Encode, HasType;
  }

  lemma EntryLater(head: seq<byte>, rest: seq<byte>, from: nat, e: Entry, k: Ty, v: Ty)
    requires EntryTyped(e, k, v) && EntryAt(rest, from, e, k, v)
    ensures EntryAt(head + rest, |head| + from, e, k, v)
  {
    hide Encode, HasType, At;
    Later(head, rest, from, Encode(e.key, k));
    Later(head, rest, from + |Encode(e.key, k)|, Encode(e.val, v));
  }

  lemma ItemsAreAt(size: seq<byte>, items: seq<Val>, t: Ty)
    requires AllTyped(items, t) && |size| == SIZE_WIDTH
    ensures ItemsAt(size + EncodeItems(items, t), items, t)
  {
    hide Encode, HasType, At, EncodeItems, ItemsBefore;
    ItemLayout(items, t, |items|);
    forall k | 0 <= k < |items|
      ensures At(size + EncodeItems(items, t), SIZE_WIDTH + ItemsBefore(items, t, k), Encode(items[k], t))
    {
      ItemLayout(items, t, k);
      Later(size, EncodeItems(items, t), ItemsBefore(items, t, k), Encode(items[k], t));
    }
  }

  lemma EntriesAreAt(size: seq<byte>, entries: seq<Entry>, k: Ty, v: Ty)
    requires AllEntries(entries, k, v) && |size| == SIZE_WIDTH
    ensures EntriesAt(size + EncodeEntries(entries, k, v), entries, k, v)
  {
    hide Encode, HasType, EntryAt, EncodeEntries, EntriesBefore, EntryTyped;
    EntryLayout(entries, k, v, |entries|);
    forall n | 0 <= n < |entries|
      ensures EntryAt(size + EncodeEntries(entries, k, v), SIZE_WIDTH + EntriesBefore(entries, k, v, n), entries[n],
                      k, v)
    {
      EntryLayout(entries, k, v, n);
      EntryLater(size, EncodeEntries(entries, k, v), EntriesBefore(entries, k, v, n), entries[n], k, v);
    }
  }

  lemma Begins(a: seq<byte>, b: seq<byte>)
    ensures (a + b)[..|a|] == a && (a + b)[|a|..] == b
  {
  }

  /** What every byte of an encoded value is. */
  lemma Layout(v: Val, t: Ty)
    requires HasType(v, t)
    ensures HasLayout(v, t, Encode(v, t))
  {
    match v {
      case Num(bits) => NumberLayout(bits, t.width);
      case Bool(on) =>
      case Str(chars) =>
        NumberLayout(|chars|, SIZE_WIDTH);
        Begins(LittleEndian(|chars|, SIZE_WIDTH), chars);
        hide IsNumber, LittleEndian;
      case List(items) =>
        NumberLayout(|items|, SIZE_WIDTH);
        ItemsAreAt(LittleEndian(|items|, SIZE_WIDTH), items, t.elem);
        Begins(LittleEndian(|items|, SIZE_WIDTH), EncodeItems(items, t.elem));
        hide ItemsAt, IsNumber, EncodeItems, LittleEndian;
      case Pairs(entries) =>
        NumberLayout(|entries|, SIZE_WIDTH);
        EntriesAreAt(LittleEndian(|entries|, SIZE_WIDTH), entries, t.key, t.val);
        Begins(LittleEndian(|entries|, SIZE_WIDTH), EncodeEntries(entries, t.key, t.val));
        hide EntriesAt, IsNumber, EncodeEntries, LittleEndian;
    }
  }

  // ---- what is read is well-typed ----

  /** Scalars of one to eight bytes. */
  predicate Sized(t: Ty) {
    match t
    case Scalar(w) => 1 <= w <= 8
    case Flag => true
    case Text => true
    case Vector(e) => Sized(e)
    case Table(k, v) => Sized(k) && Sized(v)
  }

  lemma {:induction false} FitsInPower(s: seq<byte>)
    ensures FromLittleEndian(s) < Power(|s|)
  {
    if s != [] {
      FitsInPower(s[1..]);
    }
  }

  /** Whatever bytes a value is read from, it has the type that was asked for, and each value consumed at least
      one byte. */
  lemma {:induction false} DecodedIsTyped(t: Ty, s: seq<byte>)
    requires Sized(t) && |s| < WORD
    ensures Decode(t, s).result.Got? ==> HasType(Decode(t, s).result.value, t) && Decode(t, s).used >= 1
    decreases t, 0
  {
    match t
    case Scalar(w) =>
      if w <= |s| {
        FitsInPower(s[..w]);
      }
    case Flag =>
    case Text =>
    case Vector(e) =>
      var n := Raw(SIZE_WIDTH, s);
      if n.result.Got? {
        DecodedItems(e, FromLittleEndian(n.result.value), s[n.used..]);
      }
    case Table(k, v) =>
      var n := Raw(SIZE_WIDTH, s);
      if n.result.Got? {
        DecodedEntries(k, v, FromLittleEndian(n.result.value), s[n.used..], []);
      }
  }

  lemma {:induction false} DecodedItems(t: Ty, n: nat, s: seq<byte>)
    requires Sized(t) && |s| < WORD
    ensures var p := DecodeItems(t, n, s); p.result.Got? ==> AllTyped(p.result.value, t) && n <= p.used
    decreases t, n + 1
  {
    if n > 0 {
      DecodedIsTyped(t, s);
      var first := Decode(t, s);
      if first.result.Got? {
        hide HasType, Decode, Sized;
        DecodedItems(t, n - 1, s[first.used..]);
      }
    }
  }

  lemma {:induction false} DecodedEntries(k: Ty, v: Ty, n: nat, s: seq<byte>, acc: seq<Entry>)
    requires Sized(k) && Sized(v) && |s| < WORD && AllEntries(acc, k, v) && NoDuplicates(acc)
    ensures var p := DecodeEntries(k, v, n, s, acc);
            p.result.Got? ==>
              && AllEntries(p.result.value, k, v) && NoDuplicates(p.result.value)
              && n <= p.used && |p.result.value| <= |acc| + n
    decreases Table(k, v), 0, n + 1
  {
    hide *;
    if n == 0 {
      NoEntries(k, v, s, acc);
    } else {
      OneEntry(k, v, n, s, acc);
      var e := DecodeEntry(k, v, s);
      if e.result.Got? {
        EntryIsTyped(k, v, s);
        Inserted(acc, e.result.value, k, v);
        DecodedEntries(k, v, n - 1, s[e.used..], Insert(acc, e.result.value));
      }
    }
  }

  lemma NoEntries(k: Ty, v: Ty, s: seq<byte>, acc: seq<Entry>)
    ensures DecodeEntries(k, v, 0, s, acc) == Parsed(Got(acc), 0)
  {
  }

  lemma OneEntry(k: Ty, v: Ty, n: nat, s: seq<byte>, acc: seq<Entry>)
    requires n > 0
    ensures var p, e := DecodeEntries(k, v, n, s, acc), DecodeEntry(k, v, s);
            if e.result.Got? then
              var rest := DecodeEntries(k, v, n - 1, s[e.used..], Insert(acc, e.result.value));
              p == Parsed(rest.result, e.used + rest.used)
            else !p.result.Got?
  {
    hide DecodeEntry, Insert;
  }

  lemma Inserted(acc: seq<Entry>, e: Entry, k: Ty, v: Ty)
    requires AllEntries(acc, k, v) && NoDuplicates(acc) && EntryTyped(e, k, v)
    ensures AllEntries(Insert(acc, e), k, v) && NoDuplicates(Insert(acc, e)) && |Insert(acc, e)| <= |acc| + 1
  {
    hide HasType;
  }

  lemma EntryIsTyped(k: Ty, v: Ty, s: seq<byte>)
    requires Sized(k) && Sized(v) && |s| < WORD && DecodeEntry(k, v, s).result.Got?
    ensures EntryTyped(DecodeEntry(k, v, s).result.value, k, v) && DecodeEntry(k, v, s).used >= 1
    decreases Table(k, v), 0, 0
  {
    DecodedIsTyped(k, s);
    DecodedIsTyped(v, s[Decode(k, s).used..]);
  }

  // ---- the round trip ----

  lemma RawPrefix(a: seq<byte>, rest: seq<byte>)
    requires |a| < WORD
    ensures Raw(|a|, a + rest) == Parsed(Got(a), |a|) && (a + rest)[|a|..] == rest
  {
    assert (a + rest)[..|a|] == a;
  }

  lemma SizePrefix(n: nat, rest: seq<byte>)
    requires n < WORD
    ensures var a := LittleEndian(n, SIZE_WIDTH);
            && Raw(SIZE_WIDTH, a + rest) == Parsed(Got(a), SIZE_WIDTH)
            && FromLittleEndian(a) == n && (a + rest)[SIZE_WIDTH..] == rest
  {
    RawPrefix(LittleEndian(n, SIZE_WIDTH), rest);
    SizeFits(n);
    ScalarRoundTrip(n, SIZE_WIDTH);
  }

  /** Reading the same type back yields the value and consumes exactly what was written. */
  lemma {:induction false} RoundTrip(v: Val, t: Ty, rest: seq<byte>)
    requires HasType(v, t)
    ensures Decode(t, Encode(v, t) + rest) == Parsed(Got(v), |Encode(v, t)|)
    decreases v, 1
  {
    match (v, t)
    case (Num(bits), Scalar(w)) =>
      RawPrefix(LittleEndian(bits, w), rest);
      ScalarRoundTrip(bits, w);
    case (Bool(on), Flag) =>
      RawPrefix([if on then 1 else 0], rest);
    case (Str(chars), Text) =>
      SizePrefix(|chars|, chars + rest);
      RawPrefix(chars, rest);
      Assoc(LittleEndian(|chars|, SIZE_WIDTH), chars, rest);
    case (List(items), Vector(e)) =>
      SizePrefix(|items|, EncodeItems(items, e) + rest);
      RoundTripItems(items, e, rest);
      Assoc(LittleEndian(|items|, SIZE_WIDTH), EncodeItems(items, e), rest);
    case (Pairs(entries), Table(k, val)) =>
      SizePrefix(|entries|, EncodeEntries(entries, k, val) + rest);
      assert [] + entries == entries;
      RoundTripEntries(entries, k, val, rest, []);
      Assoc(LittleEndian(|entries|, SIZE_WIDTH), EncodeEntries(entries, k, val), rest);
  }

  lemma Assoc(a: seq<byte>, b: seq<byte>, c: seq<byte>)
    ensures a + b + c == a + (b + c)
    ensures (a + (b + c))[|a|..] == b + c
  {
  }

  lemma {:induction false} RoundTripItems(items: seq<Val>, t: Ty, rest: seq<byte>)
    requires AllTyped(items, t)
    ensures DecodeItems(t, |items|, EncodeItems(items, t) + rest) == Parsed(Got(items), |EncodeItems(items, t)|)
    decreases items, 0
  {
    if items != [] {
      var a, b := Encode(items[0], t), EncodeItems(items[1..], t);
      Assoc(a, b, rest);
      RoundTrip(items[0], t, b + rest);
      RoundTripItems(items[1..], t, rest);
      assert [items[0]] + items[1..] == items;
    }
  }

  /** `acc`: the entries read so far. */
  lemma {:induction false} RoundTripEntries(entries: seq<Entry>, k: Ty, v: Ty, rest: seq<byte>, acc: seq<Entry>)
    requires AllEntries(entries, k, v) && NoDuplicates(acc + entries)
    ensures DecodeEntries(k, v, |entries|, EncodeEntries(entries, k, v) + rest, acc)
         == Parsed(Got(acc + entries), |EncodeEntries(entries, k, v)|)
    decreases entries, 0
  {
    if entries == [] {
      assert acc + entries == acc;
    } else {
      hide *;
      var e, more := entries[0], entries[1..];
      EncodedEntries(entries, k, v, rest);
      NewKey(acc, entries);
      RoundTripEntry(e, k, v, EncodeEntries(more, k, v) + rest);
      RoundTripEntries(more, k, v, rest, acc + [e]);
      DecodedEntry(e, k, v, |entries|, EncodeEntries(entries, k, v) + rest, acc, |EncodeEntry(e, k, v)|,
                   EncodeEntries(more, k, v) + rest);
    }
  }

  lemma EncodedEntries(entries: seq<Entry>, k: Ty, v: Ty, rest: seq<byte>)
    requires AllEntries(entries, k, v) && entries != []
    ensures EntryTyped(entries[0], k, v) && AllEntries(entries[1..], k, v)
    ensures var a, b := EncodeEntry(entries[0], k, v), EncodeEntries(entries[1..], k, v);
            && EncodeEntries(entries, k, v) == a + b && EncodeEntries(entries, k, v) + rest == a + (b + rest)
            && (a + (b + rest))[|a|..] == b + rest
  {
    hide EncodeEntry, EntryTyped;
    Assoc(EncodeEntry(entries[0], k, v), EncodeEntries(entries[1..], k, v), rest);
  }

  /** One entry read off the front of `s`. */
  lemma DecodedEntry(e: Entry, k: Ty, v: Ty, n: nat, s: seq<byte>, acc: seq<Entry>, a: nat, t: seq<byte>)
    requires n > 0 && a <= |s| && s[a..] == t && !HasKey(acc, e.key)
    requires DecodeEntry(k, v, s) == Parsed(Got(e), a)
    ensures var p := DecodeEntries(k, v, n - 1, t, acc + [e]);
            DecodeEntries(k, v, n, s, acc) == Parsed(p.result, a + p.used)
  {
    hide DecodeEntry, HasKey;
  }

  lemma {:induction false} RoundTripEntry(e: Entry, k: Ty, v: Ty, rest: seq<byte>)
    requires EntryTyped(e, k, v)
    ensures DecodeEntry(k, v, EncodeEntry(e, k, v) + rest) == Parsed(Got(e), |EncodeEntry(e, k, v)|)
    decreases e, 0
  {
    var a, b := Encode(e.key, k), Encode(e.val, v);
    Assoc(a, b, rest);
    RoundTrip(e.key, k, b + rest);
    RoundTrip(e.val, v, rest);
    hide Encode, Decode;
  }

  lemma NewKey(acc: seq<Entry>, entries: seq<Entry>)
    requires entries != [] && NoDuplicates(acc + entries)
    ensures !HasKey(acc, entries[0].key) && acc + [entries[0]] + entries[1..] == acc + entries
  {
    var all := acc + entries;
    assert all[|acc|] == entries[0];
    forall i | 0 <= i < |acc| ensures acc[i].key != entries[0].key {
      assert all[i] == acc[i];
    }
  }

  // ---- messages: several values of several types, one after the other ----

  datatype Field = Field(val: Val, ty: Ty)

  predicate WellTyped(fields: seq<Field>) {
    forall i :: 0 <= i < |fields| ==> HasType(fields[i].val, fields[i].ty)
  }

  function Types(fields: seq<Field>): seq<Ty> {
    if fields == [] then [] else [fields[0].ty] + Types(fields[1..])
  }

  function Values(fields: seq<Field>): seq<Val> {
    if fields == [] then [] else [fields[0].val] + Values(fields[1..])
  }

  function EncodeMessage(fields: seq<Field>): seq<byte>
    requires WellTyped(fields)
  {
    if fields == [] then [] else Encode(fields[0].val, fields[0].ty) + EncodeMessage(fields[1..])
  }

  function DecodeMessage(types: seq<Ty>, s: seq<byte>): (p: Parsed<seq<Val>>)
    ensures p.used <= |s|
  {
    if types == [] then Parsed(Got([]), 0) else
    var first := Decode(types[0], s);
    if !first.result.Got? then Parsed(Fail(first.result), first.used) else
    var rest := DecodeMessage(types[1..], s[first.used..]);
    Parsed(if rest.result.Got? then Got([first.result.value] + rest.result.value) else Fail(rest.result),
           first.used + rest.used)
  }

  lemma {:induction false} MessageRoundTrip(fields: seq<Field>, rest: seq<byte>)
    requires WellTyped(fields)
    ensures DecodeMessage(Types(fields), EncodeMessage(fields) + rest)
            == Parsed(Got(Values(fields)), |EncodeMessage(fields)|)
  {
    if fields != [] {
      hide HasType, Encode, Decode;
      var a, b := Encode(fields[0].val, fields[0].ty), EncodeMessage(fields[1..]);
      Assoc(a, b, rest);
      RoundTrip(fields[0].val, fields[0].ty, b + rest);
      MessageRoundTrip(fields[1..], rest);
      assert Types(fields)[1..] == Types(fields[1..]);
    }
  }

  // ---- truncation ----

  predicate Truncates(s: seq<byte>, whole: seq<byte>) {
    s <= whole && |s| < |whole|
  }

  lemma Split(s: seq<byte>, a: seq<byte>, b: seq<byte>)
    requires Truncates(s, a + b)
    ensures if |s| < |a| then Truncates(s, a) else s == a + s[|a|..] && Truncates(s[|a|..], b)
  {
    if |s| >= |a| {
      assert s[..|a|] == a;
    }
  }

  /** Of a value that was cut off, no reading succeeds, and it is always noticed before the end is passed. */
  lemma {:induction false} Truncated(v: Val, t: Ty, s: seq<byte>)
    requires HasType(v, t) && Truncates(s, Encode(v, t))
    ensures Decode(t, s).result == Underflow
    decreases v, 1
  {
    hide LittleEndian, FromLittleEndian, Power, DecodeItems, DecodeEntries, EncodeItems, EncodeEntries, AllTyped,
      AllEntries, NoDuplicates;
    match (v, t)
    case (Num(bits), Scalar(w)) =>
    case (Bool(on), Flag) =>
    case (Str(chars), Text) =>
      TruncatedSize(|chars|, chars, s);
    case (List(items), Vector(e)) =>
      TruncatedSize(|items|, EncodeItems(items, e), s);
      if |s| >= SIZE_WIDTH {
        TruncatedItems(items, e, s[SIZE_WIDTH..]);
      }
    case (Pairs(entries), Table(k, val)) =>
      TruncatedSize(|entries|, EncodeEntries(entries, k, val), s);
      if |s| >= SIZE_WIDTH {
        TruncatedEntries(entries, k, val, s[SIZE_WIDTH..], []);
      }
  }

  lemma TruncatedSize(n: nat, rest: seq<byte>, s: seq<byte>)
    requires n < WORD && Truncates(s, LittleEndian(n, SIZE_WIDTH) + rest)
    ensures if |s| < SIZE_WIDTH then Raw(SIZE_WIDTH, s).result == Underflow
            else var p := Raw(SIZE_WIDTH, s);
                 && p.result.Got? && FromLittleEndian(p.result.value) == n && p.used == SIZE_WIDTH
                 && Truncates(s[SIZE_WIDTH..], rest)
  {
    var a := LittleEndian(n, SIZE_WIDTH);
    Split(s, a, rest);
    if |s| >= SIZE_WIDTH {
      SizePrefix(n, s[SIZE_WIDTH..]);
    }
  }

  lemma {:induction false} TruncatedItems(items: seq<Val>, t: Ty, s: seq<byte>)
    requires AllTyped(items, t) && Truncates(s, EncodeItems(items, t))
    ensures DecodeItems(t, |items|, s).result == Underflow
    decreases items, 0
  {
    var a := Encode(items[0], t);
    Split(s, a, EncodeItems(items[1..], t));
    if |s| < |a| {
      Truncated(items[0], t, s);
    } else {
      RoundTrip(items[0], t, s[|a|..]);
      TruncatedItems(items[1..], t, s[|a|..]);
    }
  }

  lemma {:induction false} TruncatedEntries(entries: seq<Entry>, k: Ty, v: Ty, s: seq<byte>, acc: seq<Entry>)
    requires AllEntries(entries, k, v) && Truncates(s, EncodeEntries(entries, k, v))
    ensures DecodeEntries(k, v, |entries|, s, acc).result == Underflow
    decreases entries, 0
  {
    hide Encode, Decode, EntryTyped, EncodeEntry, DecodeEntry, Insert;
    var e := entries[0];
    var a := EncodeEntry(e, k, v);
    Split(s, a, EncodeEntries(entries[1..], k, v));
    if |s| < |a| {
      TruncatedEntry(e, k, v, s);
    } else {
      RoundTripEntry(e, k, v, s[|a|..]);
      TruncatedEntries(entries[1..], k, v, s[|a|..], Insert(acc, e));
    }
  }

  lemma {:induction false} TruncatedEntry(e: Entry, k: Ty, v: Ty, s: seq<byte>)
    requires EntryTyped(e, k, v) && Truncates(s, EncodeEntry(e, k, v))
    ensures DecodeEntry(k, v, s).result == Underflow
    decreases e, 0
  {
    var a := Encode(e.key, k);
    Split(s, a, Encode(e.val, v));
    if |s| < |a| {
      Truncated(e.key, k, s);
    } else {
      RoundTrip(e.key, k, s[|a|..]);
      Truncated(e.val, v, s[|a|..]);
    }
    hide Encode, Decode;
  }
}
