/** The byte buffer that messages are packed into: a fixed array with a read and a write cursor. */
module Buffers {
  import opened Seqs
  import opened Serialization

  /** What the space check makes of a write: there is room; exception; the failing assertion "resize not
      implemented"; or the check passes although there is no room. */
  datatype Outcome = Room | OutOfRange | NotImplemented | Undetected

  const DEFAULT_SIZE := 512
  const DEFAULT_MAX_SIZE := 65536

  function Min(a: nat, b: nat): nat { if a < b then a else b }

  function Max(a: nat, b: nat): nat { if a < b then b else a }

  /** `reserve`: growing is not implemented. */
  function Reserve(want: nat, size: nat, max: nat): Outcome {
    if want > max then OutOfRange
    else if want <= size then Room
    else NotImplemented
  }

  /** `ensure_free` for `n` bytes, computed in 32 bits. The doubling loop never runs. */
  function Guard(len: nat, n: nat, size: nat, max: nat): Outcome {
    var free := n % WORD;
    var sum := (len + free) % WORD;
    var o := if sum > size then Reserve(Max(Min(sum, max), free), size, max) else Room;
    if o == Room && len + n > size then Undetected else o
  }

  /** Exactly when the check lets a write through that does not fit: the 32-bit sum wraps into the buffer,
      or the buffer may not grow beyond its size and the write alone is within that limit. */
  lemma GuardExact(len: nat, n: nat, size: nat, max: nat)
    requires len <= size < WORD && max < WORD
    ensures Guard(len, n, size, max) == Room <==> len + n <= size
    ensures Guard(len, n, size, max) == Undetected <==>
              len + n > size && ((len + n % WORD) % WORD <= size || n % WORD <= max <= size)
    ensures len + n < WORD && size < max ==> Guard(len, n, size, max) != Undetected
  {
    if len + n < WORD {
      assert (len + n) % WORD == len + n;
    }
  }

  /** A message's buffer has the default size and limit: a write that does not fit is refused, by the exception
      if it alone is over the limit and otherwise by the assertion, unless the 32-bit sum wraps into the
      buffer, which takes a write of almost 4 gigabytes. */
  lemma MessageGuard(len: nat, n: nat)
    requires len <= DEFAULT_SIZE
    ensures var o := Guard(len, n, DEFAULT_SIZE, DEFAULT_MAX_SIZE);
            && (o == Room <==> len + n <= DEFAULT_SIZE)
            && (o == Undetected <==> len + n > DEFAULT_SIZE && (len + n % WORD) % WORD <= DEFAULT_SIZE)
            && (n + DEFAULT_SIZE < WORD ==>
                  && (o == OutOfRange <==> n > DEFAULT_MAX_SIZE)
                  && (o == NotImplemented <==> len + n > DEFAULT_SIZE && n <= DEFAULT_MAX_SIZE))
  {
    GuardExact(len, n, DEFAULT_SIZE, DEFAULT_MAX_SIZE);
  }

  /** Writes that pass the check without room: one whose length wraps, and one in a buffer that is as large as
      its limit. */
  lemma UndetectedWrites()
    ensures Guard(0, WORD, DEFAULT_SIZE, DEFAULT_MAX_SIZE) == Undetected
    ensures Guard(1, WORD - 1, DEFAULT_SIZE, DEFAULT_MAX_SIZE) == Undetected
    ensures Guard(1, DEFAULT_MAX_SIZE, DEFAULT_MAX_SIZE, DEFAULT_MAX_SIZE) == Undetected
  {
    assert WORD % WORD == 0;
  }

  class ByteBuffer {
    var pos: nat
    var len: nat
    var maxSize: nat
    const bytes: array<byte>

    ghost predicate Valid()
      reads this
    {
      pos <= len <= bytes.Length < WORD && maxSize < WORD
    }

    /** Everything written so far, read or not. */
    ghost function Content(): (s: seq<byte>)
      reads this, bytes
    {
      if Valid() then bytes[..len] else []
    }

    ghost function Unread(): (s: seq<byte>)
      reads this, bytes
    {
      if Valid() then bytes[pos..len] else []
    }

    constructor (initialSize: nat)
      requires initialSize < WORD
      ensures Valid() && fresh(bytes) && bytes.Length == initialSize && maxSize == DEFAULT_MAX_SIZE
      ensures pos == 0 && Content() == []
    {
      pos, len, maxSize := 0, 0, DEFAULT_MAX_SIZE;
      bytes := new byte[initialSize](_ => 0);
    }

    /** A buffer over received bytes. */
    constructor FromBytes(raw: array<byte>)
      requires raw.Length < WORD
      ensures Valid() && bytes == raw && maxSize == DEFAULT_MAX_SIZE && pos == 0 && Content() == raw[..]
    {
      pos, len, maxSize := 0, raw.Length, DEFAULT_MAX_SIZE;
      bytes := raw;
    }

    method SetMaxSize(max: nat) returns (ok: bool)
      requires Valid() && max < WORD
      modifies this`maxSize
      ensures Valid() && ok == (max >= bytes.Length) && maxSize == if ok then max else old(maxSize)
    {
      ok := max >= bytes.Length;
      if ok {
        maxSize := max;
      }
    }

    method Resize(size: nat) returns (o: Outcome)
      requires Valid() && size < WORD
      modifies this`pos, this`len
      ensures Valid() && (o == Room <==> size <= maxSize && size <= bytes.Length)
      ensures if o == Room then pos == 0 && len == size else pos == old(pos) && len == old(len)
    {
      o := Reserve(size, bytes.Length, maxSize);
      if o == Room {
        pos, len := 0, size;
      }
    }

    method Size() returns (n: nat)
      requires Valid()
      ensures n == |Unread()|
    {
      n := len - pos;
    }

    // ---- writing ----

    /** Check for space and copy; the body of every primitive write. */
    method Put(data: seq<byte>) returns (o: Outcome)
      requires Valid()
      modifies this`len, bytes
      ensures Valid()
      ensures o == Guard(old(len), |data|, bytes.Length, maxSize)
      ensures o == Room <==> old(len) + |data| <= bytes.Length
      ensures Content() == if o == Room then old(Content()) + data else old(Content())
    {
      GuardExact(len, |data|, bytes.Length, maxSize);
      o := Guard(len, |data|, bytes.Length, maxSize);
      if o == Room {
        forall i | 0 <= i < |data| {
          bytes[len + i] := data[i];
        }
        len := len + |data|;
      }
    }

    method Write(v: Val, t: Ty) returns (o: Outcome)
      requires Valid() && HasType(v, t)
      modifies this`len, bytes
      ensures Valid() && Wrote(old(Content()), Encode(v, t), Content(), o, bytes.Length, maxSize)
      decreases v, 1
    {
      match (v, t)
      case (Num(bits), Scalar(w)) =>
        o := WritePrimitive(LittleEndian(bits, w));
      case (Bool(on), Flag) =>
        o := WritePrimitive([if on then 1 else 0]);
      case (Str(chars), Text) =>
        o := WriteText(chars);
      case (List(items), Vector(e)) =>
        o := WriteItems(items, e);
      case (Pairs(entries), Table(k, val)) =>
        o := WriteEntries(entries, k, val);
    }

    method WritePrimitive(data: seq<byte>) returns (o: Outcome)
      requires Valid()
      modifies this`len, bytes
      ensures Valid() && Wrote(old(Content()), data, Content(), o, bytes.Length, maxSize)
    {
      GuardExact(len, |data|, bytes.Length, maxSize);
      o := Put(data);
    }

    method WriteText(chars: seq<byte>) returns (o: Outcome)
      requires Valid()
      modifies this`len, bytes
      ensures Valid()
      ensures Wrote(old(Content()), LittleEndian(|chars|, SIZE_WIDTH) + chars, Content(), o, bytes.Length, maxSize)
    {
      ghost var before, size := Content(), LittleEndian(|chars|, SIZE_WIDTH);
      o := WritePrimitive(LittleEndian(|chars|, SIZE_WIDTH));
      WritePart(before, size + chars, before, size, chars, Content(), o, bytes.Length, maxSize);
      if o == Room {
        ghost var mid := Content();
        o := WritePrimitive(chars);
        WritePart(before, size + chars, mid, chars, [], Content(), o, bytes.Length, maxSize);
      }
      WriteEnd(before, size + chars, Content(), o, bytes.Length, maxSize);
    }

    method WriteItems(items: seq<Val>, t: Ty) returns (o: Outcome)
      requires Valid() && AllTyped(items, t)
      modifies this`len, bytes
      ensures Valid()
      ensures Wrote(old(Content()), LittleEndian(|items|, SIZE_WIDTH) + EncodeItems(items, t), Content(), o,
                    bytes.Length, maxSize)
      decreases items, 0
    {
      ghost var before, size := Content(), LittleEndian(|items|, SIZE_WIDTH);
      ghost var enc := size + EncodeItems(items, t);
      o := WritePrimitive(LittleEndian(|items|, SIZE_WIDTH));
      WritePart(before, enc, before, size, EncodeItems(items, t), Content(), o, bytes.Length, maxSize);
      hide *;
      ItemsAll(items, t);
      var i := 0;
      while i < |items| && o == Room
        invariant 0 <= i <= |items| && Valid()
        invariant Writing(before, enc, Content(), TodoItems(items, t, i), o, bytes.Length, maxSize)
      {
        ghost var mid := Content();
        ItemsFrom(items, t, i);
        o := Write(items[i], t);
        WritePart(before, enc, mid, Encode(items[i], t), TodoItems(items, t, i + 1), Content(), o, bytes.Length,
            maxSize);
        i := i + 1;
      }
      ItemsFrom(items, t, i);
      WriteEnd(before, enc, Content(), o, bytes.Length, maxSize);
    }

    method WriteEntries(entries: seq<Entry>, k: Ty, v: Ty) returns (o: Outcome)
      requires Valid() && AllEntries(entries, k, v)
      modifies this`len, bytes
      ensures Valid()
      ensures Wrote(old(Content()), LittleEndian(|entries|, SIZE_WIDTH) + EncodeEntries(entries, k, v), Content(), o,
                    bytes.Length, maxSize)
      decreases entries, 0
    {
      ghost var before, size := Content(), LittleEndian(|entries|, SIZE_WIDTH);
      ghost var enc := size + EncodeEntries(entries, k, v);
      o := WritePrimitive(LittleEndian(|entries|, SIZE_WIDTH));
      WritePart(before, enc, before, size, EncodeEntries(entries, k, v), Content(), o, bytes.Length, maxSize);
      hide *;
      EntriesAll(entries, k, v);
      var i := 0;
      while i < |entries| && o == Room
        invariant 0 <= i <= |entries| && Valid()
        invariant Writing(before, enc, Content(), TodoEntries(entries, k, v, i), o, bytes.Length, maxSize)
      {
        ghost var mid := Content();
        EntriesFrom(entries, k, v, i);
        o := WriteEntry(entries[i], k, v);
        WritePart(before, enc, mid, EncodeEntry(entries[i], k, v), TodoEntries(entries, k, v, i + 1), Content(), o,
                  bytes.Length, maxSize);
        i := i + 1;
      }
      EntriesFrom(entries, k, v, i);
      WriteEnd(before, enc, Content(), o, bytes.Length, maxSize);
    }

    method WriteEntry(e: Entry, k: Ty, v: Ty) returns (o: Outcome)
      requires Valid() && EntryTyped(e, k, v)
      modifies this`len, bytes
      ensures Valid() && Wrote(old(Content()), EncodeEntry(e, k, v), Content(), o, bytes.Length, maxSize)
      decreases e, 0
    {
      ghost var before, key, val := Content(), Encode(e.key, k), Encode(e.val, v);
      o := Write(e.key, k);
      WritePart(before, key + val, before, key, val, Content(), o, bytes.Length, maxSize);
      if o == Room {
        ghost var mid := Content();
        o := Write(e.val, v);
        WritePart(before, key + val, mid, val, [], Content(), o, bytes.Length, maxSize);
      }
      WriteEnd(before, key + val, Content(), o, bytes.Length, maxSize);
    }

    // ---- reading ----

    /** Check for content and copy; the body of every primitive read. */
    method Take(n: nat) returns (r: Read<seq<byte>>)
      requires Valid()
      modifies this`pos
      ensures Valid() && ReadAs(Raw(n, old(Unread())), r, old(Unread()), Unread(), pos - old(pos))
      ensures r.Got? <==> n <= |old(Unread())|
      ensures if r.Got? then pos == old(pos) + n && r.value == old(Unread())[..n] else pos == old(pos)
    {
      if n % WORD > len - pos {
        r := Underflow;
      } else if n > len - pos {
        r := Unguarded;
      } else {
        r := Got(bytes[pos..pos + n]);
        assert bytes[pos..pos + n] == Unread()[..n];
        pos := pos + n;
      }
    }

    method Read(t: Ty) returns (r: Read<Val>)
      requires Valid()
      modifies this`pos
      ensures Valid() && ReadAs(Decode(t, old(Unread())), r, old(Unread()), Unread(), pos - old(pos))
      decreases t, 0
    {
      hide *;
      ghost var s := Unread();
      match t
      case Scalar(w) =>
        var raw := Take(w);
        r := if raw.Got? then Got(Num(FromLittleEndian(raw.value))) else Fail(raw);
        ScalarRead(w, s, raw, Unread(), pos - old(pos));
      case Flag =>
        var raw := Take(1);
        FlagRead(s, raw, Unread(), pos - old(pos));
        r := if raw.Got? then Got(Bool(raw.value[0] != 0)) else Fail(raw);
      case Text =>
        var size := Take(SIZE_WIDTH);
        ghost var s', m := Unread(), pos - old(pos);
        if size.Got? {
          var raw := Take(FromLittleEndian(size.value));
          r := if raw.Got? then Got(Str(raw.value)) else Fail(raw);
          TextRead(s, size, s', m, raw, Unread(), pos - old(pos) - m);
        } else {
          r := Fail(size);
          SizeFailed(t, s, size, s', m);
        }
      case Vector(e) =>
        var size := Take(SIZE_WIDTH);
        ghost var s', m := Unread(), pos - old(pos);
        if size.Got? {
          var items := ReadItems(e, FromLittleEndian(size.value));
          r := if items.Got? then Got(List(items.value)) else Fail(items);
          VectorRead(e, s, size, s', m, items, Unread(), pos - old(pos) - m);
        } else {
          r := Fail(size);
          SizeFailed(t, s, size, s', m);
        }
      case Table(k, v) =>
        var size := Take(SIZE_WIDTH);
        ghost var s', m := Unread(), pos - old(pos);
        if size.Got? {
          var entries := ReadEntries(k, v, FromLittleEndian(size.value));
          r := if entries.Got? then Got(Pairs(entries.value)) else Fail(entries);
          TableRead(k, v, s, size, s', m, entries, Unread(), pos - old(pos) - m);
        } else {
          r := Fail(size);
          SizeFailed(t, s, size, s', m);
        }
    }

    method ReadItems(t: Ty, n: nat) returns (r: Read<seq<Val>>)
      requires Valid()
      modifies this`pos
      ensures Valid() && ReadAs(DecodeItems(t, n, old(Unread())), r, old(Unread()), Unread(), pos - old(pos))
      decreases t, n + 1
    {
      r := Got([]);
      var i := 0;
      ghost var s := Unread();
      hide *;
      ItemsStart(t, n, s);
      while i < n && r.Got?
        invariant 0 <= i <= n && Valid() && old(pos) <= pos
        invariant ItemsLeft(t, n, s, r, pos - old(pos), n - i, Unread())
      {
        ghost var s', used := Unread(), pos - old(pos);
        var v := Read(t);
        ItemsStep(t, n, s, r.value, used, n - i, s', v, Unread(), pos - old(pos) - used);
        r := if v.Got? then Got(r.value + [v.value]) else Fail(v);
        i := i + 1;
      }
      ItemsEnd(t, n, s, r, pos - old(pos), n - i, Unread());
    }

    method ReadEntries(k: Ty, v: Ty, n: nat) returns (r: Read<seq<Entry>>)
      requires Valid()
      modifies this`pos
      ensures Valid() && ReadAs(DecodeEntries(k, v, n, old(Unread()), []), r, old(Unread()), Unread(), pos - old(pos))
      decreases Table(k, v), 0, n + 1
    {
      r := Got([]);
      var i := 0;
      ghost var s := Unread();
      hide *;
      EntriesStart(k, v, n, s);
      while i < n && r.Got?
        invariant 0 <= i <= n && Valid() && old(pos) <= pos
        invariant EntriesLeft(k, v, n, s, r, pos - old(pos), n - i, Unread())
      {
        ghost var s', used := Unread(), pos - old(pos);
        var e := ReadEntry(k, v);
        EntriesStep(k, v, n, s, r.value, used, n - i, s', e, Unread(), pos - old(pos) - used);
        r := if e.Got? then Got(Insert(r.value, e.value)) else Fail(e);
        i := i + 1;
      }
      EntriesEnd(k, v, n, s, r, pos - old(pos), n - i, Unread());
    }

    /** The body of the loop that reads a map, without the insertion. */
    method ReadEntry(k: Ty, v: Ty) returns (r: Read<Entry>)
      requires Valid()
      modifies this`pos
      ensures Valid() && ReadAs(DecodeEntry(k, v, old(Unread())), r, old(Unread()), Unread(), pos - old(pos))
      decreases Table(k, v), 0, 0
    {
      hide *;
      ghost var s := Unread();
      var key := Read(k);
      ghost var s', moved := Unread(), pos - old(pos);
      if !key.Got? {
        r := Fail(key);
        EntryRead(k, v, s, key, s', moved, key, s', 0);
      } else {
        var val := Read(v);
        r := if val.Got? then Got(Entry(key.value, val.value)) else Fail(val);
        EntryRead(k, v, s, key, s', moved, val, Unread(), pos - old(pos) - moved);
      }
    }
  
    // ---- whole messages ----

    /** Packs the fields one after the other and stops at the first failure. */
    method Pack(fields: seq<Field>) returns (o: Outcome)
      requires Valid() && WellTyped(fields)
      modifies this`len, bytes
      ensures Valid() && Wrote(old(Content()), EncodeMessage(fields), Content(), o, bytes.Length, maxSize)
      decreases |fields|
    {
      ghost var before, enc := Content(), EncodeMessage(fields);
      hide Encode, HasType, Writing, Wrote, Valid;
      o := Room;
      if fields == [] {
        PackNothing(this);
      } else {
        o := Write(fields[0].val, fields[0].ty);
        ghost var first, rest := Encode(fields[0].val, fields[0].ty), EncodeMessage(fields[1..]);
        WritePart(before, enc, before, first, rest, Content(), o, bytes.Length, maxSize);
        if o == Room {
          ghost var mid := Content();
          o := Pack(fields[1..]);
          assert rest + [] == rest;
          WritePart(before, enc, mid, rest, [], Content(), o, bytes.Length, maxSize);
        }
        WriteEnd(before, enc, Content(), o, bytes.Length, maxSize);
      }
    }

    method Unpack(types: seq<Ty>) returns (r: Read<seq<Val>>)
      requires Valid()
      modifies this`pos
      ensures Valid() && ReadAs(DecodeMessage(types, old(Unread())), r, old(Unread()), Unread(), pos - old(pos))
      decreases |types|
    {
      hide *;
      ghost var s := Unread();
      r := Got([]);
      if types == [] {
        MessageEnd(s);
      } else {
        var v := Read(types[0]);
        ghost var s', moved := Unread(), pos - old(pos);
        if !v.Got? {
          r := Fail(v);
          MessageStep(types, s, v, s', moved, r, s', 0);
        } else {
          var rest := Unpack(types[1..]);
          MessageStep(types, s, v, s', moved, rest, Unread(), pos - old(pos) - moved);
          r := if rest.Got? then Got([v.value] + rest.value) else Fail(rest);
        }
      }
    }

    /** What was packed into a buffer with nothing left to read is unpacked again, and nothing is left. */
    method PackUnpack(fields: seq<Field>) returns (o: Outcome, r: Read<seq<Val>>)
      requires Valid() && Unread() == [] && WellTyped(fields)
      modifies this`len, this`pos, bytes
      ensures Valid() && (o == Room <==> |old(Content())| + |EncodeMessage(fields)| <= bytes.Length)
      ensures o == Room ==>
                r == Got(Values(fields)) && Unread() == [] && Content() == old(Content()) + EncodeMessage(fields)
    {
      hide EncodeMessage, DecodeMessage, WellTyped;
      ghost var enc := EncodeMessage(fields);
      o := Pack(fields);
      r := Underflow;
      if o == Room {
        assert Unread() == enc == enc + [];
        MessageRoundTrip(fields, []);
        r := Unpack(Types(fields));
      }
    }
  }

  // ---- one read: what its parts did, put together ----

  lemma ScalarRead(w: nat, s: seq<byte>, raw: Read<seq<byte>>, s': seq<byte>, m: int)
    requires ReadAs(Raw(w, s), raw, s, s', m)
    ensures ReadAs(Decode(Scalar(w), s),
                   if raw.Got? then Got(Num(FromLittleEndian(raw.value))) else Fail(raw), s, s', m)
  {
  }

  lemma FlagRead(s: seq<byte>, raw: Read<seq<byte>>, s': seq<byte>, m: int)
    requires ReadAs(Raw(1, s), raw, s, s', m)
    ensures raw.Got? ==> |raw.value| == 1
    ensures ReadAs(Decode(Flag, s), if raw.Got? then Got(Bool(raw.value[0] != 0)) else Fail(raw), s, s', m)
  {
  }

  lemma SizeFailed(t: Ty, s: seq<byte>, size: Read<seq<byte>>, s': seq<byte>, m: int)
    requires ReadAs(Raw(SIZE_WIDTH, s), size, s, s', m) && !size.Got? && (t.Text? || t.Vector? || t.Table?)
    ensures ReadAs(Decode(t, s), Fail(size), s, s', m)
  {
    hide Raw;
  }

  lemma TextRead(s: seq<byte>, size: Read<seq<byte>>, s': seq<byte>, m: int, raw: Read<seq<byte>>, s'': seq<byte>,
          m': int)
    requires ReadAs(Raw(SIZE_WIDTH, s), size, s, s', m) && size.Got?
    requires ReadAs(Raw(FromLittleEndian(size.value), s'), raw, s', s'', m')
    ensures ReadAs(Decode(Text, s), if raw.Got? then Got(Str(raw.value)) else Fail(raw), s, s'', m + m')
  {
    hide Raw;
    Dropped(s, m, m');
  }

  lemma VectorRead(e: Ty, s: seq<byte>, size: Read<seq<byte>>, s': seq<byte>, m: int,
                   items: Read<seq<Val>>, s'': seq<byte>, m': int)
    requires ReadAs(Raw(SIZE_WIDTH, s), size, s, s', m) && size.Got?
    requires ReadAs(DecodeItems(e, FromLittleEndian(size.value), s'), items, s', s'', m')
    ensures ReadAs(Decode(Vector(e), s), if items.Got? then Got(List(items.value)) else Fail(items), s, s'', m + m')
  {
    hide Raw, DecodeItems;
    Dropped(s, m, m');
  }

  lemma TableRead(k: Ty, v: Ty, s: seq<byte>, size: Read<seq<byte>>, s': seq<byte>, m: int,
                  entries: Read<seq<Entry>>, s'': seq<byte>, m': int)
    requires ReadAs(Raw(SIZE_WIDTH, s), size, s, s', m) && size.Got?
    requires ReadAs(DecodeEntries(k, v, FromLittleEndian(size.value), s', []), entries, s', s'', m')
    ensures ReadAs(Decode(Table(k, v), s),
                   if entries.Got? then Got(Pairs(entries.value)) else Fail(entries), s, s'', m + m')
  {
    hide Raw, DecodeEntries;
    Dropped(s, m, m');
  }

  lemma Dropped(s: seq<byte>, a: int, b: int)
    requires 0 <= a <= |s| && 0 <= b <= |s| - a
    ensures s[a..][b..] == s[a + b..]
  {
  }

  lemma PackNothing(b: ByteBuffer)
    requires b.Valid()
    ensures Wrote(b.Content(), [], b.Content(), Room, b.bytes.Length, b.maxSize)
  {
  }

  lemma MessageEnd(s: seq<byte>)
    ensures ReadAs(DecodeMessage([], s), Got([]), s, s, 0)
  {
  }

  lemma MessageStep(types: seq<Ty>, s: seq<byte>, v: Read<Val>, s': seq<byte>, m: int,
                    rest: Read<seq<Val>>, s'': seq<byte>, m': int)
    requires types != [] && ReadAs(Decode(types[0], s), v, s, s', m)
    requires if v.Got? then ReadAs(DecodeMessage(types[1..], s'), rest, s', s'', m') else s'' == s' && m' == 0
    ensures ReadAs(DecodeMessage(types, s),
                   if !v.Got? then Fail(v) else if rest.Got? then Got([v.value] + rest.value) else Fail(rest),
                   s, s'', m + m')
  {
    hide Decode;
  }

  lemma EntryRead(k: Ty, v: Ty, s: seq<byte>, key: Read<Val>, s': seq<byte>, m: int, val: Read<Val>, s'': seq<byte>,
          m': int)
    requires ReadAs(Decode(k, s), key, s, s', m)
    requires if key.Got? then ReadAs(Decode(v, s'), val, s', s'', m') else s'' == s' && m' == 0
    ensures ReadAs(DecodeEntry(k, v, s),
                   if !key.Got? then Fail(key) else if val.Got? then Got(Entry(key.value, val.value)) else Fail(val),
                   s, s'', m + m')
  {
    hide Decode;
  }

  // ---- list reads: what is read so far, and the part that is left ----

  /** `r` and `used` are the result so far; while it is not a failure, `n` elements are left in `s`. */
  ghost predicate ItemsLeft(t: Ty, n0: nat, s0: seq<byte>, r: Read<seq<Val>>, used: int, n: nat, s: seq<byte>) {
    && 0 <= used <= |s0| && s == s0[used..]
    && var whole := DecodeItems(t, n0, s0);
       if r.Got? then
         var rest := DecodeItems(t, n, s);
         whole == Parsed(if rest.result.Got? then Got(r.value + rest.result.value) else Fail(rest.result),
                         used + rest.used)
       else whole == Parsed(r, used)
  }

  lemma ItemsStart(t: Ty, n: nat, s: seq<byte>)
    ensures ItemsLeft(t, n, s, Got([]), 0, n, s)
  {
    var p := DecodeItems(t, n, s);
    if p.result.Got? {
      assert [] + p.result.value == p.result.value;
    }
  }

  lemma ItemsStep(t: Ty, n0: nat, s0: seq<byte>, acc: seq<Val>, used: int, n: nat, s: seq<byte>,
                  v: Read<Val>, s': seq<byte>, moved: int)
    requires n > 0 && ItemsLeft(t, n0, s0, Got(acc), used, n, s) && ReadAs(Decode(t, s), v, s, s', moved)
    ensures moved >= 0
    ensures ItemsLeft(t, n0, s0, if v.Got? then Got(acc + [v.value]) else Fail(v), used + moved, n - 1, s')
  {
    DecodedItem(t, n, s);
    hide Decode, DecodeItems;
    Dropped(s0, used, moved);
    if v.Got? {
      var rest := DecodeItems(t, n - 1, s');
      if rest.result.Got? {
        Regroup(acc, v.value, rest.result.value);
      }
    }
  }

  lemma Regroup<T>(acc: seq<T>, x: T, rest: seq<T>)
    ensures acc + ([x] + rest) == acc + [x] + rest
  {
  }

  lemma DecodedItem(t: Ty, n: nat, s: seq<byte>)
    requires n > 0
    ensures var v := Decode(t, s);
            DecodeItems(t, n, s) ==
              if !v.result.Got? then Parsed(Fail(v.result), v.used) else
              var rest := DecodeItems(t, n - 1, s[v.used..]);
              Parsed(if rest.result.Got? then Got([v.result.value] + rest.result.value) else Fail(rest.result),
                     v.used + rest.used)
  {
    hide Decode, Fail;
  }

  lemma ItemsEnd(t: Ty, n0: nat, s0: seq<byte>, r: Read<seq<Val>>, used: int, n: nat, s: seq<byte>)
    requires ItemsLeft(t, n0, s0, r, used, n, s) && (n == 0 || !r.Got?)
    ensures ReadAs(DecodeItems(t, n0, s0), r, s0, s, used)
  {
    if r.Got? {
      assert r.value + [] == r.value;
    }
  }

  ghost predicate EntriesLeft(k: Ty, v: Ty, n0: nat, s0: seq<byte>, r: Read<seq<Entry>>, used: int, n: nat,
          s: seq<byte>)
  {
    && 0 <= used <= |s0| && s == s0[used..]
    && var whole := DecodeEntries(k, v, n0, s0, []);
       if r.Got? then var rest := DecodeEntries(k, v, n, s, r.value); whole == Parsed(rest.result, used + rest.used)
       else whole == Parsed(r, used)
  }

  lemma EntriesStart(k: Ty, v: Ty, n: nat, s: seq<byte>)
    ensures EntriesLeft(k, v, n, s, Got([]), 0, n, s)
  {
  }

  lemma EntriesStep(k: Ty, v: Ty, n0: nat, s0: seq<byte>, acc: seq<Entry>, used: int, n: nat, s: seq<byte>,
                    e: Read<Entry>, s': seq<byte>, moved: int)
    requires n > 0 && EntriesLeft(k, v, n0, s0, Got(acc), used, n, s) && ReadAs(DecodeEntry(k, v, s), e, s, s', moved)
    ensures moved >= 0
    ensures EntriesLeft(k, v, n0, s0, if e.Got? then Got(Insert(acc, e.value)) else Fail(e), used + moved, n - 1, s')
  {
    hide DecodeEntry, Insert;
    Dropped(s0, used, moved);
  }

  lemma EntriesEnd(k: Ty, v: Ty, n0: nat, s0: seq<byte>, r: Read<seq<Entry>>, used: int, n: nat, s: seq<byte>)
    requires EntriesLeft(k, v, n0, s0, r, used, n, s) && (n == 0 || !r.Got?)
    ensures ReadAs(DecodeEntries(k, v, n0, s0, []), r, s0, s, used)
  {
  }

  /** Effect of a read: the result and the bytes consumed are those of `p`; the rest stays unread. */
  ghost predicate ReadAs<T>(p: Parsed<T>, r: Read<T>, before: seq<byte>, after: seq<byte>, moved: int) {
    r == p.result && moved == p.used <= |before| && after == before[p.used..]
  }

  /** Effect of writing `enc`: all of it if there is room for all of it, otherwise a prefix. Nothing that
      was written before changes. */
  ghost predicate Wrote(before: seq<byte>, enc: seq<byte>, after: seq<byte>, o: Outcome, size: nat, max: nat) {
    && before <= after <= before + enc
    && (o == Room <==> |before| + |enc| <= size)
    && (o == Room ==> after == before + enc)
    && (|before| + |enc| < WORD && size < max ==> o != Undetected)
  }

  /** A longer write of `enc`, of which `todo` is still to be written unless it failed. */
  ghost predicate Writing(before: seq<byte>, enc: seq<byte>, content: seq<byte>, todo: seq<byte>, o: Outcome,
          size: nat, max: nat)
  {
    if o == Room then |content| <= size && before <= content && content + todo == before + enc
    else Wrote(before, enc, content, o, size, max)
  }

  lemma WritePart(before: seq<byte>, enc: seq<byte>, mid: seq<byte>, part: seq<byte>, rest: seq<byte>,
                  after: seq<byte>, o: Outcome, size: nat, max: nat)
    requires Wrote(mid, part, after, o, size, max)
    requires (mid == before && enc == part + rest) || Writing(before, enc, mid, part + rest, Room, size, max)
    ensures Writing(before, enc, after, rest, o, size, max)
  {
    assert mid + part + rest == mid + (part + rest) == before + enc;
    assert mid + part <= before + enc;
  }

  lemma WriteEnd(before: seq<byte>, enc: seq<byte>, content: seq<byte>, o: Outcome, size: nat, max: nat)
    requires exists todo :: Writing(before, enc, content, todo, o, size, max) && (o == Room ==> todo == [])
    ensures Wrote(before, enc, content, o, size, max)
  {
    assert content + [] == content;
  }

  /** The serialized form of the elements from position `i`. */
  ghost function TodoItems(items: seq<Val>, t: Ty, i: nat): seq<byte> {
    if i <= |items| && AllTyped(items[i..], t) then EncodeItems(items[i..], t) else []
  }

  lemma ItemsFrom(items: seq<Val>, t: Ty, i: nat)
    requires AllTyped(items, t) && i <= |items|
    ensures i < |items| ==> HasType(items[i], t)
    ensures TodoItems(items, t, i) == if i < |items| then Encode(items[i], t) + TodoItems(items, t, i + 1) else []
  {
    hide Encode, HasType;
    if i < |items| {
      assert items[i..][0] == items[i] && items[i..][1..] == items[i + 1..];
    }
  }

  lemma ItemsAll(items: seq<Val>, t: Ty)
    requires AllTyped(items, t)
    ensures TodoItems(items, t, 0) == EncodeItems(items, t)
  {
    hide EncodeItems, AllTyped;
    assert items[0..] == items;
  }

  ghost function TodoEntries(entries: seq<Entry>, k: Ty, v: Ty, i: nat): seq<byte> {
    if i <= |entries| && AllEntries(entries[i..], k, v) then EncodeEntries(entries[i..], k, v) else []
  }

  lemma EntriesFrom(entries: seq<Entry>, k: Ty, v: Ty, i: nat)
    requires AllEntries(entries, k, v) && i <= |entries|
    ensures i < |entries| ==> EntryTyped(entries[i], k, v)
    ensures TodoEntries(entries, k, v, i)
         == if i < |entries| then EncodeEntry(entries[i], k, v) + TodoEntries(entries, k, v, i + 1) else []
  {
    hide *;
    TodoIs(entries, k, v, i);
    if i < |entries| {
      TodoIs(entries, k, v, i + 1);
      EncodedEntries(entries[i..], k, v, []);
      assert entries[i..][0] == entries[i] && entries[i..][1..] == entries[i + 1..];
    }
  }

  lemma TodoIs(entries: seq<Entry>, k: Ty, v: Ty, i: nat)
    requires AllEntries(entries, k, v) && i <= |entries|
    ensures AllEntries(entries[i..], k, v) && TodoEntries(entries, k, v, i) == EncodeEntries(entries[i..], k, v)
    ensures i == |entries| ==> TodoEntries(entries, k, v, i) == []
  {
    hide EntryTyped, EncodeEntry;
  }

  lemma EntriesAll(entries: seq<Entry>, k: Ty, v: Ty)
    requires AllEntries(entries, k, v)
    ensures TodoEntries(entries, k, v, 0) == EncodeEntries(entries, k, v)
  {
    hide EncodeEntries, AllEntries;
    assert entries[0..] == entries;
  }
}
