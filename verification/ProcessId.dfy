/** The identifier of a process: a 32-bit hash of its host name and port. */
module ProcessId {
  import opened Seqs

  const WORD := 0x1_0000_0000

  function Pow16(n: nat): nat {
    if n == 0 then 1 else 16 * Pow16(n - 1)
  }

  /** The sum of all characters, the i-th of n weighted with 16 to the power of n - i. */
  function Weighted(name: seq<byte>): nat {
    if name == [] then 0 else name[0] as nat * Pow16(|name|) + Weighted(name[1..])
  }

  /** All arithmetic wraps at 32 bits. */
  method CreateProcessId(hostName: seq<byte>, port: nat) returns (pid: nat)
    requires port < 65536
    ensures pid == (Weighted(hostName) + port) % WORD
  {
    pid := 0;
    var i := 0;
    assert Weighted(hostName[..0]) == 0;
    hide Weighted;
    while i < |hostName|
      invariant 0 <= i <= |hostName|
      invariant pid == Weighted(hostName[..i]) % WORD
    {
      ghost var before := Weighted(hostName[..i]);
      WeightedAppend(hostName[..i], hostName[i]);
      assert hostName[..i] + [hostName[i]] == hostName[..i + 1];
      pid := (pid + hostName[i] as nat) % WORD;
      pid := pid * 16 % WORD;
      Wrapped(before, hostName[i] as nat);
      i := i + 1;
    }
    assert hostName[..i] == hostName;
    pid := (pid + port) % WORD;
  }

  lemma Wrapped(sum: nat, c: nat)
    ensures (sum % WORD + c) % WORD * 16 % WORD == 16 * (sum + c) % WORD
  {
    var x := sum + c;
    assert (sum % WORD + c) % WORD == x % WORD;
    assert x == WORD * (x / WORD) + x % WORD;
    assert 16 * x == WORD * (16 * (x / WORD)) + 16 * (x % WORD);
  }

  lemma {:induction false} WeightedAppend(name: seq<byte>, c: byte)
    ensures Weighted(name + [c]) == 16 * (Weighted(name) + c as nat)
  {
    if name == [] {
      assert Pow16(1) == 16;
      assert [c][1..] == [];
    } else {
      assert (name + [c])[1..] == name[1..] + [c];
      WeightedAppend(name[1..], c);
      var x := name[0] as nat;
      assert x * Pow16(|name| + 1) == 16 * (x * Pow16(|name|));
    }
  }

  lemma {:induction false} WeightedConcat(a: seq<byte>, b: seq<byte>)
    ensures Weighted(a + b) == Weighted(a) * Pow16(|b|) + Weighted(b)
  {
    if b == [] {
      assert a + b == a;
    } else {
      hide Weighted;
      var front, c := b[..|b| - 1], b[|b| - 1];
      WeightedConcat(a, front);
      assert a + b == (a + front) + [c];
      assert b == front + [c];
      WeightedAppend(a + front, c);
      WeightedAppend(front, c);
      Regroup(Weighted(a), Pow16(|front|), Weighted(front), c as nat);
    }
  }

  lemma Regroup(a: nat, p: nat, b: nat, c: nat)
    ensures 16 * (a * p + b + c) == a * (16 * p) + 16 * (b + c)
  {
  }

  lemma {:induction false} MultipleOf16(name: seq<byte>)
    ensures Weighted(name) % 16 == 0
  {
    if name != [] {
      assert name == name[..|name| - 1] + [name[|name| - 1]];
      WeightedAppend(name[..|name| - 1], name[|name| - 1]);
    }
  }

  function Id(name: seq<byte>, port: nat): nat {
    (Weighted(name) + port) % WORD
  }

  lemma Vanishes(k: nat, rest: nat)
    ensures (16 * k * Pow16(7) + rest) % WORD == rest % WORD
  {
    assert Pow16(7) == 0x1000_0000;
    WholeWords(k, rest);
  }

  lemma WholeWords(k: nat, rest: nat)
    ensures (0x1_0000_0000 * k + rest) % 0x1_0000_0000 == rest % 0x1_0000_0000
  {
  }

  /** Only the last seven characters and the port count. */
  lemma LastSevenCharacters(a: seq<byte>, b: seq<byte>, tail: seq<byte>, port: nat)
    requires |tail| == 7
    ensures Id(a + tail, port) == Id(b + tail, port) == Id(tail, port)
  {
    WeightedConcat(a, tail);
    WeightedConcat(b, tail);
    MultipleOf16(a);
    MultipleOf16(b);
    Vanishes(Weighted(a) / 16, Weighted(tail) + port);
    Vanishes(Weighted(b) / 16, Weighted(tail) + port);
  }

  /** Of the seventh character from the end, only the low four bits count. */
  lemma SeventhCharacter(c: byte, d: byte, tail: seq<byte>, port: nat)
    requires |tail| == 6
    ensures Id([c] + tail, port) == Id([d] + tail, port) <==> c as nat % 16 == d as nat % 16
  {
    FirstOfSeven(c, tail, port);
    FirstOfSeven(d, tail, port);
    var rest := Weighted(tail) + port;
    var x, y := c as nat % 16, d as nat % 16;
    Apart(x, y, rest);
  }

  lemma FirstOfSeven(c: byte, tail: seq<byte>, port: nat)
    requires |tail| == 6
    ensures Id([c] + tail, port) == (c as nat % 16 * 0x1000_0000 + Weighted(tail) + port) % WORD
  {
    assert ([c] + tail)[1..] == tail;
    assert Pow16(7) == 0x1000_0000;
    var n := c as nat;
    assert n * 0x1000_0000 == WORD * (n / 16) + n % 16 * 0x1000_0000;
  }

  lemma Apart(x: nat, y: nat, rest: nat)
    requires x < 16 && y < 16
    ensures (x * 0x1000_0000 + rest) % WORD == (y * 0x1000_0000 + rest) % WORD <==> x == y
  {
  }

  /** Two processes may get the same identifier: a port higher by 16 makes up for a smaller last character. */
  lemma Collision(name: seq<byte>, c: byte, port: nat)
    requires c < 255
    ensures Id(name + [c], port + 16) == Id(name + [c + 1], port)
  {
    WeightedAppend(name, c);
    WeightedAppend(name, c + 1);
  }
}
