/** Bytes and big-endian words (encoding/binary's BigEndian). */
module Bytes {
  type Byte = b: int | 0 <= b < 0x100
  type U32 = v: int | 0 <= v < 0x1_0000_0000
  type U64 = v: int | 0 <= v < 0x1_0000_0000_0000_0000

  const WORD: nat := 0x1_0000_0000

  /** Conversion to uint32 keeps the low 32 bits. */
  function ToU32(v: int): U32 {
    v % WORD
  }

  /** The n low bytes of v, most significant first. */
  function Big(v: nat, n: nat): (bs: seq<Byte>)
    ensures |bs| == n
  {
    if n == 0 then [] else Big(v / 0x100, n - 1) + [v % 0x100]
  }

  /** The number that bs spells, most significant byte first. */
  function Value(bs: seq<Byte>): nat {
    if bs == [] then 0 else Value(bs[..|bs| - 1]) * 0x100 + bs[|bs| - 1]
  }

  /** How many values n bytes can spell. */
  function Span(n: nat): (s: nat)
    ensures s > 0
  {
    if n == 0 then 1 else Span(n - 1) * 0x100
  }

  lemma {:induction false} ValueOfBig(v: nat, n: nat)
    requires v < Span(n)
    ensures Value(Big(v, n)) == v
  {
    if n > 0 {
      var high, low := v / 0x100, v % 0x100;
      assert v == high * 0x100 + low;
      ValueOfBig(high, n - 1);
      assert (Big(high, n - 1) + [low])[..n - 1] == Big(high, n - 1);
    }
  }

  lemma {:induction false} BigOfValue(bs: seq<Byte>)
    ensures Value(bs) < Span(|bs|) && Big(Value(bs), |bs|) == bs
  {
    if bs != [] {
      var front := bs[..|bs| - 1];
      BigOfValue(front);
      assert bs == front + [bs[|bs| - 1]];
      assert Value(bs) / 0x100 == Value(front) && Value(bs) % 0x100 == bs[|bs| - 1];
    }
  }

  lemma Spans()
    ensures Span(4) == 0x1_0000_0000 && Span(8) == 0x1_0000_0000_0000_0000
  {
    assert Span(2) == 0x1_0000;
    assert Span(3) == 0x100_0000;
    assert Span(5) == 0x100_0000_0000;
    assert Span(6) == 0x1_0000_0000_0000;
    assert Span(7) == 0x100_0000_0000_0000;
  }

  /** Four-byte words lose nothing. */
  lemma WordRoundTrip(v: U32)
    ensures Value(Big(v, 4)) == v
  {
    Spans();
    ValueOfBig(v, 4);
  }

  lemma LongRoundTrip(v: U64)
    ensures Value(Big(v, 8)) == v
  {
    Spans();
    ValueOfBig(v, 8);
  }

  /** The four low bytes of v, most significant first. */
  predicate Spells(bs: seq<Byte>, v: nat) {
    bs == [v / 0x100_0000 % 0x100, v / 0x1_0000 % 0x100, v / 0x100 % 0x100, v % 0x100]
  }

  lemma OneMoreByte(v: nat, n: nat)
    ensures Big(v, n + 1) == Big(v / 0x100, n) + [v % 0x100]
  {
  }

  lemma Shifts(v: nat)
    ensures v / 0x100 / 0x100 == v / 0x1_0000
    ensures v / 0x1_0000 / 0x100 == v / 0x100_0000
    ensures v / 0x100_0000 / 0x100 == v / WORD
  {
  }

  /** The last four bytes, whatever comes before. */
  lemma LastBytes(v: nat, n: nat)
    ensures Big(v, n + 4)
      == Big(v / WORD, n) + [v / 0x100_0000 % 0x100, v / 0x1_0000 % 0x100, v / 0x100 % 0x100, v % 0x100]
  {
    hide Big;
    Shifts(v);
    OneMoreByte(v, n + 3);
    OneMoreByte(v / 0x100, n + 2);
    OneMoreByte(v / 0x1_0000, n + 1);
    OneMoreByte(v / 0x100_0000, n);
  }

  lemma FourBytes(v: nat)
    ensures Spells(Big(v, 4), v)
  {
    LastBytes(v, 0);
  }

  /** Eight bytes are two words, the more significant first. */
  lemma EightBytes(v: nat)
    ensures Big(v, 8) == Big(v / WORD, 4) + Big(v, 4)
  {
    LastBytes(v, 4);
    FourBytes(v);
  }

  lemma {:induction false} ZeroValue(bs: seq<Byte>)
    requires forall i :: 0 <= i < |bs| ==> bs[i] == 0
    ensures Value(bs) == 0
  {
    if bs != [] {
      ZeroValue(bs[..|bs| - 1]);
    }
  }

  /** PutUint32 and PutUint64: write v into n bytes of buf, from position at, leaving every other byte alone. */
  method PutBig(buf: array<Byte>, at: nat, n: nat, v: nat)
    requires at + n <= buf.Length
    modifies buf
    ensures buf[..] == old(buf[..at]) + Big(v, n) + old(buf[at + n..])
  {
    var i, rest := n, v;
    assert old(buf[..]) == old(buf[..at + n]) + old(buf[at + n..]);
    while i > 0
      invariant 0 <= i <= n
      invariant Big(v, n) == Big(rest, i) + buf[at + i..at + n]
      invariant buf[..at + i] == old(buf[..at + i]) && buf[at + n..] == old(buf[at + n..])
    {
      i := i - 1;
      buf[at + i] := rest % 0x100;
      assert buf[at + i..at + n] == [rest % 0x100] + buf[at + i + 1..at + n];
      rest := rest / 0x100;
    }
    assert buf[..at] == old(buf[..at]);
    assert buf[..] == buf[..at] + buf[at..at + n] + buf[at + n..];
  }

  /** Go's copy into buf at position at. */
  method PutBytes(buf: array<Byte>, at: nat, bs: seq<Byte>)
    requires at + |bs| <= buf.Length
    modifies buf
    ensures buf[..] == old(buf[..at]) + bs + old(buf[at + |bs|..])
  {
    forall i | 0 <= i < |bs| {
      buf[at + i] := bs[i];
    }
    assert buf[..at] == old(buf[..at]) && buf[at..at + |bs|] == bs && buf[at + |bs|..] == old(buf[at + |bs|..]);
    assert buf[..] == buf[..at] + buf[at..at + |bs|] + buf[at + |bs|..];
  }
}
