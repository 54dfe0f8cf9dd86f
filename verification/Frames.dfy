/** The wire and disk format of one message: magic, length, offset, checksum, payload. */
module Frames {
  import opened Bytes

  const MAGIC: Byte := 0x4B
  const HEADER: nat := 17
  const MAX_PAYLOAD: nat := 32 * 1024 * 1024

  /** The checksum is a parameter: any function of the payload will do. */
  type Checksum = seq<Byte> -> U32

  datatype Frame = Frame(offset: U64, payload: seq<Byte>)

  /** How a read of one frame ends. io.ReadFull reports end-of-stream when it gets no byte at all, and an unexpected end
      when it gets some but too few. */
  datatype Outcome = Framed(frame: Frame) | EndOfStream | UnexpectedEnd | BadMagic | TooLarge | Mismatch

  datatype Encoding = Encoded(bytes: seq<Byte>) | PayloadTooLarge

  function Header(length: U32, offset: U64, sum: U32): (h: seq<Byte>)
    ensures |h| == HEADER
  {
    [MAGIC] + Big(length, 4) + Big(offset, 8) + Big(sum, 4)
  }

  /** The bytes of a frame whose length fits the length field. */
  function Wire(crc: Checksum, f: Frame): (bs: seq<Byte>)
    requires |f.payload| < WORD
  {
    Header(|f.payload|, f.offset, crc(f.payload)) + f.payload
  }

  /** The format byte by byte: a magic byte 'K', the payload's length in four bytes, the offset in eight, the checksum
      in four, each most significant byte first, and the payload. */
  lemma FrameLayout(crc: Checksum, f: Frame)
    requires |f.payload| < WORD
    ensures var bs := Wire(crc, f);
      && |bs| == 17 + |f.payload| && bs[0] == 0x4B && bs[17..] == f.payload
      && Spells(bs[1..5], |f.payload|) && Spells(bs[13..17], crc(f.payload))
      && Spells(bs[5..9], f.offset / 0x1_0000_0000) && Spells(bs[9..13], f.offset)
  {
    var bs, high, low := Wire(crc, f), Big(f.offset / WORD, 4), Big(f.offset, 4);
    FourBytes(|f.payload|);
    FourBytes(crc(f.payload));
    FourBytes(f.offset / WORD);
    FourBytes(f.offset);
    EightBytes(f.offset);
    assert bs == [MAGIC] + Big(|f.payload|, 4) + high + low + Big(crc(f.payload), 4) + f.payload;
    assert bs[5..9] == high && bs[9..13] == low;
  }

  function Length(bs: seq<Byte>): nat
    requires |bs| >= HEADER
  {
    Value(bs[1..5])
  }

  function Stamp(bs: seq<Byte>): nat
    requires |bs| >= HEADER
  {
    Value(bs[5..13])
  }

  function Sum(bs: seq<Byte>): nat
    requires |bs| >= HEADER
  {
    Value(bs[13..17])
  }

  lemma ReadHeader(length: U32, offset: U64, sum: U32, tail: seq<Byte>)
    ensures var bs := Header(length, offset, sum) + tail;
      bs[0] == MAGIC && Length(bs) == length && Stamp(bs) == offset && Sum(bs) == sum && bs[HEADER..] == tail
  {
    var bs := Header(length, offset, sum) + tail;
    assert bs[1..5] == Big(length, 4) && bs[5..13] == Big(offset, 8) && bs[13..17] == Big(sum, 4);
    WordRoundTrip(length);
    WordRoundTrip(sum);
    LongRoundTrip(offset);
  }

  /** What one DecodeFrame makes of a stream that holds bs, and how many of its bytes it takes. */
  function Decoded(crc: Checksum, bs: seq<Byte>): (d: (Outcome, nat))
    ensures d.1 <= |bs|
    ensures d.0.Framed? ==> d.1 == HEADER + |d.0.frame.payload| && |d.0.frame.payload| <= MAX_PAYLOAD
  {
    if |bs| < HEADER then (if bs == [] then EndOfStream else UnexpectedEnd, |bs|)
    else if bs[0] != MAGIC then (BadMagic, HEADER)
    else if Length(bs) > MAX_PAYLOAD then (TooLarge, HEADER)
    else
      var end := HEADER + Length(bs);
      if |bs| < end then (if |bs| == HEADER then EndOfStream else UnexpectedEnd, |bs|)
      else
        var payload := bs[HEADER..end];
        if crc(payload) != Sum(bs) then (Mismatch, end)
        else
          BigOfValue(bs[5..13]);
          Spans();
          (Framed(Frame(Stamp(bs), payload)), end)
  }

  // ----- encoding ---------------------------------------------------------

  /** EncodeFrame. The payload's length is first cut to 32 bits, so a payload of 4 GiB or more may pass the size check
      and be cut short. */
  method EncodeFrame(crc: Checksum, offset: U64, payload: seq<Byte>) returns (r: Encoding)
    ensures r == Encode(crc, offset, payload)
    ensures |payload| <= MAX_PAYLOAD ==> r == Encoded(Wire(crc, Frame(offset, payload)))
  {
    hide Big, Wire;
    var length := ToU32(|payload|);
    if length > MAX_PAYLOAD {
      return PayloadTooLarge;
    }
    var buf := new Byte[HEADER + length];
    buf[0] := MAGIC;
    assert buf[..1] == [MAGIC];
    PutBig(buf, 1, 4, length);
    assert buf[..5] == [MAGIC] + Big(length, 4);
    PutBig(buf, 5, 8, offset);
    assert buf[..13] == [MAGIC] + Big(length, 4) + Big(offset, 8);
    PutBig(buf, 13, 4, crc(payload));
    assert buf[..HEADER] == Header(length, offset, crc(payload));
    PutBytes(buf, HEADER, payload[..length]);
    r := Encoded(buf[..]);
    SmallEncodes(crc, offset, payload);
  }

  function Encode(crc: Checksum, offset: U64, payload: seq<Byte>): Encoding {
    var length := ToU32(|payload|);
    if length > MAX_PAYLOAD then PayloadTooLarge
    else Encoded(Header(length, offset, crc(payload)) + payload[..length])
  }

  lemma SmallEncodes(crc: Checksum, offset: U64, payload: seq<Byte>)
    ensures |payload| <= MAX_PAYLOAD ==> Encode(crc, offset, payload) == Encoded(Wire(crc, Frame(offset, payload)))
  {
    assert payload[..|payload|] == payload;
  }

  /** Decoding the encoding of a payload of at most 32 MiB gives it back and takes exactly its bytes, whatever
      follows. */
  lemma DecodeEncode(crc: Checksum, f: Frame, tail: seq<Byte>)
    requires |f.payload| <= MAX_PAYLOAD
    ensures Decoded(crc, Wire(crc, f) + tail) == (Framed(f), |Wire(crc, f)|)
  {
    var bs := Wire(crc, f) + tail;
    assert bs == Header(|f.payload|, f.offset, crc(f.payload)) + (f.payload + tail);
    ReadHeader(|f.payload|, f.offset, crc(f.payload), f.payload + tail);
    assert bs[HEADER..HEADER + |f.payload|] == f.payload;
  }

  /** The encoding comes back as the frame that went in exactly when the payload is at most 32 MiB: a longer one that is
      not refused comes back cut or fails its checksum. */
  lemma RoundTripIff(crc: Checksum, offset: U64, payload: seq<Byte>)
    ensures (Encode(crc, offset, payload).Encoded?
             && Decoded(crc, Encode(crc, offset, payload).bytes).0 == Framed(Frame(offset, payload)))
      <==> |payload| <= 33_554_432
  {
    if |payload| <= MAX_PAYLOAD {
      var f := Frame(offset, payload);
      DecodeEncode(crc, f, []);
      assert payload[..|payload|] == payload;
      assert Wire(crc, f) + [] == Wire(crc, f) == Encode(crc, offset, payload).bytes;
    }
  }

  /** A payload of 4 GiB is accepted and written as an empty one. */
  lemma FourGigabytesAccepted(crc: Checksum, offset: U64, payload: seq<Byte>)
    requires |payload| == 0x1_0000_0000
    ensures Encode(crc, offset, payload).Encoded? && |Encode(crc, offset, payload).bytes| == HEADER
    ensures var d := Decoded(crc, Encode(crc, offset, payload).bytes).0;
      d == if crc([]) == crc(payload) then Framed(Frame(offset, [])) else Mismatch
  {
    var h := Header(0, offset, crc(payload));
    ReadHeader(0, offset, crc(payload), []);
    assert Encode(crc, offset, payload).bytes == h + payload[..0] == h + [];
    assert (h + [])[HEADER..HEADER] == [];
  }

  /** Conversely, whatever decodes as a frame is that frame's own encoding, byte for byte. */
  lemma DecodedIsWire(crc: Checksum, bs: seq<Byte>)
    requires Decoded(crc, bs).0.Framed?
    ensures bs[..Decoded(crc, bs).1] == Wire(crc, Decoded(crc, bs).0.frame)
  {
    var (o, end) := Decoded(crc, bs);
    BigOfValue(bs[1..5]);
    BigOfValue(bs[5..13]);
    BigOfValue(bs[13..17]);
    assert bs[..end] == [bs[0]] + bs[1..5] + bs[5..13] + bs[13..17] + bs[HEADER..end];
  }

  /** A frame cut short anywhere never decodes as a frame; it reads as a clean end only when nothing of it is left, or
      all of its header and nothing more. */
  lemma CutFrame(crc: Checksum, f: Frame, k: nat)
    requires |f.payload| <= MAX_PAYLOAD && k < |Wire(crc, f)|
    ensures Decoded(crc, Wire(crc, f)[..k]) == (if k == 0 || k == HEADER then EndOfStream else UnexpectedEnd, k)
  {
    var bs := Wire(crc, f)[..k];
    if k >= HEADER {
      assert bs == Header(|f.payload|, f.offset, crc(f.payload)) + f.payload[..k - HEADER];
      ReadHeader(|f.payload|, f.offset, crc(f.payload), f.payload[..k - HEADER]);
    }
  }

  /** A damaged payload is caught exactly when its checksum differs. */
  lemma DamageCaught(crc: Checksum, f: Frame, payload: seq<Byte>)
    requires |f.payload| <= MAX_PAYLOAD && |payload| == |f.payload|
    ensures var bs := Wire(crc, f)[..HEADER] + payload;
      Decoded(crc, bs) == (if crc(payload) == crc(f.payload) then Framed(Frame(f.offset, payload)) else Mismatch, |bs|)
  {
    var h := Header(|f.payload|, f.offset, crc(f.payload));
    assert Wire(crc, f)[..HEADER] == h;
    ReadHeader(|f.payload|, f.offset, crc(f.payload), payload);
    assert (h + payload)[HEADER..HEADER + |payload|] == payload;
  }

  // ----- streams of frames ------------------------------------------------

  ghost predicate Fits(fs: seq<Frame>) {
    forall i :: 0 <= i < |fs| ==> |fs[i].payload| <= MAX_PAYLOAD
  }

  function WireAll(crc: Checksum, fs: seq<Frame>): seq<Byte>
    requires Fits(fs)
  {
    if fs == [] then [] else Wire(crc, fs[0]) + WireAll(crc, fs[1..])
  }

  /** The frames a stream holds from its start, and how its reading ends. */
  function Parsed(crc: Checksum, bs: seq<Byte>): (p: (seq<Frame>, Outcome))
    ensures !p.1.Framed?
    decreases |bs|
  {
    var (o, used) := Decoded(crc, bs);
    if !o.Framed? then ([], o)
    else
      var (fs, end) := Parsed(crc, bs[used..]);
      ([o.frame] + fs, end)
  }

  /** Frames are self-delimiting: a concatenation reads back as the same frames in order and takes exactly their
      bytes. */
  lemma {:induction false} ParseWire(crc: Checksum, fs: seq<Frame>, tail: seq<Byte>)
    requires Fits(fs)
    ensures Parsed(crc, WireAll(crc, fs) + tail) == (fs + Parsed(crc, tail).0, Parsed(crc, tail).1)
  {
    hide Decoded, Wire;
    if fs == [] {
      assert WireAll(crc, fs) + tail == tail;
      assert fs + Parsed(crc, tail).0 == Parsed(crc, tail).0;
    } else {
      var w, rest := Wire(crc, fs[0]), WireAll(crc, fs[1..]);
      assert WireAll(crc, fs) + tail == w + (rest + tail);
      DecodeEncode(crc, fs[0], rest + tail);
      assert (w + (rest + tail))[|w|..] == rest + tail;
      ParseWire(crc, fs[1..], tail);
      assert [fs[0]] + (fs[1..] + Parsed(crc, tail).0) == fs + Parsed(crc, tail).0;
    }
  }

  /** So two lists of frames with the same bytes are the same list. */
  lemma WireInjective(crc: Checksum, fs: seq<Frame>, gs: seq<Frame>)
    requires Fits(fs) && Fits(gs) && WireAll(crc, fs) == WireAll(crc, gs)
    ensures fs == gs
  {
    ParseWire(crc, fs, []);
    ParseWire(crc, gs, []);
    assert fs + [] == fs && gs + [] == gs;
    assert Parsed(crc, []).0 == [];
  }

  // ----- reading from a stream that arrives in pieces ---------------------

  /** A byte stream whose bytes arrive in packets: plan gives the sizes of the next ones (some may be empty); when the
      plan is used up, everything that is left is there. */
  class Reader {
    var rest: seq<Byte>
    var plan: seq<nat>

    constructor (bytes: seq<Byte>, packets: seq<nat>)
      ensures rest == bytes && plan == packets
    {
      rest, plan := bytes, packets;
    }

    /** One Read into the free part of buf: as much as has arrived and fits. */
    method Read(buf: array<Byte>, at: nat) returns (n: nat, end: bool)
      requires at < buf.Length
      modifies this, buf
      ensures n <= buf.Length - at && n <= |old(rest)| && rest == old(rest)[n..]
      ensures buf[..] == old(buf[..at]) + old(rest)[..n] + old(buf[at + n..])
      ensures end == (old(rest) == [])
      ensures end || n > 0 || |plan| < |old(plan)|
      ensures |plan| <= |old(plan)|
    {
      n := if |rest| < buf.Length - at then |rest| else buf.Length - at;
      end := rest == [];
      if plan != [] {
        n := if plan[0] < n then plan[0] else n;
        plan := plan[1..];
      }
      PutBytes(buf, at, rest[..n]);
      rest := rest[n..];
    }

    /** io.ReadFull: fill buf, or take all there is. */
    method ReadFull(buf: array<Byte>) returns (n: nat)
      modifies this, buf
      ensures n == if |old(rest)| < buf.Length then |old(rest)| else buf.Length
      ensures buf[..n] == old(rest)[..n] && rest == old(rest)[n..]
    {
      n := 0;
      var end := false;
      while n < buf.Length && !end
        invariant n <= buf.Length && n <= |old(rest)|
        invariant buf[..n] == old(rest)[..n] && rest == old(rest)[n..]
        invariant end ==> rest == []
        decreases !end, |plan| + buf.Length - n
      {
        var k;
        ghost var before := rest;
        ghost var done := buf[..n];
        k, end := Read(buf, n);
        assert buf[..n + k] == done + before[..k];
        assert old(rest)[..n + k] == old(rest)[..n] + before[..k];
        n := n + k;
      }
    }
  }

  /** DecodeFrame: the outcome and the bytes taken depend on the stream's bytes alone, not on how they arrive. */
  method DecodeFrame(crc: Checksum, r: Reader) returns (o: Outcome)
    modifies r
    ensures var (outcome, used) := Decoded(crc, old(r.rest));
      o == outcome && r.rest == old(r.rest)[used..]
  {
    ghost var bs := r.rest;
    var header := new Byte[HEADER];
    var n := r.ReadFull(header);
    if n < HEADER {
      return if n == 0 then EndOfStream else UnexpectedEnd;
    }
    assert header[..] == bs[..HEADER];
    if header[0] != MAGIC {
      return BadMagic;
    }
    var length, offset, expected := Value(header[1..5]), Value(header[5..13]), Value(header[13..17]);
    assert header[1..5] == bs[1..5] && header[5..13] == bs[5..13] && header[13..17] == bs[13..17];
    if length > MAX_PAYLOAD {
      return TooLarge;
    }
    var payload := new Byte[length];
    assert r.rest == bs[HEADER..];
    if length > 0 {
      n := r.ReadFull(payload);
      assert bs[HEADER..][..n] == bs[HEADER..HEADER + n];
      assert r.rest == bs[HEADER + n..];
      if n < length {
        return if n == 0 then EndOfStream else UnexpectedEnd;
      }
    }
    assert payload[..] == bs[HEADER..HEADER + length];
    if crc(payload[..]) != expected {
      return Mismatch;
    }
    BigOfValue(bs[5..13]);
    Spans();
    o := Framed(Frame(offset, payload[..]));
  }

  /** The client connection's loop: read frames until one fails. */
  method Receive(crc: Checksum, r: Reader) returns (fs: seq<Frame>, end: Outcome)
    modifies r
    ensures (fs, end) == Parsed(crc, old(r.rest))
  {
    hide Decoded;
    fs := [];
    end := DecodeFrame(crc, r);
    assert end.Framed? ==> [] + [end.frame] == [end.frame];
    while end.Framed?
      invariant Parsed(crc, old(r.rest)) ==
        if end.Framed? then (fs + [end.frame] + Parsed(crc, r.rest).0, Parsed(crc, r.rest).1) else (fs, end)
      decreases end.Framed?, |r.rest|
    {
      fs := fs + [end.frame];
      ghost var bs := r.rest;
      end := DecodeFrame(crc, r);
      assert end.Framed? ==> fs + ([end.frame] + Parsed(crc, r.rest).0) == fs + [end.frame] + Parsed(crc, r.rest).0;
      assert !end.Framed? ==> fs + [] == fs;
    }
  }

  /** WriteFrame to a stream that others read. */
  class Writer {
    var sent: seq<Byte>

    method WriteFrame(crc: Checksum, offset: U64, payload: seq<Byte>) returns (ok: bool)
      modifies this
      ensures ok == (|payload| % WORD <= MAX_PAYLOAD)
      ensures sent == old(sent) + if ok then Encode(crc, offset, payload).bytes else []
      ensures |payload| <= MAX_PAYLOAD ==> ok && sent == old(sent) + Wire(crc, Frame(offset, payload))
    {
      var e := EncodeFrame(crc, offset, payload);
      ok := e.Encoded?;
      if ok {
        sent := sent + e.bytes;
      }
    }
  }

  /** Every frame sent over a stream is received, in order, however the stream is cut into packets. */
  method Exchange(crc: Checksum, sent: seq<Frame>, packets: seq<nat>) returns (received: seq<Frame>, end: Outcome)
    requires Fits(sent)
    ensures received == sent && end == EndOfStream
  {
    var w := new Writer;
    w.sent := [];
    var i := 0;
    while i < |sent|
      invariant 0 <= i <= |sent| && Fits(sent[..i]) && w.sent == WireAll(crc, sent[..i])
    {
      var ok := w.WriteFrame(crc, sent[i].offset, sent[i].payload);
      assert sent[..i + 1] == sent[..i] + [sent[i]];
      WireAppend(crc, sent[..i], sent[i]);
      i := i + 1;
    }
    assert sent[..i] == sent;
    var r := new Reader(w.sent, packets);
    received, end := Receive(crc, r);
    ParseWire(crc, sent, []);
    assert w.sent + [] == w.sent;
  }

  lemma {:induction false} WireAppend(crc: Checksum, fs: seq<Frame>, f: Frame)
    requires Fits(fs) && |f.payload| <= MAX_PAYLOAD
    ensures Fits(fs + [f]) && WireAll(crc, fs + [f]) == WireAll(crc, fs) + Wire(crc, f)
  {
    hide Wire;
    if fs == [] {
      assert fs + [f] == [f] && [f][1..] == [];
    } else {
      assert (fs + [f])[1..] == fs[1..] + [f];
      WireAppend(crc, fs[1..], f);
      var a, b, c := Wire(crc, fs[0]), WireAll(crc, fs[1..]), Wire(crc, f);
      assert a + (b + c) == a + b + c;
    }
  }
}
