/** What a segment's bytes mean: the frames of its payloads one after the other, and which starting positions, index
    slots and scans go with them. */
module SegmentLog {
  import opened Bytes
  import opened Frames
  import opened SparseIndex

  /** No frame that fits may carry the 32-bit write position past its range. */
  const MAX_SEGMENT: nat := WORD - MAX_PAYLOAD - HEADER - 1

  ghost predicate Small(ps: seq<seq<Byte>>) {
    forall i :: 0 <= i < |ps| ==> |ps[i]| <= MAX_PAYLOAD
  }

  /** Offsets stay below 2^64, so that the next one is always representable. */
  ghost predicate Numbered(base: nat, ps: seq<seq<Byte>>) {
    base + |ps| < 0x1_0000_0000_0000_0000
  }

  ghost function FramesOf(base: nat, ps: seq<seq<Byte>>): (fs: seq<Frame>)
    requires Numbered(base, ps) && Small(ps)
    ensures |fs| == |ps| && Fits(fs)
  {
    seq(|ps|, i requires 0 <= i < |ps| => Frame(base + i, ps[i]))
  }

  /** The bytes of a segment that holds ps. */
  ghost function Log(crc: Checksum, base: nat, ps: seq<seq<Byte>>): seq<Byte>
    requires Numbered(base, ps) && Small(ps)
  {
    WireAll(crc, FramesOf(base, ps))
  }

  /** Where frame i starts. */
  ghost function Start(ps: seq<seq<Byte>>, i: nat): (pos: nat)
    requires i <= |ps|
    ensures pos >= HEADER * i
  {
    if i == 0 then 0 else Start(ps, i - 1) + HEADER + |ps[i - 1]|
  }

  ghost function Size(ps: seq<seq<Byte>>): (size: nat)
    ensures size >= HEADER * |ps|
  {
    Start(ps, |ps|)
  }

  lemma {:induction false} StartOfPrefix(ps: seq<seq<Byte>>, qs: seq<seq<Byte>>, i: nat)
    requires i <= |ps| && i <= |qs| && ps[..i] == qs[..i]
    ensures Start(ps, i) == Start(qs, i)
  {
    if i > 0 {
      assert ps[i - 1] == ps[..i][i - 1] == qs[i - 1];
      assert ps[..i - 1] == ps[..i][..i - 1] == qs[..i - 1];
      StartOfPrefix(ps, qs, i - 1);
    }
  }

  lemma {:induction false} StartsAscend(ps: seq<seq<Byte>>, i: nat, j: nat)
    requires i < j <= |ps|
    ensures Start(ps, i) + HEADER + |ps[i]| <= Start(ps, j)
  {
    if i < j - 1 {
      StartsAscend(ps, i, j - 1);
    }
  }

  lemma LogAppend(crc: Checksum, base: nat, ps: seq<seq<Byte>>, p: seq<Byte>)
    requires Numbered(base, ps + [p]) && Small(ps) && |p| <= MAX_PAYLOAD
    ensures Small(ps + [p]) && Log(crc, base, ps + [p]) == Log(crc, base, ps) + Wire(crc, Frame(base + |ps|, p))
    ensures Size(ps + [p]) == Size(ps) + HEADER + |p|
  {
    assert FramesOf(base, ps + [p]) == FramesOf(base, ps) + [Frame(base + |ps|, p)];
    WireAppend(crc, FramesOf(base, ps), Frame(base + |ps|, p));
    StartOfPrefix(ps + [p], ps, |ps|);
  }

  lemma {:induction false} LogLength(crc: Checksum, base: nat, ps: seq<seq<Byte>>)
    requires Numbered(base, ps) && Small(ps)
    ensures |Log(crc, base, ps)| == Size(ps)
    decreases |ps|
  {
    if ps != [] {
      var front, p := ps[..|ps| - 1], ps[|ps| - 1];
      assert ps == front + [p];
      LogAppend(crc, base, front, p);
      LogLength(crc, base, front);
    }
  }

  lemma {:induction false} LogConcat(crc: Checksum, base: nat, ps: seq<seq<Byte>>, qs: seq<seq<Byte>>)
    requires Numbered(base, ps + qs) && Small(ps) && Small(qs)
    ensures Log(crc, base, ps + qs) == Log(crc, base, ps) + Log(crc, base + |ps|, qs)
    decreases |qs|
  {
    hide Log, Wire, Size;
    if qs == [] {
      assert ps + qs == ps;
      LogLength(crc, base + |ps|, qs);
      EmptySize();
    } else {
      var front, q := qs[..|qs| - 1], qs[|qs| - 1];
      assert qs == front + [q] && ps + qs == (ps + front) + [q];
      LogConcat(crc, base, ps, front);
      LogAppend(crc, base + |ps|, front, q);
      LogAppend(crc, base, ps + front, q);
    }
  }

  lemma EmptySize()
    ensures Size([]) == 0
  {
  }

  /** The log splits at the start of any frame. */
  lemma LogSplit(crc: Checksum, base: nat, ps: seq<seq<Byte>>, k: nat)
    requires Numbered(base, ps) && Small(ps) && k <= |ps|
    ensures |Log(crc, base, ps)| == Size(ps) && Start(ps, k) <= Size(ps)
    ensures Log(crc, base, ps)[Start(ps, k)..] == Log(crc, base + k, ps[k..])
  {
    hide Log;
    assert ps == ps[..k] + ps[k..];
    LogConcat(crc, base, ps[..k], ps[k..]);
    LogLength(crc, base, ps);
    LogLength(crc, base, ps[..k]);
    StartOfPrefix(ps, ps[..k], k);
    if k < |ps| { StartsAscend(ps, k, |ps|); }
  }

  // ----- recovery ---------------------------------------------------------

  /** The recovery scan of a log and its blank tail finds the log's frames and nothing else. */
  lemma ScanFindsLog(crc: Checksum, base: nat, ps: seq<seq<Byte>>, n: nat)
    requires Numbered(base, ps) && Small(ps)
    ensures Parsed(crc, Log(crc, base, ps) + Zeros(n)).0 == FramesOf(base, ps)
  {
    ParseWire(crc, FramesOf(base, ps), Zeros(n));
    assert Parsed(crc, Zeros(n)).0 == [];
    assert FramesOf(base, ps) + [] == FramesOf(base, ps);
  }

  // ----- reading ----------------------------------------------------------

  datatype ReadResult = Found(payload: seq<Byte>) | NotFound | Unreadable(outcome: Outcome) | Closed

  /** A linear scan of bs for a frame stamped with offset. */
  function Scan(crc: Checksum, bs: seq<Byte>, offset: nat): ReadResult
    decreases |bs|
  {
    if bs == [] || bs[0] != MAGIC then NotFound
    else
      var (o, used) := Decoded(crc, bs);
      match o
      case Framed(f) => if f.offset == offset then Found(f.payload) else Scan(crc, bs[used..], offset)
      case EndOfStream => NotFound
      case _ => Unreadable(o)
  }

  lemma {:induction false} ScanReads(crc: Checksum, base: nat, ps: seq<seq<Byte>>, offset: nat)
    requires Numbered(base, ps) && Small(ps) && base <= offset
    ensures Scan(crc, Log(crc, base, ps), offset) == if offset - base < |ps| then Found(ps[offset - base]) else NotFound
    decreases |ps|
  {
    hide Decoded, Wire;
    if ps != [] {
      var f := Frame(base, ps[0]);
      var rest := Log(crc, base + 1, ps[1..]);
      assert FramesOf(base, ps) == [f] + FramesOf(base + 1, ps[1..]);
      assert Log(crc, base, ps) == Wire(crc, f) + rest;
      StartsWithMagic(crc, f, rest);
      DecodeEncode(crc, f, rest);
      if base < offset {
        assert (Wire(crc, f) + rest)[|Wire(crc, f)|..] == rest;
        ScanReads(crc, base + 1, ps[1..], offset);
      }
    }
  }

  lemma StartsWithMagic(crc: Checksum, f: Frame, tail: seq<Byte>)
    requires |f.payload| <= MAX_PAYLOAD
    ensures |Wire(crc, f) + tail| > 0 && (Wire(crc, f) + tail)[0] == MAGIC
  {
  }

  /** An index slot names a frame of the segment, or is blank: a blank slot names the frame at byte 0. */
  ghost predicate Names(s: Slot, ps: seq<seq<Byte>>) {
    s == Slot(0, 0) || (s.rel < |ps| && s.pos == Start(ps, s.rel))
  }

  ghost predicate Truthful(slots: seq<Slot>, ps: seq<seq<Byte>>) {
    forall i :: 0 <= i < |slots| ==> Names(slots[i], ps)
  }

  lemma NamesStill(s: Slot, ps: seq<seq<Byte>>, p: seq<Byte>)
    requires Names(s, ps)
    ensures Names(s, ps + [p])
  {
    if s.rel < |ps| {
      StartOfPrefix(ps + [p], ps, s.rel);
    }
  }

  /** Indexed reading equals scanning from byte 0, and both find the payload: whatever the index holds, in whatever
      order, it is enough that its slots are truthful. */
  lemma IndexedRead(crc: Checksum, base: nat, ps: seq<seq<Byte>>, slots: seq<Slot>, rel: nat, pos: nat, found: bool)
    requires Numbered(base, ps) && Small(ps) && rel < |ps|
    requires Truthful(slots, ps) && LookupOk(slots, rel, pos, found)
    ensures pos <= |Log(crc, base, ps)| == Size(ps) && pos <= Start(ps, rel)
    ensures Scan(crc, Log(crc, base, ps)[pos..], base + rel) == Found(ps[rel])
    ensures Scan(crc, Log(crc, base, ps), base + rel) == Found(ps[rel])
  {
    hide Log, Scan, Start, Size, Truthful, LookupOk;
    var k := SlotStart(ps, slots, rel, pos, found);
    LogSplit(crc, base, ps, k);
    ScanReads(crc, base + k, ps[k..], base + rel);
    ScanReads(crc, base, ps, base + rel);
  }

  /** Truthful slots send a read to the start of a frame at or before its own. */
  lemma SlotStart(ps: seq<seq<Byte>>, slots: seq<Slot>, rel: nat, pos: nat, found: bool) returns (k: nat)
    requires rel < |ps| && Truthful(slots, ps) && LookupOk(slots, rel, pos, found)
    ensures k <= rel && pos == Start(ps, k) <= Start(ps, rel)
  {
    k := 0;
    if found {
      var i :| 0 <= i < |slots| && Boundary(slots, rel, i) && slots[i].pos == pos;
      assert Names(slots[i], ps);
      k := slots[i].rel;
    }
    if k < rel { StartsAscend(ps, k, rel); }
  }

  // ----- the index a segment builds from its creation -----------------------

  function LastPos(slots: seq<Slot>): nat {
    if slots == [] then 0 else slots[|slots| - 1].pos
  }

  /** The slots written while ps are appended to a new segment: the first frame, and every frame at least interval
      bytes after the last one that has a slot. */
  ghost function Checkpoints(ps: seq<seq<Byte>>, interval: nat): seq<Slot> {
    if ps == [] then []
    else
      var front := ps[..|ps| - 1];
      var slots := Checkpoints(front, interval);
      if Size(front) == 0 || Size(front) >= LastPos(slots) + interval then slots + [Slot(|front|, Size(front))]
      else slots
  }

  lemma CheckpointStep(ps: seq<seq<Byte>>, p: seq<Byte>, interval: nat)
    ensures Checkpoints(ps + [p], interval) ==
      if Size(ps) == 0 || Size(ps) >= LastPos(Checkpoints(ps, interval)) + interval
      then Checkpoints(ps, interval) + [Slot(|ps|, Size(ps))] else Checkpoints(ps, interval)
  {
    assert (ps + [p])[..|ps|] == ps;
  }

  /** The slots are truthful, in order, and start with the segment's first frame; the last is the closest to the end. */
  lemma {:induction false} CheckpointsOrdered(ps: seq<seq<Byte>>, interval: nat)
    ensures var slots := Checkpoints(ps, interval);
      && Truthful(slots, ps) && Ascending(slots)
      && (ps != [] ==> slots != [] && slots[0] == Slot(0, 0) && LastPos(slots) < Size(ps))
      && (ps == [] ==> slots == [])
      && (forall i :: 0 <= i < |slots| ==> slots[i].rel < |ps|)
    decreases |ps|
  {
    hide Checkpoints, Names, Start;
    if ps == [] {
      NoCheckpoints(interval);
    } else {
      var front, p := ps[..|ps| - 1], ps[|ps| - 1];
      assert ps == front + [p];
      CheckpointsOrdered(front, interval);
      CheckpointStep(front, p, interval);
      NamesLast(front, p);
      var slots := Checkpoints(front, interval);
      forall i | 0 <= i < |slots|
        ensures Names(slots[i], ps)
      {
        NamesStill(slots[i], front, p);
      }
    }
  }

  lemma NoCheckpoints(interval: nat)
    ensures Checkpoints([], interval) == []
  {
  }

  lemma NamesLast(ps: seq<seq<Byte>>, p: seq<Byte>)
    ensures Names(Slot(|ps|, Size(ps)), ps + [p]) && Size(ps) < Size(ps + [p])
    ensures Size(ps) == 0 <==> ps == []
  {
    StartOfPrefix(ps + [p], ps, |ps|);
  }

  /** Slots lie at least interval bytes apart, so n of them need (n - 1) * interval bytes. */
  lemma {:induction false} CheckpointsSpread(ps: seq<seq<Byte>>, interval: nat)
    requires ps != []
    ensures var slots := Checkpoints(ps, interval);
      slots != [] && (|slots| - 1) * interval <= LastPos(slots)
    decreases |ps|
  {
    var front, p := ps[..|ps| - 1], ps[|ps| - 1];
    assert ps == front + [p];
    CheckpointStep(front, p, interval);
    if front != [] {
      CheckpointsSpread(front, interval);
      StartsAscend(front, 0, |front|);
      var n := |Checkpoints(front, interval)|;
      assert n * interval == (n - 1) * interval + interval;
    }
  }

  /** The index of a segment never fills: its slots are at most 1 + (maxBytes - 17) / interval, which leaves room among
      the maxBytes / interval + 16 it was given. */
  lemma IndexNeverFills(ps: seq<seq<Byte>>, interval: nat, maxBytes: nat)
    requires interval > 0 && ps != [] && Size(ps) <= maxBytes
    ensures maxBytes >= HEADER && |Checkpoints(ps, interval)| <= 1 + (maxBytes - HEADER) / interval
    ensures |Checkpoints(ps, interval)| < maxBytes / interval + 16
  {
    hide Checkpoints, Size, Start;
    var slots := Checkpoints(ps, interval);
    LastSlotRoom(ps, interval);
    CheckpointsSpread(ps, interval);
    MultiplesWithin(|slots| - 1, interval, maxBytes - HEADER);
    MultiplesWithin(|slots| - 1, interval, maxBytes);
  }

  lemma LastSlotRoom(ps: seq<seq<Byte>>, interval: nat)
    requires ps != []
    ensures LastPos(Checkpoints(ps, interval)) + HEADER <= Size(ps)
  {
    hide Checkpoints, Start;
    var slots := Checkpoints(ps, interval);
    CheckpointsOrdered(ps, interval);
    var last := slots[|slots| - 1];
    assert Names(last, ps) && last.rel < |ps|;
    StartsAscend(ps, last.rel, |ps|);
    StartsAtZero(ps);
  }

  lemma StartsAtZero(ps: seq<seq<Byte>>)
    ensures Start(ps, 0) == 0
  {
  }

  lemma MultiplesWithin(n: nat, d: nat, m: nat)
    requires d > 0 && n * d <= m
    ensures n <= m / d
  {
    var q := m / d;
    var r := n - q;
    assert m < q * d + d;
    assert n * d == q * d + r * d;
    assert r >= 1 ==> r * d >= d;
  }

  /** The scan bound: between the last slot at or below a frame and that frame lie fewer than interval bytes. */
  lemma {:induction false} CheckpointsDense(ps: seq<seq<Byte>>, interval: nat, i: nat, k: nat)
    requires interval > 0 && i < |ps| && k < |Checkpoints(ps, interval)| && Boundary(Checkpoints(ps, interval), i, k)
    ensures Checkpoints(ps, interval)[k].pos <= Start(ps, i) < Checkpoints(ps, interval)[k].pos + interval
    decreases |ps|
  {
    hide Checkpoints, Start;
    var front, p := ps[..|ps| - 1], ps[|ps| - 1];
    assert ps == front + [p];
    StartOfPrefix(ps, front, i);
    if i < |front| {
      CheckpointStep(front, p, interval);
      if front == [] || k >= |Checkpoints(front, interval)| {
        assert false;
      }
      CheckpointsDense(front, interval, i, k);
    } else {
      LastFrameDense(ps, interval, k);
    }
  }

  lemma LastFrameDense(ps: seq<seq<Byte>>, interval: nat, k: nat)
    requires interval > 0 && ps != [] && k < |Checkpoints(ps, interval)|
    requires Boundary(Checkpoints(ps, interval), |ps| - 1, k)
    ensures Checkpoints(ps, interval)[k].pos <= Start(ps, |ps| - 1) < Checkpoints(ps, interval)[k].pos + interval
  {
    hide Checkpoints, Start, Truthful;
    var front, p := ps[..|ps| - 1], ps[|ps| - 1];
    assert ps == front + [p];
    CheckpointStep(front, p, interval);
    CheckpointsOrdered(ps, interval);
    CheckpointsOrdered(front, interval);
    StartOfPrefix(ps, front, |front|);
    StartsAtZero(ps);
    if k + 1 < |Checkpoints(ps, interval)| {
      assert false;
    }
  }

  /** Reading since creation starts at a frame at or before the target, fewer than interval bytes away. */
  lemma SeekIsClose(ps: seq<seq<Byte>>, interval: nat, rel: nat, pos: nat, found: bool)
    requires interval > 0 && rel < |ps| && LookupOk(Checkpoints(ps, interval), rel, pos, found)
    ensures found && pos <= Start(ps, rel) < pos + interval
  {
    CheckpointsOrdered(ps, interval);
    var slots := Checkpoints(ps, interval);
    var k :| 0 <= k < |slots| && Boundary(slots, rel, k) && slots[k].pos == pos;
    CheckpointsDense(ps, interval, rel, k);
  }
}
