/** One segment of the write-ahead log: a fixed-size byte array written front to back, with a sparse index beside it. */
module WalSegment {
  import opened Bytes
  import opened Frames
  import opened SparseIndex
  import opened SegmentLog

  datatype AppendResult = Placed(pos: U32) | Full | Oversized | Sealed

  /** The files of a segment as a run leaves them. */
  datatype SegmentFiles = SegmentFiles(log: seq<Byte>, index: seq<Byte>)

  /** A payload that the encoder stores whole or refuses, but does not cut: all those under 4 GiB, among others. */
  predicate Uncut(payload: seq<Byte>) {
    |payload| <= MAX_PAYLOAD || ToU32(|payload|) > MAX_PAYLOAD
  }

  /** The bytes are ps's log, followed by blanks. */
  ghost predicate IsLog(crc: Checksum, base: nat, ps: seq<seq<Byte>>, bs: seq<Byte>) {
    && Small(ps) && Numbered(base, ps) && Size(ps) <= |bs|
    && bs[..Size(ps)] == Log(crc, base, ps)
    && forall i :: Size(ps) <= i < |bs| ==> bs[i] == 0
  }

  function IndexSlots(maxBytes: nat, interval: nat): nat
    requires interval > 0
  {
    maxBytes / interval + 16
  }

  /** Files that hold exactly ps: the log is their frames and blanks, and every index slot is truthful. */
  ghost predicate Holds(crc: Checksum, base: nat, maxBytes: nat, interval: nat, files: SegmentFiles, ps: seq<seq<Byte>>)
    requires interval > 0
  {
    && |files.log| <= maxBytes && IsLog(crc, base, ps, Mapped(files.log, maxBytes))
    && |files.index| <= IndexSlots(maxBytes, interval) * ENTRY
    && Truthful(IndexOf(files.index, IndexSlots(maxBytes, interval)), ps)
  }

  /** The slots of an index file once it is mapped at full size. */
  function IndexOf(file: seq<Byte>, n: nat): seq<Slot>
    requires |file| <= n * ENTRY
  {
    Slots(Mapped(file, n * ENTRY), n)
  }

  /** The bytes that a list of frames takes. */
  function Extent(fs: seq<Frame>): nat {
    if fs == [] then 0 else Extent(fs[..|fs| - 1]) + HEADER + |fs[|fs| - 1].payload|
  }

  /** The offset after the last frame's, or base when there is none. */
  function Following(base: U64, fs: seq<Frame>): nat {
    if fs == [] then base else (fs[|fs| - 1].offset + 1) % 0x1_0000_0000_0000_0000
  }

  lemma {:induction false} ExtentOfFrames(base: nat, ps: seq<seq<Byte>>)
    requires Numbered(base, ps) && Small(ps)
    ensures Extent(FramesOf(base, ps)) == Size(ps)
    decreases |ps|
  {
    if ps != [] {
      var front, p := ps[..|ps| - 1], ps[|ps| - 1];
      assert ps == front + [p];
      assert FramesOf(base, ps)[..|ps| - 1] == FramesOf(base, front);
      ExtentOfFrames(base, front);
      StartOfPrefix(ps, front, |front|);
    }
  }

  /** Recovery is exact on any clean log. */
  lemma RecoveryExact(crc: Checksum, base: U64, ps: seq<seq<Byte>>, bs: seq<Byte>)
    requires IsLog(crc, base, ps, bs)
    ensures var fs := Parsed(crc, bs).0;
      fs == FramesOf(base, ps) && Extent(fs) == Size(ps) && Following(base, fs) == base + |ps|
  {
    hide Log, Parsed, Size, Extent;
    assert bs == Log(crc, base, ps) + Zeros(|bs| - Size(ps)) by {
      assert bs[Size(ps)..] == Zeros(|bs| - Size(ps));
    }
    ScanFindsLog(crc, base, ps, |bs| - Size(ps));
    ExtentOfFrames(base, ps);
  }

  /** The recovery scan has passed the frames fs and stands at byte pos. */
  ghost predicate ScanState(crc: Checksum, base: U64, bs: seq<Byte>, fs: seq<Frame>, pos: nat, next: nat) {
    && pos <= |bs| && pos == Extent(fs) && next == Following(base, fs)
    && Parsed(crc, bs).0 == fs + Parsed(crc, bs[pos..]).0
  }

  lemma ScanStart(crc: Checksum, base: U64, bs: seq<Byte>)
    ensures ScanState(crc, base, bs, [], 0, base)
  {
    assert bs[0..] == bs && [] + Parsed(crc, bs).0 == Parsed(crc, bs).0;
  }

  lemma ScanStep(crc: Checksum, base: U64, bs: seq<Byte>, fs: seq<Frame>, pos: nat, next: nat)
    requires ScanState(crc, base, bs, fs, pos, next) && Decoded(crc, bs[pos..]).0.Framed?
    ensures var f := Decoded(crc, bs[pos..]).0.frame;
      && |f.payload| <= MAX_PAYLOAD
      && ScanState(crc, base, bs, fs + [f], pos + HEADER + |f.payload|, (f.offset + 1) % 0x1_0000_0000_0000_0000)
  {
    hide Decoded;
    var (o, used) := Decoded(crc, bs[pos..]);
    assert bs[pos..][used..] == bs[pos + used..];
    assert (fs + [o.frame])[..|fs|] == fs;
    assert fs + ([o.frame] + Parsed(crc, bs[pos + used..]).0) == fs + [o.frame] + Parsed(crc, bs[pos + used..]).0;
  }

  /** Where nothing decodes the scan has found everything. */
  lemma ScanEnd(crc: Checksum, base: U64, bs: seq<Byte>, fs: seq<Frame>, pos: nat, next: nat)
    requires ScanState(crc, base, bs, fs, pos, next)
    ensures pos + HEADER > |bs| || bs[pos] != MAGIC || !Decoded(crc, bs[pos..]).0.Framed? ==>
      Parsed(crc, bs).0 == fs && pos == Extent(fs) && next == Following(base, fs)
  {
    assert fs + [] == fs;
  }

  class Segment {
    const crc: Checksum
    const base: U64
    const maxBytes: nat
    const interval: U32
    const data: array<Byte>
    const index: SparseIndex
    var writePos: U32
    var nextOffset: U64
    var lastIndexByte: U32
    var sealed: bool
    ghost var payloads: seq<seq<Byte>>
    /** The segment and its index have been written by this object alone, from nothing. */
    ghost const created: bool

    ghost predicate Valid()
      reads this, data, index, index.data
    {
      && data.Length == maxBytes <= MAX_SEGMENT && interval > 0
      && IsLog(crc, base, payloads, data[..])
      && writePos == Size(payloads) && nextOffset == base + |payloads| && lastIndexByte <= writePos
      && index.Valid() && index.data != data && index.maxEntries == IndexSlots(maxBytes, interval)
      && Truthful(index.All(), payloads)
      && (created ==> index.Contents() == Checkpoints(payloads, interval) && lastIndexByte == LastPos(index.Contents()))
    }

    ghost function Footprint(): set<object> {
      {this, data, index, index.data}
    }

    /** Opening a new segment or one that an earlier run wrote. */
    constructor Open(crc: Checksum, base: U64, maxBytes: nat, interval: U32, files: SegmentFiles,
                     ghost ps: seq<seq<Byte>>)
      requires interval > 0 && maxBytes <= MAX_SEGMENT && Holds(crc, base, maxBytes, interval, files, ps)
      ensures Valid() && payloads == ps && !sealed && fresh(Footprint())
      ensures this.crc == crc && this.base == base && this.maxBytes == maxBytes && this.interval == interval
      ensures created == (ps == [] && |files.index| < ENTRY)
      ensures lastIndexByte == 0 && index.count == |files.index| / 8 && index.maxEntries == maxBytes / interval + 16
    {
      this.crc, this.base, this.maxBytes, this.interval := crc, base, maxBytes, interval;
      data := new Byte[maxBytes](i requires 0 <= i < maxBytes => Mapped(files.log, maxBytes)[i]);
      index := new SparseIndex.Open(files.index, IndexSlots(maxBytes, interval));
      writePos, nextOffset, lastIndexByte, sealed := 0, base, 0, false;
      payloads := ps;
      created := ps == [] && |files.index| < ENTRY;
      new;
      assert data[..] == Mapped(files.log, maxBytes);
      RecoveryExact(crc, base, ps, data[..]);
      Recover();
    }

    /** The recovery scan: position and next offset after the frames that parse from byte 0, whatever the bytes are. */
    method Recover()
      requires data.Length == maxBytes <= MAX_SEGMENT && nextOffset == base
      modifies this`writePos, this`nextOffset
      ensures var fs := Parsed(crc, data[..]).0; writePos == Extent(fs) && nextOffset == Following(base, fs)
    {
      hide Decoded, Parsed, Extent, Following;
      var pos: U32 := 0;
      ghost var fs: seq<Frame> := [];
      ScanStart(crc, base, data[..]);
      while pos + HEADER <= maxBytes
        invariant pos <= maxBytes && ScanState(crc, base, data[..], fs, pos, nextOffset)
        decreases maxBytes - pos
      {
        ScanEnd(crc, base, data[..], fs, pos, nextOffset);
        if data[pos] != MAGIC {
          break;
        }
        var reader := new Reader(data[pos..], []);
        var o := DecodeFrame(crc, reader);
        if !o.Framed? {
          break;
        }
        ScanStep(crc, base, data[..], fs, pos, nextOffset);
        fs := fs + [o.frame];
        pos := pos + HEADER + |o.frame.payload|;
        nextOffset := (o.frame.offset + 1) % 0x1_0000_0000_0000_0000;
      }
      ScanEnd(crc, base, data[..], fs, pos, nextOffset);
      writePos := pos;
    }

    /** Append a frame, giving it an index slot when the last one is interval bytes back. */
    method Append(offset: U64, payload: seq<Byte>) returns (r: AppendResult)
      requires Valid() && offset == nextOffset && offset + 1 < 0x1_0000_0000_0000_0000 && Uncut(payload)
      modifies this, data, index, index.data
      ensures Valid() && sealed == old(sealed)
      ensures r == if sealed then Sealed
                   else if |payload| > MAX_PAYLOAD then Oversized
                   else if old(writePos) + HEADER + |payload| > maxBytes then Full
                   else Placed(old(writePos))
      ensures payloads == if r.Placed? then old(payloads) + [payload] else old(payloads)
      // the frame gets a slot when it is first or interval bytes past the last slot's, if the index has room
      ensures var due := old(writePos == 0 || writePos >= lastIndexByte + interval);
        var adds := r.Placed? && due && old(index.count) < index.maxEntries;
        && index.Contents() == old(index.Contents()) + (if adds then [Slot(old(|payloads|), old(writePos))] else [])
        && lastIndexByte == (if adds then old(writePos) else old(lastIndexByte))
    {
      hide Encode, Wire, Checkpoints, Size, Truthful, IsLog, Slots, OnlyAdds;
      if sealed {
        return Sealed;
      }
      EncodeVerdict(crc, offset, payload);
      RelativeFits();
      var e := EncodeFrame(crc, offset, payload);
      if e.PayloadTooLarge? {
        return Oversized;
      }
      WireSize(crc, offset, payload);
      var frameLen := ToU32(|e.bytes|);
      if ToU32(writePos + frameLen) > maxBytes {
        return Full;
      }
      r := Placed(writePos);
      AddSlot(offset);
      Write(e.bytes, payload);
      SlotsFollow(old(index.All()), index.All(), old(payloads), payload);
      CheckpointStep(old(payloads), payload, interval);
    }

    ghost predicate Due() reads this
      requires lastIndexByte <= writePos
    {
      writePos == 0 || writePos - lastIndexByte >= interval
    }

    /** The index is told of the frame about to be written when it is due; a full index is ignored. */
    method AddSlot(offset: U64)
      requires Valid() && offset == nextOffset
      modifies this`lastIndexByte, index, index.data
      ensures index.Valid() && lastIndexByte <= writePos
      ensures OnlyAdds(old(index.All()), index.All(), Slot(|payloads|, Size(payloads)))
      ensures var adds := old(Due()) && old(index.count) < index.maxEntries;
        && lastIndexByte == (if adds then writePos else old(lastIndexByte))
        && index.Contents() == old(index.Contents()) + (if adds then [Slot(|payloads|, Size(payloads))] else [])
    {
      hide Checkpoints, IsLog, Truthful, Size, Slots, ToU32, OnlyAdds;
      RelativeFits();
      assert index.Contents() + [] == index.Contents();
      if ToU32(writePos - lastIndexByte) >= interval || writePos == 0 {
        var ok := index.Append(ToU32(offset - base), writePos);
        if ok {
          lastIndexByte := writePos;
        }
        Adds(old(index.All()), index.All(), old(index.count), Slot(|payloads|, Size(payloads)));
      } else {
        Adds(old(index.All()), index.All(), 0, Slot(|payloads|, Size(payloads)));
      }
    }

    /** Relative offsets and positions never lose bits, and an index kept from the segment's creation always
        has room. */
    lemma RelativeFits()
      requires Valid()
      ensures |payloads| * HEADER <= maxBytes && ToU32(nextOffset - base) == |payloads|
      ensures ToU32(writePos - lastIndexByte) == writePos - lastIndexByte
      ensures created ==> index.count < index.maxEntries
      ensures writePos <= maxBytes
    {
      hide Checkpoints, Truthful, Log, Slots;
      if created {
        if payloads == [] {
          NoCheckpoints(interval);
        } else {
          IndexNeverFills(payloads, interval, maxBytes);
        }
      }
    }

    method Write(bytes: seq<Byte>, payload: seq<Byte>)
      requires data.Length == maxBytes <= MAX_SEGMENT && IsLog(crc, base, payloads, data[..])
      requires writePos == Size(payloads)
      requires nextOffset == base + |payloads| && nextOffset + 1 < 0x1_0000_0000_0000_0000 && |payload| <= MAX_PAYLOAD
      requires bytes == Wire(crc, Frame(nextOffset, payload)) && writePos + |bytes| <= maxBytes
      modifies this`writePos, this`nextOffset, this`payloads, data
      ensures payloads == old(payloads) + [payload] && IsLog(crc, base, payloads, data[..])
      ensures writePos == Size(payloads) == old(writePos) + |bytes| && nextOffset == base + |payloads|
    {
      hide Log, Size;
      LogAppend(crc, base, payloads, payload);
      ghost var at := writePos;
      PutBytes(data, writePos, bytes);
      assert data[..at + |bytes|] == old(data[..at]) + bytes;
      writePos := writePos + |bytes|;
      nextOffset := nextOffset + 1;
      payloads := payloads + [payload];
    }

    /** Where a read of offset starts: at the start of a frame at or before its own and, when the index is as old as the
        segment, fewer than interval bytes before it. */
    method Seek(offset: U64) returns (start: nat)
      requires Valid() && base <= offset < nextOffset
      ensures start <= writePos && Scan(crc, data[start..writePos], offset) == Found(payloads[offset - base])
      ensures Scan(crc, data[..writePos], offset) == Found(payloads[offset - base])
      ensures start <= Start(payloads, offset - base)
      ensures created ==> Start(payloads, offset - base) < start + interval
    {
      hide Checkpoints, Scan, Truthful, Start, Size, Log, Slots, LookupOk;
      RelativeFits();
      ghost var rel := offset - base;
      var found;
      start, found := index.Lookup(ToU32(offset - base));
      assert Truthful(index.Contents(), payloads) by { PrefixTruthful(index.All(), index.Contents(), payloads); }
      IndexedRead(crc, base, payloads, index.Contents(), rel, start, found);
      assert data[..writePos][start..] == data[start..writePos];
      if created {
        SeekIsClose(payloads, interval, rel, start, found);
      }
    }

    /** ReadAt: the payload at offset, for exactly the offsets the segment holds. */
    method ReadAt(offset: U64) returns (r: ReadResult)
      requires Valid()
      ensures r == if base <= offset < nextOffset then Found(payloads[offset - base]) else NotFound
    {
      if offset < base || offset >= nextOffset {
        return NotFound;
      }
      var start := Seek(offset);
      r := ScanFrom(start, offset);
    }

    /** The linear scan of the written bytes from position start. */
    method ScanFrom(start: nat, offset: U64) returns (r: ReadResult)
      requires start <= writePos <= data.Length
      ensures r == Scan(crc, data[start..writePos], offset)
    {
      hide Decoded;
      var pos := start;
      while pos < writePos
        invariant start <= pos <= writePos
        invariant Scan(crc, data[start..writePos], offset) == Scan(crc, data[pos..writePos], offset)
      {
        if data[pos] != MAGIC {
          break;
        }
        var reader := new Reader(data[pos..writePos], []);
        var o := DecodeFrame(crc, reader);
        if !o.Framed? {
          return if o == EndOfStream then NotFound else Unreadable(o);
        }
        if o.frame.offset == offset {
          return Found(o.frame.payload);
        }
        assert data[pos..writePos][HEADER + |o.frame.payload|..] == data[pos + HEADER + |o.frame.payload|..writePos];
        pos := pos + HEADER + |o.frame.payload|;
      }
      r := NotFound;
    }

    /** The files as they stand. Closing means to cut the index file to the slots in use, but the file handle is already
        closed by then: both outcomes are covered. */
    function Files(trimmed: bool): SegmentFiles
      requires Valid()
      reads this, data, index, index.data
    {
      SegmentFiles(data[..], if trimmed then index.data[..index.count * ENTRY] else index.data[..])
    }

    /** The files hold exactly the payloads, blank index slots counted or not. */
    lemma FilesHold(trimmed: bool)
      requires Valid()
      ensures Holds(crc, base, maxBytes, interval, Files(trimmed), payloads)
    {
      hide Log, Size;
      var n, files := index.maxEntries, Files(trimmed);
      assert Mapped(files.log, maxBytes) == data[..];
      if trimmed {
        TrimmedTruthful(index.data[..], n, index.count, payloads);
      } else {
        assert Mapped(files.index, n * ENTRY) == index.data[..];
      }
    }

    method Close()
      requires Valid()
      modifies this`sealed
      ensures Valid() && sealed
    {
      sealed := true;
    }
  }

  lemma EncodeVerdict(crc: Checksum, offset: U64, payload: seq<Byte>)
    requires Uncut(payload)
    ensures Encode(crc, offset, payload).PayloadTooLarge? <==> |payload| > MAX_PAYLOAD
  {
  }

  lemma WireSize(crc: Checksum, offset: U64, payload: seq<Byte>)
    requires |payload| <= MAX_PAYLOAD
    ensures |Wire(crc, Frame(offset, payload))| == HEADER + |payload|
  {
  }

  /** Every slot is as it was or is the new one. */
  ghost predicate OnlyAdds(slots: seq<Slot>, slots': seq<Slot>, s: Slot) {
    |slots'| == |slots| && forall i :: 0 <= i < |slots| ==> slots'[i] == slots[i] || slots'[i] == s
  }

  lemma Adds(slots: seq<Slot>, slots': seq<Slot>, k: nat, s: Slot)
    requires slots' == slots || (k < |slots| && slots' == slots[k := s])
    ensures OnlyAdds(slots, slots', s)
  {
  }

  /** Slots stay truthful as the segment grows, and the new frame's own slot is. */
  lemma SlotsFollow(slots: seq<Slot>, slots': seq<Slot>, ps: seq<seq<Byte>>, p: seq<Byte>)
    requires Truthful(slots, ps) && OnlyAdds(slots, slots', Slot(|ps|, Size(ps)))
    ensures Truthful(slots', ps + [p])
  {
    hide Names;
    NamesLast(ps, p);
    forall i | 0 <= i < |slots'|
      ensures Names(slots'[i], ps + [p])
    {
      NamesStill(slots[i], ps, p);
    }
  }

  lemma PrefixTruthful(all: seq<Slot>, slots: seq<Slot>, ps: seq<seq<Byte>>)
    requires Truthful(all, ps) && slots <= all
    ensures Truthful(slots, ps)
  {
    forall i | 0 <= i < |slots|
      ensures Names(slots[i], ps)
    {
      assert slots[i] == all[i];
    }
  }

  /** Cutting an index file after slot k turns the later slots blank. */
  lemma TrimmedTruthful(bs: seq<Byte>, n: nat, k: nat, ps: seq<seq<Byte>>)
    requires |bs| == n * ENTRY && k <= n && Truthful(Slots(bs, n), ps)
    ensures Truthful(IndexOf(bs[..k * ENTRY], n), ps)
  {
    var cs := Mapped(bs[..k * ENTRY], n * ENTRY);
    assert cs[..k * ENTRY] == bs[..k * ENTRY];
    forall i | 0 <= i < n
      ensures Names(SlotAt(cs, i), ps)
    {
      if i < k {
        SameWindow(cs, bs, k * ENTRY, i * ENTRY, i * ENTRY + 4);
        SameWindow(cs, bs, k * ENTRY, i * ENTRY + 4, (i + 1) * ENTRY);
        assert Names(Slots(bs, n)[i], ps);
      } else {
        BlankSlot(cs, i);
      }
    }
  }

  lemma NewFiles(crc: Checksum, base: U64, maxBytes: nat, interval: nat)
    requires interval > 0 && base < 0x1_0000_0000_0000_0000
    ensures Holds(crc, base, maxBytes, interval, SegmentFiles([], []), [])
  {
    var n := IndexSlots(maxBytes, interval);
    forall i | 0 <= i < n
      ensures IndexOf([], n)[i] == Slot(0, 0)
    {
      BlankSlot(Mapped([], n * ENTRY), i);
    }
  }
}
