/** The write-ahead log: segments that roll over, read as one list of payloads. */
module Wal {
  import opened Bytes
  import opened Frames
  import opened SegmentLog
  import opened WalSegment
  import opened Sorting

  datatype WriteResult = Written(offset: U64) | WriteClosed | WriteRefused

  predicate Leq(a: U64, b: U64) {
    a <= b
  }

  /** A payload the log stores: at most 32 MiB, and its frame fits in a segment. */
  predicate Storable(payload: seq<Byte>, maxBytes: nat) {
    |payload| <= MAX_PAYLOAD && HEADER + |payload| <= maxBytes
  }

  /** Segment bases cut a log of n payloads into consecutive parts, some of which may be empty. */
  ghost predicate Cuts(bases: seq<U64>, n: nat) {
    && bases != [] && bases[0] == 0 && bases[|bases| - 1] <= n
    && forall i, j :: 0 <= i < j < |bases| ==> bases[i] <= bases[j]
  }

  ghost function Until(bases: seq<U64>, n: nat, i: nat): nat
    requires i < |bases|
  {
    if i + 1 < |bases| then bases[i + 1] else n
  }

  /** The payloads of part i. */
  ghost function Part(bases: seq<U64>, contents: seq<seq<Byte>>, i: nat): seq<seq<Byte>>
    requires Cuts(bases, |contents|) && i < |bases|
  {
    contents[bases[i]..Until(bases, |contents|, i)]
  }

  function Bases(segs: seq<Segment>): (bases: seq<U64>)
    ensures |bases| == |segs|
  {
    seq(|segs|, i requires 0 <= i < |segs| => segs[i].base)
  }

  /** What a directory of segment files holds. */
  ghost predicate Stored(crc: Checksum, maxBytes: nat, interval: nat, bases: seq<U64>, files: map<U64, SegmentFiles>,
                         contents: seq<seq<Byte>>)
    requires interval > 0
  {
    && Cuts(bases, |contents|)
    && StoredUpTo(crc, maxBytes, interval, bases, files, contents, |bases|)
  }

  ghost predicate StoredAt(crc: Checksum, maxBytes: nat, interval: nat, bases: seq<U64>, files: map<U64, SegmentFiles>,
                           contents: seq<seq<Byte>>, i: nat)
    requires interval > 0 && Cuts(bases, |contents|) && i < |bases|
  {
    bases[i] in files && Holds(crc, bases[i], maxBytes, interval, files[bases[i]], Part(bases, contents, i))
  }

  /** Of the first n parts, i is the last with its base. An earlier one is empty: its file has been opened again. */
  ghost predicate LastOfBase(bases: seq<U64>, i: nat, n: nat)
    requires i < n <= |bases|
  {
    i + 1 == n || bases[i] < bases[i + 1]
  }

  /** The first n parts are stored, each under its base. */
  ghost predicate StoredUpTo(crc: Checksum, maxBytes: nat, interval: nat, bases: seq<U64>, files: map<U64,
                             SegmentFiles>,
                             contents: seq<seq<Byte>>, n: nat)
    requires interval > 0 && Cuts(bases, |contents|) && n <= |bases|
  {
    forall i {:trigger StoredAt(crc, maxBytes, interval, bases, files, contents, i)} ::
      0 <= i < n && LastOfBase(bases, i, n) ==> StoredAt(crc, maxBytes, interval, bases, files, contents, i)
  }

  /** One more file leaves the earlier parts as they were. */
  lemma StoreNext(crc: Checksum, maxBytes: nat, interval: nat, bases: seq<U64>, files: map<U64, SegmentFiles>,
                  contents: seq<seq<Byte>>, n: nat, f: SegmentFiles)
    requires interval > 0 && Cuts(bases, |contents|) && n < |bases|
    requires StoredUpTo(crc, maxBytes, interval, bases, files, contents, n)
    requires Holds(crc, bases[n], maxBytes, interval, f, Part(bases, contents, n))
    ensures StoredUpTo(crc, maxBytes, interval, bases, files[bases[n] := f], contents, n + 1)
  {
    hide Holds;
    var after := files[bases[n] := f];
    forall i | 0 <= i < n + 1 && LastOfBase(bases, i, n + 1)
      ensures StoredAt(crc, maxBytes, interval, bases, after, contents, i)
    {
      if i < n {
        assert bases[i] < bases[i + 1] <= bases[n];
        assert LastOfBase(bases, i, n);
        assert StoredAt(crc, maxBytes, interval, bases, files, contents, i);
      }
    }
  }

  /** A directory keeps one file to a base: its sorted listing stores what the segments do. */
  lemma StoredByName(crc: Checksum, maxBytes: nat, interval: nat, bases: seq<U64>, names: seq<U64>,
                     files: map<U64, SegmentFiles>, contents: seq<seq<Byte>>)
    requires interval > 0 && Stored(crc, maxBytes, interval, bases, files, contents)
    requires Sorted(Leq, names) && Distinct(names) && forall b :: b in names <==> b in bases
    ensures Stored(crc, maxBytes, interval, names, files, contents) && names[|names| - 1] == bases[|bases| - 1]
  {
    hide Holds;
    NamesCut(bases, names, |contents|);
    forall i | 0 <= i < |names|
      ensures StoredAt(crc, maxBytes, interval, names, files, contents, i)
    {
      var k := LastWithBase(bases, names, |contents|, i);
      assert StoredAt(crc, maxBytes, interval, bases, files, contents, k);
    }
  }

  lemma NamesCut(bases: seq<U64>, names: seq<U64>, n: nat)
    requires Cuts(bases, n) && Sorted(Leq, names) && forall b :: b in names <==> b in bases
    ensures Cuts(names, n) && names[|names| - 1] == bases[|bases| - 1]
  {
    assert bases[0] in names && bases[|bases| - 1] in names;
    var first :| 0 <= first < |names| && names[first] == bases[0];
    var last :| 0 <= last < |names| && names[last] == bases[|bases| - 1];
    assert names[0] in bases && names[|names| - 1] in bases;
    assert forall i, j :: 0 <= i < j < |names| ==> Leq(names[i], names[j]);
  }

  /** The last segment with the i-th name's base, and that its part reaches to the next name's. */
  lemma LastWithBase(bases: seq<U64>, names: seq<U64>, n: nat, i: nat) returns (k: nat)
    requires Cuts(bases, n) && Cuts(names, n) && Distinct(names) && i < |names|
    requires forall b :: b in names <==> b in bases
    ensures k < |bases| && LastOfBase(bases, k, |bases|) && bases[k] == names[i]
    ensures Until(bases, n, k) == Until(names, n, i)
  {
    assert names[i] in bases;
    k :| 0 <= k < |bases| && bases[k] == names[i];
    while k + 1 < |bases| && bases[k + 1] == names[i]
      invariant k < |bases| && bases[k] == names[i]
    {
      k := k + 1;
    }
    if k + 1 < |bases| {
      assert bases[k + 1] in names;
      var j :| 0 <= j < |names| && names[j] == bases[k + 1];
      assert i < j;
      assert names[i + 1] in bases;
      var m :| 0 <= m < |bases| && bases[m] == names[i + 1];
      assert m > k;
    } else if i + 1 < |names| {
      assert names[i + 1] in bases;
    }
  }

  /** names is a listing of the directory, in any order. */
  ghost predicate Lists(names: seq<U64>, files: map<U64, SegmentFiles>) {
    Distinct(names) && forall b :: b in names <==> b in files
  }

  /** The segment and all it writes to lie in repr. */
  ghost predicate In(s: Segment, repr: set<object>) {
    s in repr && s.data in repr && s.index in repr && s.index.data in repr
  }

  ghost predicate Housed(segs: seq<Segment>, repr: set<object>) {
    forall i {:trigger segs[i]} :: 0 <= i < |segs| ==> In(segs[i], repr)
  }

  /** A valid segment of this log that holds ps. */
  ghost predicate Bears(s: Segment, crc: Checksum, maxBytes: nat, interval: nat, ps: seq<seq<Byte>>)
    reads s, s.data, s.index, s.index.data
  {
    s.Valid() && s.crc == crc && s.maxBytes == maxBytes && s.interval == interval && s.payloads == ps
  }

  ghost predicate Apart(segs: seq<Segment>) {
    forall i, j {:trigger segs[i], segs[j]} :: 0 <= i < j < |segs| ==> Separate(segs[i], segs[j])
  }

  ghost predicate Separate(s: Segment, t: Segment) {
    s.Footprint() !! t.Footprint()
  }

  ghost predicate BearsPart(segs: seq<Segment>, crc: Checksum, maxBytes: nat, interval: nat, contents: seq<seq<Byte>>,
                            i: nat)
    requires Cuts(Bases(segs), |contents|) && i < |segs|
    reads segs[i], segs[i].data, segs[i].index, segs[i].index.data
  {
    Bears(segs[i], crc, maxBytes, interval, Part(Bases(segs), contents, i))
  }

  /** Separate segments that between them hold contents, part by part. */
  ghost predicate Laid(segs: seq<Segment>, repr: set<object>, crc: Checksum, maxBytes: nat, interval: nat,
                       contents: seq<seq<Byte>>)
    reads repr
  {
    && Housed(segs, repr) && Cuts(Bases(segs), |contents|) && Apart(segs)
    && forall i {:trigger BearsPart(segs, crc, maxBytes, interval, contents, i)} :: 0 <= i < |segs| ==>
         BearsPart(segs, crc, maxBytes, interval, contents, i)
  }

  /** What the last segment says of itself. */
  lemma LastPart(segs: seq<Segment>, repr: set<object>, crc: Checksum, maxBytes: nat, interval: nat,
                 contents: seq<seq<Byte>>)
    requires segs != [] && Laid(segs, repr, crc, maxBytes, interval, contents)
    ensures var last := segs[|segs| - 1];
      last.base <= |contents| && Bears(last, crc, maxBytes, interval, contents[last.base..]) && In(last, repr)
  {
    hide Bears;
    var i := |segs| - 1;
    assert BearsPart(segs, crc, maxBytes, interval, contents, i);
    assert Bases(segs)[i] == segs[i].base;
    assert Part(Bases(segs), contents, i) == contents[segs[i].base..];
  }

  lemma BearsNext(s: Segment, crc: Checksum, maxBytes: nat, interval: nat, ps: seq<seq<Byte>>)
    requires Bears(s, crc, maxBytes, interval, ps)
    ensures s.nextOffset == s.base + |ps| && s.writePos <= maxBytes && s.interval > 0 && maxBytes <= MAX_SEGMENT
    ensures s.writePos == 0 <==> ps == []
  {
    hide Log, Checkpoints, Truthful;
    EmptySize();
  }

  /** The last segment may gain a payload while the others stay. */
  lemma LastGrows(segs: seq<Segment>, repr: set<object>, crc: Checksum, maxBytes: nat, interval: nat,
                  contents: seq<seq<Byte>>, more: seq<seq<Byte>>)
    requires segs != [] && Housed(segs, repr) && Cuts(Bases(segs), |contents|) && Apart(segs)
    requires forall i :: 0 <= i < |segs| - 1 ==> BearsPart(segs, crc, maxBytes, interval, contents, i)
    requires var last := segs[|segs| - 1];
      last.base <= |contents| && Bears(last, crc, maxBytes, interval, contents[last.base..] + more)
    ensures Laid(segs, repr, crc, maxBytes, interval, contents + more)
  {
    hide Bears;
    forall i | 0 <= i < |segs|
      ensures BearsPart(segs, crc, maxBytes, interval, contents + more, i)
    {
      if i < |segs| - 1 {
        assert BearsPart(segs, crc, maxBytes, interval, contents, i);
        assert Bases(segs)[i + 1] <= Bases(segs)[|segs| - 1];
        assert Part(Bases(segs), contents + more, i) == Part(Bases(segs), contents, i);
      } else {
        assert Part(Bases(segs), contents + more, i) == contents[segs[i].base..] + more;
      }
    }
  }

  /** A new, empty segment continues the log. */
  lemma NewLast(segs: seq<Segment>, repr: set<object>, s: Segment, crc: Checksum, maxBytes: nat, interval: nat,
                contents: seq<seq<Byte>>)
    requires segs != [] && Laid(segs, repr, crc, maxBytes, interval, contents)
    requires s.base == |contents| && Bears(s, crc, maxBytes, interval, [])
    requires s.Footprint() !! repr
    ensures Laid(segs + [s], repr + s.Footprint(), crc, maxBytes, interval, contents)
  {
    hide Bears;
    var all := segs + [s];
    forall i, j | 0 <= i < j < |all|
      ensures Bases(all)[i] <= Bases(all)[j]
    {
      if j < |segs| {
        assert Bases(segs)[i] <= Bases(segs)[j];
      } else {
        assert Bases(segs)[i] <= Bases(segs)[|segs| - 1];
      }
    }
    assert Bases(all)[0] == Bases(segs)[0];
    forall i | 0 <= i < |all|
      ensures BearsPart(all, crc, maxBytes, interval, contents, i)
    {
      if i < |segs| {
        assert BearsPart(segs, crc, maxBytes, interval, contents, i);
        assert Part(Bases(all), contents, i) == Part(Bases(segs), contents, i);
      } else {
        assert Part(Bases(all), contents, i) == [];
      }
    }
  }

  /** The segment that covers an offset. */
  lemma Covered(segs: seq<Segment>, repr: set<object>, crc: Checksum, maxBytes: nat, interval: nat,
                contents: seq<seq<Byte>>, i: nat, offset: nat)
    requires Laid(segs, repr, crc, maxBytes, interval, contents) && i < |segs| && segs[i].base <= offset
    requires i + 1 < |segs| ==> offset < segs[i + 1].base
    ensures segs[i].Valid()
    ensures segs[i].base <= offset < segs[i].nextOffset <==> offset < |contents|
    ensures offset < |contents| ==>
      offset - segs[i].base < |segs[i].payloads| && segs[i].payloads[offset - segs[i].base] == contents[offset]
  {
    hide Segment.Valid;
    assert BearsPart(segs, crc, maxBytes, interval, contents, i);
    BearsNext(segs[i], crc, maxBytes, interval, Part(Bases(segs), contents, i));
    assert i + 1 < |segs| ==> Bases(segs)[i + 1] <= Bases(segs)[|segs| - 1];
  }

  class Wal {
    const crc: Checksum
    const maxBytes: nat
    const interval: U32
    var active: Segment
    var closedSegments: seq<Segment>
    var nextOffset: U64
    var closed: bool
    ghost var contents: seq<seq<Byte>>
    ghost var Parts: set<object>
    ghost var Repr: set<object>

    ghost function Segments(): (segs: seq<Segment>)
      reads this
      ensures |segs| > 0
    {
      closedSegments + [active]
    }

    ghost predicate Valid()
      reads this, Parts
    {
      && Repr == {this} + Parts && this !in Parts
      && interval > 0 && maxBytes <= MAX_SEGMENT && nextOffset == |contents|
      && Laid(Segments(), Parts, crc, maxBytes, interval, contents)
      && active in Parts && (!closed ==> !active.sealed)
    }

    constructor (crc: Checksum, maxBytes: nat, interval: U32, segs: seq<Segment>, ghost parts: set<object>,
                 ghost contents: seq<seq<Byte>>)
      requires interval > 0 && maxBytes <= MAX_SEGMENT && segs != []
      requires Laid(segs, parts, crc, maxBytes, interval, contents)
      requires !segs[|segs| - 1].sealed
      ensures Valid() && !closed && this.contents == contents && Parts == parts
      ensures this.crc == crc && this.maxBytes == maxBytes && this.interval == interval && Segments() == segs
    {
      hide Bears, Segment.Valid, Laid, Segment.Footprint;
      this.crc, this.maxBytes, this.interval := crc, maxBytes, interval;
      LastPart(segs, parts, crc, maxBytes, interval, contents);
      BearsNext(segs[|segs| - 1], crc, maxBytes, interval, contents[segs[|segs| - 1].base..]);
      active, closedSegments := segs[|segs| - 1], segs[..|segs| - 1];
      nextOffset := segs[|segs| - 1].nextOffset;
      closed := false;
      this.contents := contents;
      Parts, Repr := parts, {this} + parts;
      new;
      assert Segments() == segs;
    }

    /** Append: the next offset, with rolling when the frame does not fit; a frame that fits in no segment is refused
        after rolling. */
    method Append(payload: seq<Byte>) returns (r: WriteResult)
      requires Valid() && Uncut(payload) && |contents| + 1 < 0x1_0000_0000_0000_0000
      modifies Repr
      ensures Valid() && fresh(Repr - old(Repr)) && closed == old(closed)
      ensures r == if closed then WriteClosed
                   else if Storable(payload, maxBytes) then Written(|old(contents)|) else WriteRefused
      ensures contents == if r.Written? then old(contents) + [payload] else old(contents)
      // at most one new segment, and exactly when the frame does not fit in the active one
      ensures Segments() == old(Segments())
              || (Segments() == old(Segments()) + [active] && active.base == |old(contents)|)
      ensures !closed && |payload| <= MAX_PAYLOAD ==>
        (Segments() == old(Segments()) <==> old(active.writePos) + HEADER + |payload| <= maxBytes)
    {
      hide Bears, Segment.Valid, Laid;
      if closed {
        return WriteClosed;
      }
      var offset := nextOffset;
      var frameLen := ToU32(HEADER + |payload|);
      LastPart(Segments(), Parts, crc, maxBytes, interval, contents);
      BearsNext(active, crc, maxBytes, interval, contents[active.base..]);
      if ToU32(active.writePos + frameLen) > maxBytes {
        RollActiveSegment();
      }
      var stored := Store(offset, payload);
      if !stored {
        assert contents + [] == contents;
        return WriteRefused;
      }
      nextOffset := offset + 1;
      contents := contents + [payload];
      r := Written(offset);
    }

    method Store(offset: U64, payload: seq<Byte>) returns (stored: bool)
      requires Valid() && !closed && offset == nextOffset && offset + 1 < 0x1_0000_0000_0000_0000
      requires Uncut(payload)
      requires Storable(payload, maxBytes) ==> active.writePos + HEADER + |payload| <= maxBytes
      modifies active, active.data, active.index, active.index.data
      ensures stored <==> Storable(payload, maxBytes)
      ensures Laid(Segments(), Parts, crc, maxBytes, interval, contents + if stored then [payload] else [])
      ensures !active.sealed
    {
      hide Bears, Segment.Valid;
      ghost var segs := Segments();
      LastPart(segs, Parts, crc, maxBytes, interval, contents);
      BearsNext(active, crc, maxBytes, interval, contents[active.base..]);
      BearsValid(active, crc, maxBytes, interval, contents[active.base..]);
      var a := active.Append(offset, payload);
      stored := a.Placed?;
      ghost var more := if stored then [payload] else [];
      assert active.payloads == contents[active.base..] + more;
      BearsIt(active, crc, maxBytes, interval, active.payloads);
      LastGrows(segs, Parts, crc, maxBytes, interval, contents, more);
    }

    /** Roll over to a segment based at the next offset. An empty active segment has that base already: its own files
        are opened again, and the old mapping, never written or read any more, stays among the closed segments. */
    method RollActiveSegment()
      requires Valid() && !closed
      modifies this
      ensures Valid() && !closed && contents == old(contents) && nextOffset == old(nextOffset)
      ensures fresh(Repr - old(Repr)) && active.writePos == 0 && fresh(active.Footprint())
      ensures Segments() == old(Segments()) + [active] && active.base == nextOffset
    {
      hide Bears, Segment.Valid, Laid, Holds;
      ghost var segs := Segments();
      LastPart(segs, Parts, crc, maxBytes, interval, contents);
      var files := SegmentFiles([], []);
      if active.base == nextOffset {
        assert contents[active.base..] == [];
        BearsValid(active, crc, maxBytes, interval, []);
        active.FilesHold(false);
        files := active.Files(false);
      } else {
        NewFiles(crc, nextOffset, maxBytes, interval);
      }
      var s := new Segment.Open(crc, nextOffset, maxBytes, interval, files, []);
      BearsIt(s, crc, maxBytes, interval, []);
      BearsNext(s, crc, maxBytes, interval, []);
      NewLast(segs, Parts, s, crc, maxBytes, interval, contents);
      closedSegments := closedSegments + [active];
      active := s;
      Parts := Parts + s.Footprint();
      Repr := Repr + s.Footprint();
      assert Segments() == segs + [s];
    }

    /** Close: seal every segment; nothing is written any more, and the bytes stay what they are. */
    method Close()
      requires Valid()
      modifies Repr
      ensures Valid() && closed && contents == old(contents) && Segments() == old(Segments()) && Repr == old(Repr)
    {
      hide Bears, Segment.Valid;
      if closed {
        return;
      }
      var segs := closedSegments + [active];
      closed := true;
      for i := 0 to |segs|
        invariant Laid(segs, Parts, crc, maxBytes, interval, contents)
        invariant closed && segs == Segments() == old(Segments()) && Parts == old(Parts) && Repr == old(Repr)
        invariant contents == old(contents) && nextOffset == old(nextOffset)
      {
        assert BearsPart(segs, crc, maxBytes, interval, contents, i);
        BearsValid(segs[i], crc, maxBytes, interval, Part(Bases(segs), contents, i));
        label before:
        segs[i].Close();
        BearsIt(segs[i], crc, maxBytes, interval, Part(Bases(segs), contents, i));
        forall j | 0 <= j < |segs|
          ensures BearsPart(segs, crc, maxBytes, interval, contents, j)
        {
          if j != i {
            assert old@before(BearsPart(segs, crc, maxBytes, interval, contents, j));
            assert if i < j then Separate(segs[i], segs[j]) else Separate(segs[j], segs[i]);
          }
        }
      }
    }

    /** ReadAt: exactly the payload that was appended at offset. */
    method ReadAt(offset: U64) returns (r: ReadResult)
      requires Valid()
      ensures r == if closed then Closed else if offset < nextOffset then Found(contents[offset]) else NotFound
    {
      hide Bears, Segment.Valid, Laid;
      if closed {
        return Closed;
      }
      ghost var segs := Segments();
      assert segs[|closedSegments|] == active;
      if offset >= active.base {
        Covered(segs, Parts, crc, maxBytes, interval, contents, |closedSegments|, offset);
        r := active.ReadAt(offset);
        return;
      }
      FirstBase(segs, Parts, crc, maxBytes, interval, contents);
      var i := |closedSegments|;
      while i > 0
        invariant 0 <= i <= |closedSegments| && offset < segs[i].base
      {
        i := i - 1;
        assert segs[i] == closedSegments[i];
        if offset >= closedSegments[i].base {
          Covered(segs, Parts, crc, maxBytes, interval, contents, i, offset);
          r := closedSegments[i].ReadAt(offset);
          return;
        }
      }
      r := NotFound;
    }
  }

  // ----- restart ----------------------------------------------------------

  /** OpenWAL: open the segments of a directory in order of their bases, whatever order the directory is listed in. */
  method OpenWAL(crc: Checksum, maxBytes: nat, interval: U32, names: seq<U64>, files: map<U64, SegmentFiles>,
                 ghost contents: seq<seq<Byte>>) returns (w: Wal)
    requires interval > 0 && maxBytes <= MAX_SEGMENT && Lists(names, files)
    requires if names == [] then contents == [] else Stored(crc, maxBytes, interval, Sort(Leq, names), files, contents)
    ensures w.Valid() && fresh(w) && fresh(w.Repr) && !w.closed && w.contents == contents
    ensures w.crc == crc && w.maxBytes == maxBytes && w.interval == interval
    ensures Bases(w.Segments()) == if names == [] then [0] else Sort(Leq, names)
  {
    hide Bears, Segment.Valid, Holds;
    var bases := Sort(Leq, names);
    var segs: seq<Segment>;
    ghost var parts: set<object>;
    if bases == [] {
      NewFiles(crc, 0, maxBytes, interval);
      var s := new Segment.Open(crc, 0, maxBytes, interval, SegmentFiles([], []), []);
      BearsIt(s, crc, maxBytes, interval, []);
      segs, parts := [s], s.Footprint();
      LaidAlone(s, crc, maxBytes, interval);
    } else {
      SortSorted(Leq, names);
      SortDistinct(Leq, names);
      Climbs(bases);
      segs, parts := OpenSegments(crc, maxBytes, interval, bases, files, contents);
    }
    w := new Wal(crc, maxBytes, interval, segs, parts, contents);
  }

  method OpenSegments(crc: Checksum, maxBytes: nat, interval: U32, bases: seq<U64>, files: map<U64, SegmentFiles>,
                      ghost contents: seq<seq<Byte>>) returns (segs: seq<Segment>, ghost parts: set<object>)
    requires interval > 0 && maxBytes <= MAX_SEGMENT && Stored(crc, maxBytes, interval, bases, files, contents)
    requires forall i :: 0 <= i < |bases| - 1 ==> bases[i] < bases[i + 1]
    ensures Bases(segs) == bases && Laid(segs, parts, crc, maxBytes, interval, contents) && fresh(parts)
    ensures !segs[|segs| - 1].sealed
  {
    hide Bears, Segment.Valid, Holds;
    segs, parts := [], {};
    while |segs| < |bases|
      invariant |segs| <= |bases| && fresh(parts) && Housed(segs, parts) && Apart(segs)
      invariant Bases(segs) == bases[..|segs|]
      invariant forall i {:trigger Opened(segs, i, crc, maxBytes, interval, bases, contents)} :: 0 <= i < |segs| ==>
        Opened(segs, i, crc, maxBytes, interval, bases, contents)
    {
      var i := |segs|;
      assert LastOfBase(bases, i, |bases|);
      assert StoredAt(crc, maxBytes, interval, bases, files, contents, i);
      var s := new Segment.Open(crc, bases[i], maxBytes, interval, files[bases[i]], Part(bases, contents, i));
      BearsIt(s, crc, maxBytes, interval, Part(bases, contents, i));
      ghost var before := segs;
      segs := segs + [s];
      parts := parts + s.Footprint();
      forall j | 0 <= j < |segs|
        ensures Opened(segs, j, crc, maxBytes, interval, bases, contents)
      {
        if j < i { assert Opened(before, j, crc, maxBytes, interval, bases, contents); }
      }
    }
    assert Bases(segs) == bases;
    forall i | 0 <= i < |segs|
      ensures BearsPart(segs, crc, maxBytes, interval, contents, i)
    {
      assert Opened(segs, i, crc, maxBytes, interval, bases, contents);
    }
    assert Opened(segs, |segs| - 1, crc, maxBytes, interval, bases, contents);
  }

  lemma Climbs(bases: seq<U64>)
    requires Sorted(Leq, bases) && Distinct(bases)
    ensures forall i :: 0 <= i < |bases| - 1 ==> bases[i] < bases[i + 1]
  {
    forall i | 0 <= i < |bases| - 1
      ensures bases[i] < bases[i + 1]
    {
      assert Leq(bases[i], bases[i + 1]);
    }
  }

  ghost predicate Opened(segs: seq<Segment>, i: nat, crc: Checksum, maxBytes: nat, interval: nat, bases: seq<U64>,
                         contents: seq<seq<Byte>>)
    requires Cuts(bases, |contents|) && i < |segs| <= |bases|
    reads segs[i], segs[i].data, segs[i].index, segs[i].index.data
  {
    !segs[i].sealed && Bears(segs[i], crc, maxBytes, interval, Part(bases, contents, i))
  }

  lemma LaidAlone(s: Segment, crc: Checksum, maxBytes: nat, interval: nat)
    requires s.base == 0 && Bears(s, crc, maxBytes, interval, [])
    ensures Laid([s], s.Footprint(), crc, maxBytes, interval, [])
  {
    hide Bears;
    assert Part(Bases([s]), [], 0) == [];
    assert BearsPart([s], crc, maxBytes, interval, [], 0);
  }

  /** Restart is the identity: opening what any run left, with the directory listed in any order and the index files cut
      to their slots or not, gives the same contents, next offset and write position. */
  method Restart(w: Wal, names: seq<U64>, trimmed: bool) returns (v: Wal)
    requires w.Valid() && Distinct(names) && forall b :: b in names <==> b in Bases(w.Segments())
    ensures v.Valid() && fresh(v) && fresh(v.Repr) && !v.closed && w.Valid()
    ensures v.crc == w.crc && v.maxBytes == w.maxBytes && v.interval == w.interval
    ensures v.contents == w.contents && v.nextOffset == w.nextOffset && Bases(v.Segments()) == Sort(Leq, names)
    ensures v.active.writePos == w.active.writePos && v.active.base == w.active.base
  {
    hide Bears, Segment.Valid, Holds, Stored, Cuts, Distinct;
    ghost var segs := w.Segments();
    var files := FilesByName(w, names, trimmed);
    v := OpenWAL(w.crc, w.maxBytes, w.interval, names, files, w.contents);
    LastPart(segs, w.Parts, w.crc, w.maxBytes, w.interval, w.contents);
    LastPart(v.Segments(), v.Parts, v.crc, v.maxBytes, v.interval, v.contents);
    SamePosition(w.active, v.active, w.crc, w.maxBytes, w.interval, w.contents[w.active.base..]);
  }

  method FilesByName(w: Wal, names: seq<U64>, trimmed: bool) returns (files: map<U64, SegmentFiles>)
    requires w.Valid() && Distinct(names) && forall b :: b in names <==> b in Bases(w.Segments())
    ensures names != [] && Lists(names, files)
    ensures Stored(w.crc, w.maxBytes, w.interval, Sort(Leq, names), files, w.contents)
    ensures Sort(Leq, names)[|names| - 1] == w.active.base
  {
    hide Bears, Segment.Valid, Holds, Stored, Sort, Sorted, Laid, Distinct;
    files := FilesOf(w, trimmed);
    ghost var bases := Bases(w.Segments());
    assert bases[|bases| - 1] == w.active.base;
    assert bases[0] in names;
    SortSorted(Leq, names);
    SortDistinct(Leq, names);
    StoredByName(w.crc, w.maxBytes, w.interval, bases, Sort(Leq, names), files, w.contents);
  }

  method FilesOf(w: Wal, trimmed: bool) returns (files: map<U64, SegmentFiles>)
    requires w.Valid()
    ensures Stored(w.crc, w.maxBytes, w.interval, Bases(w.Segments()), files, w.contents)
    ensures forall b :: b in files <==> b in Bases(w.Segments())
  {
    hide Bears, Segment.Valid, Holds, StoredUpTo;
    var segs := w.closedSegments + [w.active];
    files := map[];
    assert StoredUpTo(w.crc, w.maxBytes, w.interval, Bases(segs), files, w.contents, 0) by {
      NothingStored(w.crc, w.maxBytes, w.interval, Bases(segs), w.contents);
    }
    ghost var bases := Bases(segs);
    for i := 0 to |segs|
      invariant forall b :: b in files <==> b in bases[..i]
      invariant StoredUpTo(w.crc, w.maxBytes, w.interval, bases, files, w.contents, i)
    {
      assert BearsPart(segs, w.crc, w.maxBytes, w.interval, w.contents, i);
      BearsValid(segs[i], w.crc, w.maxBytes, w.interval, Part(bases, w.contents, i));
      segs[i].FilesHold(trimmed);
      var f := segs[i].Files(trimmed);
      StoreNext(w.crc, w.maxBytes, w.interval, bases, files, w.contents, i, f);
      files := files[segs[i].base := f];
      assert bases[..i + 1] == bases[..i] + [bases[i]];
    }
    assert bases[..|segs|] == bases;
  }

  lemma NothingStored(crc: Checksum, maxBytes: nat, interval: nat, bases: seq<U64>, contents: seq<seq<Byte>>)
    requires interval > 0 && Cuts(bases, |contents|)
    ensures StoredUpTo(crc, maxBytes, interval, bases, map[], contents, 0)
  {
  }

  lemma SamePosition(s: Segment, t: Segment, crc: Checksum, maxBytes: nat, interval: nat, ps: seq<seq<Byte>>)
    requires Bears(s, crc, maxBytes, interval, ps) && Bears(t, crc, maxBytes, interval, ps)
    ensures s.writePos == t.writePos
  {
  }

  // ----- whole runs -------------------------------------------------------

  datatype Op = Write(payload: seq<Byte>) | Reopen(trimmed: bool)

  /** The payloads a run stores, in order. */
  function StoredBy(ops: seq<Op>, maxBytes: nat): seq<seq<Byte>> {
    if ops == [] then []
    else
      var op := ops[|ops| - 1];
      StoredBy(ops[..|ops| - 1], maxBytes) + if op.Write? && Storable(op.payload, maxBytes) then [op.payload] else []
  }

  /** Over any run of appends and restarts the log is the list of stored payloads: afterwards a read of any offset finds
      exactly the payload stored there, and nothing beyond the last. */
  method Replay(crc: Checksum, maxBytes: nat, interval: U32, ops: seq<Op>, probe: U64) returns (next: U64,
                read: ReadResult)
    requires interval > 0 && maxBytes <= MAX_SEGMENT && |ops| < 0x1_0000_0000_0000_0000
    requires forall i :: 0 <= i < |ops| && ops[i].Write? ==> Uncut(ops[i].payload)
    ensures next == |StoredBy(ops, maxBytes)|
    ensures read == if probe < next then Found(StoredBy(ops, maxBytes)[probe]) else NotFound
  {
    hide Wal.Valid, Lists;
    assert Lists([], map[]) by { NoFiles(); }
    var w := OpenWAL(crc, maxBytes, interval, [], map[], []);
    for i := 0 to |ops|
      invariant fresh(w) && fresh(w.Repr) && w.Valid() && !w.closed && w.maxBytes == maxBytes
      invariant w.contents == StoredBy(ops[..i], maxBytes) && |w.contents| <= i
    {
      assert ops[..i + 1][..i] == ops[..i];
      match ops[i] {
        case Write(payload) =>
          var r := w.Append(payload);
        case Reopen(trimmed) =>
          w := Again(w, trimmed);
      }
    }
    assert ops[..|ops|] == ops;
    read := w.ReadAt(probe);
    next := NextOf(w);
  }

  method NextOf(w: Wal) returns (next: U64)
    requires w.Valid()
    ensures next == |w.contents| == w.nextOffset
  {
    next := w.nextOffset;
  }

  method Again(w: Wal, trimmed: bool) returns (v: Wal)
    requires w.Valid()
    ensures v.Valid() && fresh(v) && fresh(v.Repr) && !v.closed && v.contents == w.contents && v.maxBytes == w.maxBytes
  {
    hide Bears, Segment.Valid, Holds;
    var names := DirectoryOf(w);
    v := Restart(w, names, trimmed);
  }

  /** The directory's names: one to a base. */
  method DirectoryOf(w: Wal) returns (names: seq<U64>)
    requires w.Valid()
    ensures Distinct(names) && forall b :: b in names <==> b in Bases(w.Segments())
  {
    var bases := Bases(w.closedSegments + [w.active]);
    names := [];
    for i := 0 to |bases|
      invariant Distinct(names) && forall b :: b in names <==> b in bases[..i]
    {
      if bases[i] !in names {
        DistinctNext(names, bases[i]);
        names := names + [bases[i]];
      }
      assert bases[..i + 1] == bases[..i] + [bases[i]];
    }
    assert bases[..|bases|] == bases;
  }

  lemma NoFiles()
    ensures Lists([], map[])
  {
  }

  lemma BearsValid(s: Segment, crc: Checksum, maxBytes: nat, interval: nat, ps: seq<seq<Byte>>)
    requires Bears(s, crc, maxBytes, interval, ps)
    ensures s.Valid() && s.crc == crc && s.maxBytes == maxBytes && s.interval == interval && s.payloads == ps
  {
  }

  lemma BearsIt(s: Segment, crc: Checksum, maxBytes: nat, interval: nat, ps: seq<seq<Byte>>)
    requires s.Valid() && s.crc == crc && s.maxBytes == maxBytes && s.interval == interval && s.payloads == ps
    ensures Bears(s, crc, maxBytes, interval, ps)
  {
  }

  lemma FirstBase(segs: seq<Segment>, repr: set<object>, crc: Checksum, maxBytes: nat, interval: nat,
                  contents: seq<seq<Byte>>)
    requires segs != [] && Laid(segs, repr, crc, maxBytes, interval, contents)
    ensures segs[0].base == 0
  {
    assert Bases(segs)[0] == segs[0].base;
  }
}
