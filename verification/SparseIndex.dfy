/** The companion index of a log segment: packed eight-byte slots that name a frame by its relative offset and its byte
    position. */
module SparseIndex {
  import opened Bytes

  const ENTRY: nat := 8

  datatype Slot = Slot(rel: nat, pos: nat)

  function SlotAt(bs: seq<Byte>, i: nat): Slot
    requires (i + 1) * ENTRY <= |bs|
  {
    Slot(Value(bs[i * ENTRY..i * ENTRY + 4]), Value(bs[i * ENTRY + 4..(i + 1) * ENTRY]))
  }

  /** The first n slots packed in bs. */
  function Slots(bs: seq<Byte>, n: nat): (slots: seq<Slot>)
    requires n * ENTRY <= |bs|
    ensures |slots| == n
    ensures forall i :: 0 <= i < n ==> slots[i] == SlotAt(bs, i)
  {
    seq(n, i requires 0 <= i < n => SlotAt(bs, i))
  }

  function Zeros(n: nat): (bs: seq<Byte>)
    ensures |bs| == n && forall i :: 0 <= i < n ==> bs[i] == 0
  {
    seq(n, _ => 0)
  }

  /** A mapping of a shorter file to size n reads zeros after the file's end. */
  function Mapped(file: seq<Byte>, n: nat): (bs: seq<Byte>)
    requires |file| <= n
    ensures |bs| == n
  {
    file + Zeros(n - |file|)
  }

  /** Slots that were never written read as (0, 0). */
  lemma BlankSlot(bs: seq<Byte>, i: nat)
    requires (i + 1) * ENTRY <= |bs| && forall j :: i * ENTRY <= j < (i + 1) * ENTRY ==> bs[j] == 0
    ensures SlotAt(bs, i) == Slot(0, 0)
  {
    ZeroValue(bs[i * ENTRY..i * ENTRY + 4]);
    ZeroValue(bs[i * ENTRY + 4..(i + 1) * ENTRY]);
  }

  /** A slot byte by byte: the relative offset in four bytes, then the position in four, most significant first. */
  lemma SlotLayout(bs: seq<Byte>, i: nat)
    requires i * 8 + 8 <= |bs|
    ensures (i + 1) * ENTRY <= |bs| && SlotAt(bs, i).rel < 0x1_0000_0000 && SlotAt(bs, i).pos < 0x1_0000_0000
    ensures Spells(bs[i * 8..i * 8 + 4], SlotAt(bs, i).rel) && Spells(bs[i * 8 + 4..i * 8 + 8], SlotAt(bs, i).pos)
  {
    var rel, pos := bs[i * 8..i * 8 + 4], bs[i * 8 + 4..i * 8 + 8];
    BigOfValue(rel);
    BigOfValue(pos);
    Spans();
    FourBytes(Value(rel));
    FourBytes(Value(pos));
  }

  lemma SlotOfBytes(front: seq<Byte>, i: nat, rel: U32, pos: U32, back: seq<Byte>)
    requires |front| == i * ENTRY
    ensures SlotAt(front + Big(rel, 4) + Big(pos, 4) + back, i) == Slot(rel, pos)
  {
    var bs := front + Big(rel, 4) + Big(pos, 4) + back;
    assert bs[i * ENTRY..i * ENTRY + 4] == Big(rel, 4) && bs[i * ENTRY + 4..(i + 1) * ENTRY] == Big(pos, 4);
    WordRoundTrip(rel);
    WordRoundTrip(pos);
  }

  lemma SameWindow(bs: seq<Byte>, cs: seq<Byte>, n: nat, from: nat, to: nat)
    requires from <= to <= n <= |bs| && n <= |cs| && bs[..n] == cs[..n]
    ensures bs[from..to] == cs[from..to]
  {
    forall i | from <= i < to
      ensures bs[i] == cs[i]
    {
      assert bs[i] == bs[..n][i] && cs[i] == cs[..n][i];
    }
  }

  lemma OneSlotChanged(bs: seq<Byte>, cs: seq<Byte>, n: nat, i: nat)
    requires |bs| == |cs| == n * ENTRY && i < n
    requires bs[..i * ENTRY] == cs[..i * ENTRY] && bs[(i + 1) * ENTRY..] == cs[(i + 1) * ENTRY..]
    ensures Slots(cs, n) == Slots(bs, n)[i := SlotAt(cs, i)]
  {
    forall j | 0 <= j < n && j != i
      ensures SlotAt(bs, j) == SlotAt(cs, j)
    {
      if j < i {
        SameWindow(bs, cs, i * ENTRY, j * ENTRY, j * ENTRY + 4);
        SameWindow(bs, cs, i * ENTRY, j * ENTRY + 4, (j + 1) * ENTRY);
      } else {
        SameTail(bs, cs, (i + 1) * ENTRY, j * ENTRY, j * ENTRY + 4);
        SameTail(bs, cs, (i + 1) * ENTRY, j * ENTRY + 4, (j + 1) * ENTRY);
      }
    }
  }

  lemma SameTail(bs: seq<Byte>, cs: seq<Byte>, n: nat, from: nat, to: nat)
    requires n <= from <= to <= |bs| == |cs| && bs[n..] == cs[n..]
    ensures bs[from..to] == cs[from..to]
  {
    forall i | from <= i < to
      ensures bs[i] == cs[i]
    {
      assert bs[i] == bs[n..][i - n] && cs[i] == cs[n..][i - n];
    }
  }

  /** What a binary search may answer: a slot at or below the target whose successor is above it; nothing only when the
      first slot is already above. True of any slots, in order or not. */
  ghost predicate LookupOk(slots: seq<Slot>, target: nat, pos: nat, found: bool) {
    if found then
      exists k :: 0 <= k < |slots| && Boundary(slots, target, k) && slots[k].pos == pos
    else
      pos == 0 && (slots == [] || slots[0].rel > target)
  }

  ghost predicate Boundary(slots: seq<Slot>, target: nat, k: nat)
    requires k < |slots|
  {
    slots[k].rel <= target && (k + 1 < |slots| ==> slots[k + 1].rel > target)
  }

  ghost predicate Ascending(slots: seq<Slot>) {
    forall i, j :: 0 <= i < j < |slots| ==> slots[i].rel < slots[j].rel
  }

  /** Slot k is the last at or below the target: exactly the slots up to k are. */
  ghost predicate Splits(slots: seq<Slot>, target: nat, k: nat) {
    forall j :: 0 <= j < |slots| ==> (slots[j].rel <= target <==> j <= k)
  }

  /** In order, the answer is the greatest slot at or below the target. */
  lemma LookupGreatest(slots: seq<Slot>, target: nat, pos: nat, found: bool)
    requires Ascending(slots) && LookupOk(slots, target, pos, found)
    ensures found <==> exists j :: 0 <= j < |slots| && slots[j].rel <= target
    ensures found ==> exists k :: 0 <= k < |slots| && slots[k].pos == pos && Splits(slots, target, k)
  {
    if found {
      var k :| 0 <= k < |slots| && Boundary(slots, target, k) && slots[k].pos == pos;
      forall j | 0 <= j < |slots|
        ensures slots[j].rel <= target <==> j <= k
      {
        if k + 1 < j { assert slots[k + 1].rel < slots[j].rel; }
      }
      assert Splits(slots, target, k);
    } else if slots != [] {
      forall j | 0 <= j < |slots|
        ensures slots[j].rel > target
      {
        if j > 0 { assert slots[0].rel < slots[j].rel; }
      }
    }
  }

  class SparseIndex {
    const data: array<Byte>
    const maxEntries: nat
    var count: nat

    ghost predicate Valid()
      reads this
    {
      data.Length == maxEntries * ENTRY && count <= maxEntries
    }

    function Contents(): (slots: seq<Slot>)
      requires Valid()
      reads this, data
      ensures |slots| == count
    {
      Slots(data[..], count)
    }

    /** Every slot the mapped file has room for, written or not. */
    function All(): (slots: seq<Slot>)
      requires Valid()
      reads this, data
      ensures |slots| == maxEntries
    {
      Slots(data[..], maxEntries)
    }

    /** Opening maps the file at its full size and takes every slot the file had room for as an entry, written
        or not. */
    constructor Open(file: seq<Byte>, max: nat)
      requires |file| <= max * ENTRY
      ensures Valid() && fresh(data) && maxEntries == max && count == |file| / ENTRY
      ensures data[..] == Mapped(file, max * ENTRY)
    {
      data := new Byte[max * ENTRY](i requires 0 <= i < max * ENTRY => Mapped(file, max * ENTRY)[i]);
      maxEntries, count := max, |file| / ENTRY;
      new;
      assert data[..] == Mapped(file, max * ENTRY);
    }

    method Append(rel: U32, pos: U32) returns (ok: bool)
      requires Valid()
      modifies this, data
      ensures Valid() && ok == (old(count) < maxEntries)
      ensures ok ==> Contents() == old(Contents()) + [Slot(rel, pos)]
      ensures ok ==> All() == old(All())[old(count) := Slot(rel, pos)]
      ensures !ok ==> count == old(count) && data[..] == old(data[..])
    {
      if count >= maxEntries {
        return false;
      }
      var at := count * ENTRY;
      PutBig(data, at, 4, rel);
      assert data[..at + 4] == old(data[..at]) + Big(rel, 4);
      PutBig(data, at + 4, 4, pos);
      assert data[..] == old(data[..at]) + Big(rel, 4) + Big(pos, 4) + old(data[at + ENTRY..]);
      SlotOfBytes(old(data[..at]), count, rel, pos, old(data[at + ENTRY..]));
      OneSlotChanged(old(data[..]), data[..], maxEntries, count);
      count := count + 1;
      ok := true;
    }

    /** sort.Search for the first slot above the target: the slot before it is not, whatever order the slots are in. */
    method Search(target: U32) returns (i: nat)
      requires Valid()
      ensures i <= count
      ensures i > 0 ==> Contents()[i - 1].rel <= target
      ensures i < count ==> Contents()[i].rel > target
    {
      hide SlotAt;
      ghost var slots := Contents();
      var lo, hi := 0, count;
      while lo < hi
        invariant 0 <= lo <= hi <= count
        invariant lo > 0 ==> slots[lo - 1].rel <= target
        invariant hi < count ==> slots[hi].rel > target
      {
        var mid := (lo + hi) / 2;
        if SlotAt(data[..], mid).rel > target {
          hi := mid;
        } else {
          lo := mid + 1;
        }
      }
      i := lo;
    }

    /** Lookup: the last slot at or below the target. */
    method Lookup(target: U32) returns (pos: nat, found: bool)
      requires Valid()
      ensures LookupOk(Contents(), target, pos, found)
    {
      hide SlotAt;
      if count == 0 {
        return 0, false;
      }
      var i := Search(target);
      if i == 0 {
        // The search stops here only when the first slot is above the target, so it never answers with that slot.
        if target >= SlotAt(data[..], 0).rel {
          assert false;
        }
        return 0, false;
      }
      pos, found := SlotAt(data[..], i - 1).pos, true;
      assert Boundary(Contents(), target, i - 1);
    }
  }
}
