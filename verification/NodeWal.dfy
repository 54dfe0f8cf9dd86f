/** A node's write-ahead log: what the applier's callback leaves in it, over every run of the cluster. */
module NodeWal {
  import opened Bytes
  import opened Frames
  import opened WalSegment
  import opened Wal
  import opened RaftTypes
  import opened RaftHandlers
  import opened RaftEngine
  import opened RaftCluster
  import opened RaftInvariant
  import opened RaftSafety
  import opened RaftDelivery

  /** The payloads a log takes from delivered entries, in order: an append that fails is dropped without a word. */
  function Kept(out: Log, maxBytes: nat): seq<seq<Byte>> {
    if out == [] then []
    else Kept(out[..|out| - 1], maxBytes) + Taken(out[|out| - 1].data, maxBytes)
  }

  function Taken(data: Payload, maxBytes: nat): seq<seq<Byte>> {
    if data.Data? && Storable(data.bytes, maxBytes) then [data.bytes] else []
  }

  /** The callback for one committed entry: append its data and ignore the result. */
  method OnCommit(w: Wal, entry: Entry)
    requires w.Valid() && !w.closed && |w.contents| + 1 < 0x1_0000_0000_0000_0000
    requires entry.data.Data? && Uncut(entry.data.bytes)
    modifies w.Repr
    ensures w.Valid() && !w.closed && fresh(w.Repr - old(w.Repr))
    ensures w.contents == old(w.contents) + Taken(entry.data, w.maxBytes)
  {
    hide Wal.Valid;
    assert w.contents + [] == w.contents;
    var r := w.Append(entry.data.bytes);
  }

  /** The callbacks of one wake-up of the applier, in the order the lock gives them. */
  method OnCommits(w: Wal, out: seq<Entry>)
    requires w.Valid() && !w.closed && |w.contents| + |out| < 0x1_0000_0000_0000_0000
    requires forall i :: 0 <= i < |out| ==> out[i].data.Data? && Uncut(out[i].data.bytes)
    modifies w.Repr
    ensures w.Valid() && !w.closed && fresh(w.Repr - old(w.Repr))
    ensures w.contents == old(w.contents) + Kept(out, w.maxBytes)
  {
    hide Wal.Valid, Taken;
    ghost var before := w.contents;
    assert before + Kept([], w.maxBytes) == before;
    for i := 0 to |out|
      invariant w.Valid() && !w.closed && fresh(w.Repr - old(w.Repr))
      invariant w.contents == before + Kept(out[..i], w.maxBytes) && |w.contents| <= |before| + i
    {
      KeptNext(out, i, w.maxBytes);
      assert before + (Kept(out[..i], w.maxBytes) + Taken(out[i].data, w.maxBytes))
          == before + Kept(out[..i], w.maxBytes) + Taken(out[i].data, w.maxBytes);
      OnCommit(w, out[i]);
    }
    assert out[..|out|] == out;
  }

  /** One wake-up of a node's applier with its callbacks: the log takes what the engine delivers. */
  method Apply(rn: RaftNode, w: Wal)
    requires rn.Valid() && w.Valid() && !w.closed && rn !in w.Repr
    requires |w.contents| + rn.commitIndex < 0x1_0000_0000_0000_0000
    requires forall i :: 0 <= i < |rn.log| && rn.log[i].data.Data? ==> Uncut(rn.log[i].data.bytes)
    modifies rn, w.Repr
    ensures rn.Valid() && rn.View() == Applied(old(rn.View())).0
    ensures w.Valid() && !w.closed && w.contents == old(w.contents) + Kept(Applied(old(rn.View())).1, w.maxBytes)
  {
    hide Laid;
    DeliveriesAreEntries(rn.View(), rn.lastApplied, rn.commitIndex);
    var out := rn.ApplyCommitted();
    OnCommits(w, out);
  }

  lemma {:induction false} DeliveriesAreEntries(n: Node, lo: nat, hi: nat)
    ensures var out := Deliveries(n, lo, hi);
      |out| <= hi && forall i :: 0 <= i < |out| ==> out[i] in n.log && out[i].data.Data?
    decreases hi
  {
    if hi > lo {
      DeliveriesAreEntries(n, lo, hi - 1);
    }
  }

  lemma KeptNext(out: Log, i: nat, maxBytes: nat)
    requires i < |out|
    ensures Kept(out[..i + 1], maxBytes) == Kept(out[..i], maxBytes) + Taken(out[i].data, maxBytes)
    ensures |Taken(out[i].data, maxBytes)| <= 1
  {
    assert out[..i + 1][..i] == out[..i];
  }

  lemma {:induction false} KeptConcat(a: Log, b: Log, maxBytes: nat)
    ensures Kept(a + b, maxBytes) == Kept(a, maxBytes) + Kept(b, maxBytes)
    decreases |b|
  {
    if b == [] {
      assert a + b == a;
    } else {
      var front, last := b[..|b| - 1], b[|b| - 1];
      assert (a + b)[..|a + b| - 1] == a + front;
      KeptConcat(a, front, maxBytes);
      assert Kept(a, maxBytes) + (Kept(front, maxBytes) + Taken(last.data, maxBytes))
          == Kept(a, maxBytes) + Kept(front, maxBytes) + Taken(last.data, maxBytes);
    }
  }

  // ----- over every run ---------------------------------------------------

  /** What the log of node n holds in a state: it has taken every delivery so far. */
  ghost function WalOf(c: Cluster, n: NodeId, maxBytes: nat): seq<seq<Byte>> {
    if n in c.delivered then Kept(c.delivered[n], maxBytes) else []
  }

  /** The applier's step does to it what Apply does to the node's log. */
  lemma DeliverAppends(c: Cluster, n: NodeId, maxBytes: nat)
    requires Enabled(c, Deliver(n)) && n in c.delivered
    ensures WalOf(After(c, Deliver(n)), n, maxBytes) == WalOf(c, n, maxBytes) + Kept(Applied(c.nodes[n]).1, maxBytes)
  {
    KeptConcat(c.delivered[n], Applied(c.nodes[n]).1, maxBytes);
  }

  /** Offset i holds the data of Raft entry i + 1, for the first k entries and nothing more. */
  ghost predicate Mirrors(contents: seq<seq<Byte>>, full: Log, k: nat)
    requires k < |full|
  {
    |contents| == k && forall i :: 0 <= i < k ==> full[i + 1].data == Data(contents[i])
  }

  ghost predicate AllStorable(full: Log, k: nat, maxBytes: nat)
    requires k < |full|
  {
    forall i :: 0 < i <= k ==> full[i].data.Data? && Storable(full[i].data.bytes, maxBytes)
  }

  /** What the log holds is as long as the applied log only if nothing was skipped or dropped, and then mirrors it. */
  lemma {:induction false} KeptMirrors(full: Log, k: nat, skipped: set<nat>, maxBytes: nat)
    requires k < |full|
    ensures var contents := Kept(Handed(full, k, skipped), maxBytes);
      && |contents| <= k
      && (|contents| == k <==> AllStorable(full, k, maxBytes) && NoneSkipped(skipped, k))
      && (|contents| == k ==> Mirrors(contents, full, k))
  {
    if k > 0 {
      hide Kept, Mirrors, AllStorable, Handed, Taken, Storable, NoneSkipped;
      KeptMirrors(full, k - 1, skipped, maxBytes);
      KeptOfNext(full, k, skipped, maxBytes);
      StorableNext(full, k, maxBytes);
      SkippedNext(skipped, k);
      var contents := Kept(Handed(full, k - 1, skipped), maxBytes);
      TakenIs(full[k].data, maxBytes);
      if k !in skipped && |contents| == k - 1 && full[k].data.Data? && Storable(full[k].data.bytes, maxBytes) {
        MirrorsNext(contents, full, k);
      }
    }
  }

  lemma KeptOfNext(full: Log, k: nat, skipped: set<nat>, maxBytes: nat)
    requires 0 < k < |full|
    ensures Kept(Handed(full, k, skipped), maxBytes)
      == Kept(Handed(full, k - 1, skipped), maxBytes) + if k in skipped then [] else Taken(full[k].data, maxBytes)
  {
    var front := Handed(full, k - 1, skipped);
    if k !in skipped && full[k].data != Nil {
      assert (front + [full[k]])[..|front|] == front;
    } else {
      assert Handed(full, k, skipped) == front + [] == front;
    }
  }

  ghost predicate NoneSkipped(skipped: set<nat>, k: nat) {
    forall i :: 0 < i <= k ==> i !in skipped
  }

  lemma SkippedNext(skipped: set<nat>, k: nat)
    requires k > 0
    ensures NoneSkipped(skipped, k) <==> NoneSkipped(skipped, k - 1) && k !in skipped
  {
  }

  lemma TakenIs(data: Payload, maxBytes: nat)
    ensures Taken(data, maxBytes) == if data.Data? && Storable(data.bytes, maxBytes) then [data.bytes] else []
  {
  }

  lemma StorableNext(full: Log, k: nat, maxBytes: nat)
    requires 0 < k < |full|
    ensures AllStorable(full, k, maxBytes)
      <==> AllStorable(full, k - 1, maxBytes) && full[k].data.Data? && Storable(full[k].data.bytes, maxBytes)
  {
  }

  lemma MirrorsNext(contents: seq<seq<Byte>>, full: Log, k: nat)
    requires 0 < k < |full| && Mirrors(contents, full, k - 1) && full[k].data.Data?
    ensures Mirrors(contents + [full[k].data.bytes], full, k)
  {
  }

  /** A node's log mirrors Raft entry i + 1 at offset i, for everything applied, exactly when every applied entry has
      data that the log stores and no snapshot moved lastApplied over an entry: one nil payload, one over the limit, or
      one entry that a snapshot of a committed but not yet applied index took away shifts all that follow. */
  lemma WalMirrorsIff(cs: seq<Cluster>, i: nat, n: NodeId, maxBytes: nat)
    requires Run(cs) && i < |cs| && n in cs[i].nodes
    ensures n in cs[i].skipped && cs[i].nodes[n].lastApplied < |FullLog(cs[i], n)|
    ensures Mirrors(WalOf(cs[i], n, maxBytes), FullLog(cs[i], n), cs[i].nodes[n].lastApplied)
      <==> AllStorable(FullLog(cs[i], n), cs[i].nodes[n].lastApplied, maxBytes) && cs[i].skipped[n] == {}
  {
    hide Run, Handed, Kept, AllStorable;
    RunDelivery(cs, i, n);
    var k, skipped := cs[i].nodes[n].lastApplied, cs[i].skipped[n];
    KeptMirrors(FullLog(cs[i], n), k, skipped, maxBytes);
    assert skipped == {} <==> NoneSkipped(skipped, k);
  }

  /** With segments that take any frame of a legal payload, the limit is the codec's 32 MiB. */
  lemma LimitIsMaxPayload(payload: seq<Byte>, maxBytes: nat)
    requires maxBytes >= HEADER + MAX_PAYLOAD
    ensures Storable(payload, maxBytes) <==> |payload| <= MAX_PAYLOAD
  {
  }

  /** The logs of two such nodes are one a prefix of the other, whatever was dropped. */
  lemma WalsComparable(cs: seq<Cluster>, i: nat, j: nat, n: NodeId, m: NodeId, maxBytes: nat)
    requires Run(cs) && i <= j < |cs| && n in cs[i].nodes && m in cs[j].nodes
    requires n in cs[i].skipped && cs[i].skipped[n] == {} && m in cs[j].skipped && cs[j].skipped[m] == {}
    ensures WalOf(cs[i], n, maxBytes) <= WalOf(cs[j], m, maxBytes)
      || WalOf(cs[j], m, maxBytes) <= WalOf(cs[i], n, maxBytes)
  {
    hide Run, Kept;
    DeliveriesComparable(cs, i, j, n, m);
    var a, b := cs[i].delivered[n], cs[j].delivered[m];
    if a <= b {
      assert b == a + b[|a|..];
      KeptConcat(a, b[|a|..], maxBytes);
    } else {
      assert a == b + a[|b|..];
      KeptConcat(b, a[|b|..], maxBytes);
    }
  }

  /** An acknowledged write is read back from offset k - 1 of every node that has applied it, was not advanced by a
      snapshot and stores what it applied. */
  lemma AcknowledgedWriteReadable(cs: seq<Cluster>, i: nat, j: nat, n: NodeId, payload: Payload, r: nat, m: NodeId,
                                  maxBytes: nat)
    requires Run(cs) && i + 1 < |cs| && n in cs[i].nodes && |cs[i].nodes[n].log| > 0
    requires Acknowledged(cs, i, j, n, payload)
    requires j <= r < |cs| && m in cs[r].nodes && m in cs[r].skipped && cs[r].skipped[m] == {}
    requires cs[r].nodes[m].lastApplied < |FullLog(cs[r], m)|
    requires AllStorable(FullLog(cs[r], m), cs[r].nodes[m].lastApplied, maxBytes)
    ensures var k := cs[i].nodes[n].LastLogIndex() + 1;
      k <= cs[r].nodes[m].lastApplied ==>
        0 < k <= |WalOf(cs[r], m, maxBytes)| && Data(WalOf(cs[r], m, maxBytes)[k - 1]) == payload
  {
    hide Run, Kept, Acknowledged;
    WalMirrorsIff(cs, r, m, maxBytes);
    RunDelivery(cs, r, m);
    AcknowledgedWritesSurvive(cs, i, j, n, payload, r, m);
  }
}
