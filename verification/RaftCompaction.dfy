/** The compacted log against the uncompacted one (section 7 of the Raft paper): what every handler does to the
    anchored in-memory log is what the plain algorithm does to the full history. */
module RaftCompaction {
  import opened RaftTypes
  import opened RaftLedger
  import opened RaftLedgerActions
  import opened RaftHandlers

  /** The in-memory log that keeps of a full log only an anchor at k and what follows it. */
  function Compact(full: Log, k: nat): Log
    requires k < |full|
  {
    [Entry(k, full[k].term, Nil)] + full[k + 1..]
  }

  /** The node's in-memory log and snapshot marks are the compaction of the full log. */
  ghost predicate Compacts(n: Node, full: Log) {
    && n.lastIncludedIndex < |full|
    && n.log == Compact(full, n.lastIncludedIndex)
    && n.lastIncludedTerm == full[n.lastIncludedIndex].term
  }

  lemma CompactAt(full: Log, k: nat, i: nat)
    requires k < i < |full|
    ensures |Compact(full, k)| == |full| - k && Compact(full, k)[i - k] == full[i]
  {
  }

  lemma CompactTail(full: Log, k: nat, i: nat)
    requires k < i <= |full|
    ensures |Compact(full, k)| == |full| - k && Compact(full, k)[i - k..] == full[i..]
  {
  }

  lemma ReadsShape(n: Node, full: Log)
    requires Compacts(n, full)
    ensures n.lastIncludedIndex < |full| && |n.log| == |full| - n.lastIncludedIndex
    ensures n.log[0] == Entry(n.lastIncludedIndex, n.lastIncludedTerm, Nil)
    ensures n.lastIncludedTerm == full[n.lastIncludedIndex].term
  {
    hide Compact;
    CompactHead(full, n.lastIncludedIndex);
  }

  lemma ReadsEntry(n: Node, full: Log, i: nat)
    requires Compacts(n, full) && n.lastIncludedIndex < i < |full|
    ensures |n.log| == |full| - n.lastIncludedIndex && n.log[i - n.lastIncludedIndex] == full[i]
  {
    hide Compact;
    ReadsShape(n, full);
    CompactAt(full, n.lastIncludedIndex, i);
  }

  lemma ReadsTerm(n: Node, full: Log, i: nat)
    requires Compacts(n, full) && n.lastIncludedIndex <= i < |full|
    ensures n.LogTerm(i) == full[i].term
  {
    hide Compacts;
    ReadsShape(n, full);
    if i > n.lastIncludedIndex {
      ReadsEntry(n, full, i);
    }
  }

  lemma ReadsSlice(n: Node, full: Log, i: nat)
    requires Compacts(n, full) && n.lastIncludedIndex < i <= |full|
    ensures n.LogFrom(i) == full[i..]
  {
    hide Compact;
    ReadsShape(n, full);
    CompactTail(full, n.lastIncludedIndex, i);
  }

  /** The log in memory is contiguous, and ends where the full log does. */
  lemma ReadsEnd(n: Node, full: Log)
    requires Compacts(n, full) && Shaped(full, n.currentTerm)
    ensures n.Valid() && n.LastLogIndex() == |full| - 1 && n.LastLogTerm() == LastTerm(full)
  {
    hide Compacts;
    var k := n.lastIncludedIndex;
    ReadsShape(n, full);
    forall i | 0 <= i < |n.log|
      ensures n.log[i].index == k + i
    {
      if i > 0 {
        ReadsEntry(n, full, k + i);
      }
    }
    if |n.log| > 1 {
      ReadsEntry(n, full, |full| - 1);
    }
  }

  /** Every read the engine makes of its log reads the full log. */
  lemma CompactReads(n: Node, full: Log)
    requires Compacts(n, full) && Shaped(full, n.currentTerm)
    ensures n.Valid() && n.LastLogIndex() == |full| - 1 && n.LastLogTerm() == LastTerm(full)
    ensures |n.log| == |full| - n.lastIncludedIndex
    ensures forall i :: n.lastIncludedIndex <= i < |full| ==> n.LogTerm(i) == full[i].term
    ensures forall i :: n.lastIncludedIndex < i < |full| ==> n.log[i - n.lastIncludedIndex] == full[i]
    ensures forall i: nat :: n.lastIncludedIndex < i <= |full| ==> n.LogFrom(i) == full[i..]
  {
    hide Compacts, Shaped;
    ReadsShape(n, full);
    ReadsEnd(n, full);
    forall i | n.lastIncludedIndex <= i < |full|
      ensures n.LogTerm(i) == full[i].term
    {
      ReadsTerm(n, full, i);
    }
    forall i | n.lastIncludedIndex < i < |full|
      ensures n.log[i - n.lastIncludedIndex] == full[i]
    {
      ReadsEntry(n, full, i);
    }
    forall i: nat | n.lastIncludedIndex < i <= |full|
      ensures n.LogFrom(i) == full[i..]
    {
      ReadsSlice(n, full, i);
    }
  }

  lemma CompactHead(full: Log, k: nat)
    requires k < |full|
    ensures |Compact(full, k)| == |full| - k && Compact(full, k)[0] == Entry(k, full[k].term, Nil)
  {
  }

  /** Cutting at an index the log reaches compacts the same full log further. */
  lemma CutCompacts(n: Node, full: Log, idx: nat)
    requires Compacts(n, full) && n.lastIncludedIndex <= idx < |full|
    ensures CutAt(n, idx, full[idx].term) == Compact(full, idx)
  {
    var k := idx - n.lastIncludedIndex;
    if k + 1 < |n.log| {
      assert n.log[k + 1..] == full[idx + 1..];
    }
  }

  /** TakeSnapshot leaves the full history as it was. */
  lemma TakeSnapshotRefines(n: Node, full: Log, idx: nat, data: State)
    requires Compacts(n, full) && Shaped(full, n.currentTerm)
    ensures Compacts(OnTakeSnapshot(n, idx, data), full)
    ensures CanSnapshot(n, idx) <==> n.lastIncludedIndex < idx <= n.commitIndex && idx < |full|
  {
    CompactReads(n, full);
    if CanSnapshot(n, idx) {
      CutCompacts(n, full, idx);
    }
  }

  /** The entries found standing are the leader's own, and the first one not standing is where the full logs part. */
  lemma StandingAgrees(n: Node, full: Log, elected: map<nat, Mandate>, t: nat, prev: nat, m: nat, k: nat)
    requires Compacts(n, full) && Traced(elected, full)
    requires t in elected && Traced(elected, elected[t].log)
    requires n.lastIncludedIndex <= prev <= m < |elected[t].log|
    requires Agree(full, elected[t].log, prev) && |n.log| == |full| - n.lastIncludedIndex
    requires k == Standing(n.log, prev - n.lastIncludedIndex + 1, elected[t].log[prev + 1..m + 1])
    ensures Agree(full, elected[t].log, prev + k)
    ensures prev + k < m ==> !Agree(full, elected[t].log, prev + k + 1)
  {
    hide Compact, Traced;
    var leader := elected[t].log;
    var entries := leader[prev + 1..m + 1];
    if k > 0 {
      assert full[prev + k].term == leader[prev + k].term by {
        CompactAt(full, n.lastIncludedIndex, prev + k);
        assert entries[k - 1] == leader[prev + k];
      }
      LogMatching(elected, full, leader, prev + k);
    }
    if prev + k + 1 < |full| && prev + k < m {
      CompactAt(full, n.lastIncludedIndex, prev + k + 1);
      assert entries[k] == leader[prev + k + 1];
    }
  }

  lemma SpliceCompacts(full: Log, leader: Log, c: nat, j: nat, m: nat)
    requires c <= j < m < |leader| && Agree(full, leader, j)
    ensures Compact(full, c)[..j - c + 1] + leader[j + 1..m + 1] == Compact(leader[..m + 1], c)
  {
    assert full[c] == leader[c];
  }

  /** Replaying a stretch of the leader's log: the compacted merge is the compaction of the adopted full log. */
  lemma MergeRefines(n: Node, full: Log, elected: map<nat, Mandate>, t: nat, prev: nat, m: nat)
    requires Compacts(n, full) && Traced(elected, full)
    requires t in elected && Traced(elected, elected[t].log)
    requires n.lastIncludedIndex <= prev <= m < |elected[t].log|
    requires Agree(full, elected[t].log, prev)
    ensures |Adopted(full, elected[t].log, m)| > n.lastIncludedIndex
    ensures Adopted(full, elected[t].log, m)[n.lastIncludedIndex] == full[n.lastIncludedIndex]
    ensures Merged(n.log, prev - n.lastIncludedIndex + 1, elected[t].log[prev + 1..m + 1])
         == Compact(Adopted(full, elected[t].log, m), n.lastIncludedIndex)
  {
    hide Compact, Traced;
    var leader := elected[t].log;
    var pos := prev - n.lastIncludedIndex + 1;
    var entries := leader[prev + 1..m + 1];
    assert |n.log| == |full| - n.lastIncludedIndex by { CompactLength(full, n.lastIncludedIndex); }
    var k := Standing(n.log, pos, entries);
    StandingAgrees(n, full, elected, t, prev, m, k);
    if k < |entries| {
      assert entries[k..] == leader[prev + k + 1..m + 1];
      SpliceCompacts(full, leader, n.lastIncludedIndex, prev + k, m);
      assert !Agree(full, leader, m);
    }
  }

  lemma CompactLength(full: Log, k: nat)
    requires k < |full|
    ensures |Compact(full, k)| == |full| - k
  {
  }
}
