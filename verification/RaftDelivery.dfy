/** What the applier hands to the state machine (each node's write-ahead log), over every run. */
module RaftDelivery {
  import opened RaftTypes
  import opened RaftLedger
  import opened RaftCluster
  import opened RaftInvariant
  import opened RaftReplication
  import opened RaftSafety

  /** Handed entries come in strictly increasing index order; each is the log's own entry there, and every unskipped
      entry with data is among them. */
  lemma {:induction false} HandedExactly(full: Log, k: nat, skipped: set<nat>)
    requires k < |full| && forall i :: 0 <= i < |full| ==> full[i].index == i
    ensures var h := Handed(full, k, skipped);
      && (forall x, y :: 0 <= x < y < |h| ==> h[x].index < h[y].index)
      && (forall x :: 0 <= x < |h| ==> 0 < h[x].index <= k && h[x] == full[h[x].index]
                                       && h[x].index !in skipped && h[x].data != Nil)
      && (forall i :: 0 < i <= k && i !in skipped && full[i].data != Nil ==> full[i] in h)
  {
    if k > 0 { HandedExactly(full, k - 1, skipped); }
  }

  lemma RunDelivery(cs: seq<Cluster>, i: nat, n: NodeId)
    requires Run(cs) && i < |cs| && n in cs[i].nodes
    ensures n in cs[i].delivered && n in cs[i].skipped
    ensures DeliveryOk(cs[i].nodes[n], FullLog(cs[i], n), cs[i].delivered[n], cs[i].skipped[n])
    ensures forall k :: 0 <= k < |FullLog(cs[i], n)| ==> FullLog(cs[i], n)[k].index == k
    ensures cs[i].nodes[n].lastApplied <= cs[i].nodes[n].commitIndex
    ensures forall k :: k in cs[i].skipped[n] ==> 0 < k <= cs[i].nodes[n].lastApplied
  {
    hide NodeOk, SystemInv, Inv;
    RunNode(cs, i, n);
    HoldsAll(cs[i], n);
    NodeParts(cs[i].ledger, n, cs[i].nodes[n]);
  }

  /** Delivery is strictly increasing, delivers only applied entries of the node's own log, and leaves out only entries
      without data and entries a snapshot covers. */
  lemma DeliveryInOrder(cs: seq<Cluster>, i: nat, n: NodeId)
    requires Run(cs) && i < |cs| && n in cs[i].nodes
    ensures n in cs[i].delivered && n in cs[i].skipped && cs[i].nodes[n].lastApplied < |FullLog(cs[i], n)|
    ensures var out, v, full := cs[i].delivered[n], cs[i].nodes[n], FullLog(cs[i], n);
      && (forall x, y :: 0 <= x < y < |out| ==> out[x].index < out[y].index)
      && (forall x :: 0 <= x < |out| ==> 0 < out[x].index <= v.lastApplied && out[x] == full[out[x].index])
      && (forall k :: 0 < k <= v.lastApplied ==>
           full[k] in out || full[k].data == Nil || (k in cs[i].skipped[n] && k <= v.lastIncludedIndex))
  {
    RunDelivery(cs, i, n);
    HandedExactly(FullLog(cs[i], n), cs[i].nodes[n].lastApplied, cs[i].skipped[n]);
  }

  lemma {:induction false} HandedGrows(full: Log, a: nat, b: nat)
    requires a <= b < |full|
    ensures Handed(full, a, {}) <= Handed(full, b, {})
  {
    if a < b { HandedGrows(full, a, b - 1); }
  }

  /** Two nodes that no snapshot ever advanced have delivered the same sequence, up to how far each has come. */
  lemma DeliveriesComparable(cs: seq<Cluster>, i: nat, j: nat, n: NodeId, m: NodeId)
    requires Run(cs) && i <= j < |cs| && n in cs[i].nodes && m in cs[j].nodes
    requires n in cs[i].skipped && cs[i].skipped[n] == {} && m in cs[j].skipped && cs[j].skipped[m] == {}
    ensures n in cs[i].delivered && m in cs[j].delivered
    ensures cs[i].delivered[n] <= cs[j].delivered[m] || cs[j].delivered[m] <= cs[i].delivered[n]
  {
    hide Run;
    RunDelivery(cs, i, n);
    RunDelivery(cs, j, m);
    var a, b := cs[i].nodes[n].lastApplied, cs[j].nodes[m].lastApplied;
    var x, y := FullLog(cs[i], n), FullLog(cs[j], m);
    if a <= b {
      StateMachineSafety(cs, i, j, n, m, a);
      HandedAgrees(x, y, a, {});
      HandedGrows(y, a, b);
    } else {
      StateMachineSafety(cs, i, j, n, m, b);
      HandedAgrees(x, y, b, {});
      HandedGrows(x, b, a);
    }
  }

  /** What is handed over is as long as the log only if nothing was skipped or passed over, and then is the log. */
  lemma {:induction false} HandedWhole(full: Log, k: nat, skipped: set<nat>)
    requires k < |full|
    ensures var out := Handed(full, k, skipped);
      && |out| <= k && (|out| == k <==> forall i :: 0 < i <= k ==> i !in skipped && full[i].data != Nil)
      && (|out| == k ==> out == full[1..k + 1])
  {
    if k > 0 {
      HandedWhole(full, k - 1, skipped);
      assert full[1..k + 1] == full[1..k] + [full[k]];
    }
  }

  /** A node has been handed the whole applied log exactly when none of it carries a nil payload, which the applier
      passes over, and no snapshot moved lastApplied over an entry. */
  lemma DeliversWholeIff(cs: seq<Cluster>, i: nat, n: NodeId)
    requires Run(cs) && i < |cs| && n in cs[i].nodes
    ensures n in cs[i].delivered && n in cs[i].skipped && cs[i].nodes[n].lastApplied < |FullLog(cs[i], n)|
    ensures cs[i].delivered[n] == FullLog(cs[i], n)[1..cs[i].nodes[n].lastApplied + 1]
      <==> cs[i].skipped[n] == {}
           && forall k :: 0 < k <= cs[i].nodes[n].lastApplied ==> FullLog(cs[i], n)[k].data != Nil
  {
    RunDelivery(cs, i, n);
    HandedWhole(FullLog(cs[i], n), cs[i].nodes[n].lastApplied, cs[i].skipped[n]);
  }
}
