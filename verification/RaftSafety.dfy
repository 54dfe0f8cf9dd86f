/** The promises of the Raft engine, over every run of a cluster: any interleaving of elections, replication,
    compaction, snapshot installation, loss, delay, reordering and crash-stop. */
module RaftSafety {
  import opened RaftTypes
  import opened RaftLedger
  import opened RaftLedgerActions
  import opened RaftHandlers
  import opened RaftCompaction
  import opened RaftCluster
  import opened RaftInvariant
  import opened RaftElections
  import opened RaftReplication
  import opened RaftRuns

  /** History only grows along a run. */
  lemma {:induction false} RunGrows(cs: seq<Cluster>, i: nat, j: nat)
    requires Run(cs) && i <= j < |cs|
    ensures Grows(cs[i].ledger, cs[j].ledger)
    decreases j
  {
    hide SystemInv, After, Enabled, Grows;
    if i < j {
      var k := j - 1;
      RunGrows(cs, i, k);
      RunHolds(cs, k);
      assert Next(cs[k], cs[k + 1]);
      var step :| Enabled(cs[k], step) && cs[j] == After(cs[k], step);
      StepPreserves(cs[k], step);
      GrowsTransitive(cs[i].ledger, cs[k].ledger, cs[j].ledger);
    } else {
      GrowsReflexive(cs[i].ledger);
    }
  }

  lemma GrowsReflexive(l: Ledger)
    ensures Grows(l, l)
  {
  }

  /** A node's uncompacted log in a state of a run. */
  ghost function FullLog(c: Cluster, n: NodeId): Log {
    if n in c.ledger.members then c.ledger.members[n].log else []
  }

  lemma RunNode(cs: seq<Cluster>, i: nat, n: NodeId)
    requires Run(cs) && i < |cs| && n in cs[i].nodes
    ensures SystemInv(cs[i]) && Inv(cs[i].ledger) && NodeOk(cs[i].ledger, n, cs[i].nodes[n])
    ensures n in cs[i].ledger.members
    ensures n != NOBODY
  {
    RunHolds(cs, i);
    assert NodeHolds(cs[i], n);
  }

  /** The in-memory log is the compaction of the full log the theorems below speak of: contiguous indices after the
      anchor, the anchor itself never truncated. */
  lemma InMemoryLog(cs: seq<Cluster>, i: nat, n: NodeId, k: nat)
    requires Run(cs) && i < |cs| && n in cs[i].nodes
    ensures var v := cs[i].nodes[n]; var full := FullLog(cs[i], n);
      && |v.log| > 0 && v.log[0].index == v.lastIncludedIndex && v.log[0].term == v.lastIncludedTerm
      && v.lastIncludedIndex + |v.log| == |full|
      && (v.lastIncludedIndex < k < |full| ==> v.log[k - v.lastIncludedIndex] == full[k] && full[k].index == k)
  {
    hide NodeOk, SystemInv, Inv, Run, Compacts, Shaped, Traced, Safe;
    RunNode(cs, i, n);
    NodeParts(cs[i].ledger, n, cs[i].nodes[n]);
    CompactReads(cs[i].nodes[n], FullLog(cs[i], n));
  }

  /** State Machine Safety (section 5.4.3), across nodes and across time: what two nodes have committed agrees. */
  lemma StateMachineSafety(cs: seq<Cluster>, i: nat, j: nat, n: NodeId, m: NodeId, k: nat)
    requires Run(cs) && i <= j < |cs| && n in cs[i].nodes && m in cs[j].nodes
    requires k <= cs[i].nodes[n].commitIndex && k <= cs[j].nodes[m].commitIndex
    ensures Agree(FullLog(cs[i], n), FullLog(cs[j], m), k)
  {
    hide NodeOk, SystemInv, Inv, Grows, Safe, Run, Compacts, Shaped, Traced;
    var l, l' := cs[i].ledger, cs[j].ledger;
    var v, w := cs[i].nodes[n], cs[j].nodes[m];
    RunNode(cs, i, n);
    RunNode(cs, j, m);
    NodeParts(l, n, v);
    NodeParts(l', m, w);
    RunGrows(cs, i, j);
    SafeGrows(l, l', l.members[n].log, v.commitIndex, v.currentTerm, v.currentTerm);
    CommittedLogsAgree(l', l.members[n].log, v.commitIndex, v.currentTerm, l'.members[m].log, w.commitIndex,
                       w.currentTerm);
  }

  /** The same, read off the in-memory logs: the very entries two nodes hold at a committed index are equal. */
  lemma CommittedEntriesEqual(cs: seq<Cluster>, i: nat, j: nat, n: NodeId, m: NodeId, k: nat)
    requires Run(cs) && i <= j < |cs| && n in cs[i].nodes && m in cs[j].nodes
    requires cs[i].nodes[n].lastIncludedIndex < k <= cs[i].nodes[n].commitIndex
    requires cs[j].nodes[m].lastIncludedIndex < k <= cs[j].nodes[m].commitIndex
    ensures var v, w := cs[i].nodes[n], cs[j].nodes[m];
      && k - v.lastIncludedIndex < |v.log| && k - w.lastIncludedIndex < |w.log|
      && v.log[k - v.lastIncludedIndex] == w.log[k - w.lastIncludedIndex]
  {
    hide NodeOk, SystemInv, Inv, Grows, Run;
    StateMachineSafety(cs, i, j, n, m, k);
    InMemoryLog(cs, i, n, k);
    InMemoryLog(cs, j, m, k);
  }

  /** Election Safety (section 5.2): a term has at most one leader in the whole run. */
  lemma OneLeaderPerTerm(cs: seq<Cluster>, i: nat, j: nat, n: NodeId, m: NodeId)
    requires Run(cs) && i <= j < |cs| && n in cs[i].nodes && m in cs[j].nodes
    requires cs[i].nodes[n].role == Leader && cs[j].nodes[m].role == Leader
    requires cs[i].nodes[n].currentTerm == cs[j].nodes[m].currentTerm
    ensures n == m
  {
    hide NodeOk, SystemInv, Inv, Run, Compacts, Shaped, Traced, Safe;
    var t := cs[i].nodes[n].currentTerm;
    RunNode(cs, i, n);
    RunNode(cs, j, m);
    NodeParts(cs[i].ledger, n, cs[i].nodes[n]);
    NodeParts(cs[j].ledger, m, cs[j].nodes[m]);
    RunGrows(cs, i, j);
    assert MandateGrows(cs[i].ledger.elected[t], cs[j].ledger.elected[t]);
  }

  /** Each node grants at most one real vote per term, over all answers it ever sends. */
  lemma OneVotePerTerm(cs: seq<Cluster>, i: nat, a: Answer, b: Answer)
    requires Run(cs) && i < |cs| && a in cs[i].answers && b in cs[i].answers
    requires a.reply.Voted? && a.reply.vote.voteGranted && a.call.request.Vote? && !a.call.request.vote.isPreVote
    requires b.reply.Voted? && b.reply.vote.voteGranted && b.call.request.Vote? && !b.call.request.vote.isPreVote
    requires a.call.to == b.call.to && a.call.request.vote.term == b.call.request.vote.term
    ensures a.call.from == b.call.from
  {
    hide Run, Inv, CallOk;
    RunHolds(cs, i);
    assert AnswerOk(cs[i].ledger, a) && AnswerOk(cs[i].ledger, b);
  }

  /** Leader Completeness (section 5.4.3): once any node knows k committed, every leader of that node's term or a later
      one, now or later, holds the same log up to k. */
  lemma LeadersHoldCommitted(cs: seq<Cluster>, i: nat, j: nat, n: NodeId, m: NodeId, k: nat)
    requires Run(cs) && i <= j < |cs| && n in cs[i].nodes && m in cs[j].nodes
    requires k <= cs[i].nodes[n].commitIndex
    requires cs[j].nodes[m].role == Leader && cs[j].nodes[m].currentTerm >= cs[i].nodes[n].currentTerm
    ensures Agree(FullLog(cs[i], n), FullLog(cs[j], m), k)
  {
    hide NodeOk, SystemInv, Inv, Grows, Safe, Run, Compacts, Shaped, Traced;
    var l, l' := cs[i].ledger, cs[j].ledger;
    var v, w := cs[i].nodes[n], cs[j].nodes[m];
    RunNode(cs, i, n);
    RunNode(cs, j, m);
    NodeParts(l, n, v);
    NodeParts(l', m, w);
    RunGrows(cs, i, j);
    SafeGrows(l, l', l.members[n].log, v.commitIndex, v.currentTerm, v.currentTerm);
    SafeInLeader(l', l.members[n].log, v.commitIndex, v.currentTerm, w.currentTerm);
    MandateParts(l', w.currentTerm);
  }

  /** Log Matching (section 5.3), across nodes and time. */
  lemma LogsMatch(cs: seq<Cluster>, i: nat, j: nat, n: NodeId, m: NodeId, k: nat)
    requires Run(cs) && i <= j < |cs| && n in cs[i].nodes && m in cs[j].nodes
    requires k < |FullLog(cs[i], n)| && k < |FullLog(cs[j], m)|
    requires FullLog(cs[i], n)[k].term == FullLog(cs[j], m)[k].term
    ensures Agree(FullLog(cs[i], n), FullLog(cs[j], m), k)
  {
    hide NodeOk, SystemInv, Inv, Traced, Run, Compacts, Safe;
    RunNode(cs, i, n);
    RunNode(cs, j, m);
    NodeParts(cs[i].ledger, n, cs[i].nodes[n]);
    NodeParts(cs[j].ledger, m, cs[j].nodes[m]);
    RunGrows(cs, i, j);
    TracedGrows(cs[i].ledger.elected, cs[j].ledger.elected, FullLog(cs[i], n));
    if k > 0 {
      LogMatching(cs[j].ledger.elected, FullLog(cs[i], n), FullLog(cs[j], m), k);
    }
  }

  // ----- acknowledged writes ----------------------------------------------

  /** The log of a term that was won never loses or replaces an entry. */
  lemma TermLogStays(cs: seq<Cluster>, i: nat, j: nat, t: nat, k: nat)
    requires Run(cs) && i <= j < |cs| && t in cs[i].ledger.elected && k < |cs[i].ledger.elected[t].log|
    ensures t in cs[j].ledger.elected && k < |cs[j].ledger.elected[t].log|
    ensures cs[j].ledger.elected[t].log[k] == cs[i].ledger.elected[t].log[k]
  {
    RunGrows(cs, i, j);
    assert MandateGrows(cs[i].ledger.elected[t], cs[j].ledger.elected[t]);
  }

  /** A proposal appends its payload to the proposer's log, under the proposer's term, one past the last index. */
  lemma ProposalAppends(c: Cluster, n: NodeId, payload: Payload)
    requires SystemInv(c) && Enabled(c, ProposeEntry(n, payload))
    ensures var c' := After(c, ProposeEntry(n, payload)); var t := c.nodes[n].currentTerm;
      var k := c.nodes[n].LastLogIndex() + 1;
      && FullLog(c', n) == FullLog(c, n) + [Entry(k, t, payload)] && k == |FullLog(c, n)|
      && t in c'.ledger.elected && c'.ledger.elected[t].log == FullLog(c', n)
  {
    hide NodeOk, Inv, SystemInv, Extended, MovesOnly, Compacts, Traced, Broadcast;
    KnownNode(c, n);
    LedgerInv(c);
    NodeParts(c.ledger, n, c.nodes[n]);
    CompactReads(c.nodes[n], FullLog(c, n));
    ProposedOk(c.ledger, n, c.nodes[n], payload);
  }

  lemma LedgerInv(c: Cluster)
    requires SystemInv(c)
    ensures Inv(c.ledger) && c.nodes.Keys == c.ledger.ids
  {
  }

  /** Propose's poll succeeded: at some later state the proposer is still leader of the proposal's term and its commit
      index covers the entry. */
  ghost predicate Acknowledged(cs: seq<Cluster>, i: nat, j: nat, n: NodeId, payload: Payload)
    requires Run(cs) && i + 1 < |cs| && n in cs[i].nodes && |cs[i].nodes[n].log| > 0
  {
    && Enabled(cs[i], ProposeEntry(n, payload)) && cs[i + 1] == After(cs[i], ProposeEntry(n, payload))
    && i < j < |cs| && n in cs[j].nodes && cs[j].nodes[n].role == Leader
    && cs[j].nodes[n].currentTerm == cs[i].nodes[n].currentTerm
    && cs[j].nodes[n].commitIndex >= cs[i].nodes[n].LastLogIndex() + 1
  }

  /** What Propose acknowledged at index k holds that very payload in the proposer's log, and in the log of every node
      that ever commits k, and of every leader of a later term. */
  lemma AcknowledgedWritesSurvive(cs: seq<Cluster>, i: nat, j: nat, n: NodeId, payload: Payload, r: nat, m: NodeId)
    requires Run(cs) && i + 1 < |cs| && n in cs[i].nodes && |cs[i].nodes[n].log| > 0
    requires Acknowledged(cs, i, j, n, payload)
    requires j <= r < |cs| && m in cs[r].nodes
    ensures var k := cs[i].nodes[n].LastLogIndex() + 1; var e := Entry(k, cs[i].nodes[n].currentTerm, payload);
      && k < |FullLog(cs[j], n)| && FullLog(cs[j], n)[k] == e
      && (cs[r].nodes[m].commitIndex >= k ==> k < |FullLog(cs[r], m)| && FullLog(cs[r], m)[k] == e)
      && (cs[r].nodes[m].role == Leader && cs[r].nodes[m].currentTerm >= e.term ==>
           k < |FullLog(cs[r], m)| && FullLog(cs[r], m)[k] == e)
  {
    hide NodeOk, SystemInv, Inv, Run;
    var k := cs[i].nodes[n].LastLogIndex() + 1;
    var t := cs[i].nodes[n].currentTerm;
    RunNode(cs, i, n);
    ProposalAppends(cs[i], n, payload);
    TermLogStays(cs, i + 1, j, t, k);
    RunNode(cs, j, n);
    NodeParts(cs[j].ledger, n, cs[j].nodes[n]);
    MandateParts(cs[j].ledger, t);
    if cs[r].nodes[m].commitIndex >= k {
      StateMachineSafety(cs, j, r, n, m, k);
    }
    if cs[r].nodes[m].role == Leader && cs[r].nodes[m].currentTerm >= t {
      LeadersHoldCommitted(cs, j, r, n, m, k);
    }
  }

  // ----- truthful match indices -------------------------------------------

  /** A successful AppendEntries answer, whichever branch gave it: the answering node's full log agrees with the
      log of the call's term up to the match index, which that log reaches. */
  lemma MatchIndexTruthful(c: Cluster, call: Call)
    requires SystemInv(c) && Enabled(c, AnswerAppend(call))
    ensures var reply := OnAppendEntries(c.nodes[call.to], call.request.append).1;
      var c' := After(c, AnswerAppend(call));
      reply.success ==>
        && call.request.append.term in c'.ledger.elected
        && Agree(FullLog(c', call.to), c'.ledger.elected[call.request.append.term].log, reply.matchIndex)
        && reply.term == call.request.append.term
  {
    hide NodeOk, Inv, CallOk, AnswerOk, Kept, SystemInv, OnAppendEntries;
    var n, t := call.to, call.request.append.term;
    AnswerAppendPreserves(c, call);
    var c' := After(c, AnswerAppend(call));
    var reply := OnAppendEntries(c.nodes[n], call.request.append).1;
    var a := Answer(call, Appended(reply));
    FreshAnswer(c', a);
    if reply.success {
      SuccessTerm(c, call);
      AnsweredNode(c, call);
      AckHolds(c'.ledger, n, t, reply.matchIndex);
    }
  }

  lemma FreshAnswer(c: Cluster, a: Answer)
    requires SystemInv(c) && a in c.answers
    ensures Inv(c.ledger) && (a.reply.Appended? ==> AppendedOk(c.ledger, a.call, a.reply.append))
    ensures a.reply.Installed? ==> InstalledOk(c.ledger, a.call, a.reply.install)
  {
    assert AnswerOk(c.ledger, a);
  }

  /** Only calls of the handler's own term succeed. */
  lemma SuccessTerm(c: Cluster, call: Call)
    requires Receives(c, call) && call.request.Append?
    ensures var (v, reply) := OnAppendEntries(c.nodes[call.to], call.request.append);
      reply.success ==> v.currentTerm == call.request.append.term == reply.term
  {
  }

  lemma AnsweredNode(c: Cluster, call: Call)
    requires SystemInv(c) && Enabled(c, AnswerAppend(call))
    ensures var c' := After(c, AnswerAppend(call)); var v := OnAppendEntries(c.nodes[call.to], call.request.append).0;
      call.to in c'.ledger.members && c'.ledger.members[call.to].term == v.currentTerm
  {
    hide OnAppendEntries, SystemInv, Inv, CallOk;
    var c' := After(c, AnswerAppend(call));
    AnswerAppendPreserves(c, call);
    var v := OnAppendEntries(c.nodes[call.to], call.request.append).0;
    assert c'.nodes[v.id] == v;
    assert NodeHolds(c', v.id) by { HoldsAll(c', v.id); }
    assert v.id == call.to by { HandlerKeepsId(c, call); }
  }

  lemma HoldsAll(c: Cluster, n: NodeId)
    requires SystemInv(c) && n in c.nodes
    ensures NodeHolds(c, n)
  {
  }

  lemma HandlerKeepsId(c: Cluster, call: Call)
    requires Receives(c, call) && call.request.Append?
    ensures OnAppendEntries(c.nodes[call.to], call.request.append).0.id == call.to
  {
  }

  /** What a node acknowledged to its current term is in its log. */
  lemma AckHolds(l: Ledger, n: NodeId, t: nat, i: nat)
    requires Inv(l) && AckedTo(l, n, t, i) && n in l.members && l.members[n].term == t
    ensures t in l.elected && Agree(l.members[n].log, l.elected[t].log, i)
  {
    var s := Slot(n, t);
    assert AckOk(l, s);
    assert Kept(l.elected, l.members[n].log, t, i, t + 1);
  }

  /** The same for a snapshot accepted in the caller's term: the index the leader goes on to record is matched. */
  lemma SnapshotMatchTruthful(c: Cluster, call: Call)
    requires SystemInv(c) && Enabled(c, AnswerInstall(call))
    requires call.request.install.term >= c.nodes[call.to].currentTerm
    ensures var c' := After(c, AnswerInstall(call)); var args := call.request.install;
      && args.term in c'.ledger.elected
      && Agree(FullLog(c', call.to), c'.ledger.elected[args.term].log, args.lastIncludedIndex)
  {
    hide NodeOk, Inv, CallOk, AnswerOk, SystemInv, OnInstallSnapshot;
    var n, args := call.to, call.request.install;
    AnswerInstallPreserves(c, call);
    var c' := After(c, AnswerInstall(call));
    var (v, reply) := OnInstallSnapshot(c.nodes[n], args);
    FreshAnswer(c', Answer(call, Installed(reply)));
    InstalledIn(c, call);
    HoldsAll(c', n);
    NodeTerm(c'.ledger, n, v);
    AckHolds(c'.ledger, n, args.term, args.lastIncludedIndex);
  }

  lemma InstalledIn(c: Cluster, call: Call)
    requires Receives(c, call) && call.request.Install? && call.request.install.term >= c.nodes[call.to].currentTerm
    ensures var (v, reply) := OnInstallSnapshot(c.nodes[call.to], call.request.install);
      v.id == call.to && v.currentTerm == call.request.install.term && reply.term <= v.currentTerm
  {
  }

  /** Whatever a leader has recorded for a peer, at any time, is below its own last index and truly acknowledged. */
  lemma LeaderPictureTruthful(cs: seq<Cluster>, i: nat, n: NodeId, p: NodeId)
    requires Run(cs) && i < |cs| && n in cs[i].nodes && cs[i].nodes[n].role == Leader && p in cs[i].nodes[n].peers
    ensures var v := cs[i].nodes[n];
      && At(v.matchIndex, p) < |FullLog(cs[i], n)| && At(v.nextIndex, p) <= |FullLog(cs[i], n)|
      && (At(v.matchIndex, p) == 0 || AckedTo(cs[i].ledger, p, v.currentTerm, At(v.matchIndex, p)))
  {
    hide Inv, SystemInv, Run, Compacts, Safe;
    RunNode(cs, i, n);
    var v := cs[i].nodes[n];
    assert PeerOk(cs[i].ledger, v, p, |cs[i].ledger.members[n].log|);
    if At(v.matchIndex, p) > 0 {
      AckBound(cs[i].ledger, n, v, p, At(v.matchIndex, p));
    }
  }

  /** A node that acknowledged an entry which gets committed has it ever after: nothing it accepts later, snapshots
      included, drops it. */
  lemma CommittedAckHeld(l: Ledger, n: NodeId, t: nat, i: nat)
    requires Inv(l) && Committed(l, t, i) && AckedTo(l, n, t, i)
    ensures n in l.members && Agree(l.members[n].log, l.elected[t].log, i)
  {
    var s := Slot(n, t);
    assert AckOk(l, s);
    assert Kept(l.elected, l.members[n].log, t, i, l.members[n].term + 1);
    if !Agree(l.members[n].log, l.elected[t].log, i) {
      var u :| u in l.elected && t < u < l.members[n].term + 1 && !Agree(l.elected[u].base, l.elected[t].log, i);
      LeaderCompleteness(l, t, i, u);
    }
  }
}
