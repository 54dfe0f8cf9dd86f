/** What holds of every reachable cluster: each node's fields against its history, and the truth of every message. A
    call quotes the log it was made from, an answer speaks the truth about what was voted or matched, a tally counts
    voters, and the applier has handed over what it should. All of it survives the moves of other nodes. */
module RaftInvariant {
  import opened RaftTypes
  import opened RaftLedger
  import opened RaftLedgerActions
  import opened RaftHandlers
  import opened RaftCompaction
  import opened RaftCluster

  // ----- nodes ------------------------------------------------------------

  ghost predicate Leads(l: Ledger, n: NodeId, t: nat) {
    t in l.elected && l.elected[t].leader == n
  }

  /** votedFor is the ballot the node cast this term. */
  ghost predicate VoteOk(l: Ledger, n: NodeId, v: Node) {
    if v.votedFor == NOBODY then Slot(n, v.currentTerm) !in l.ballots
    else Slot(n, v.currentTerm) in l.ballots && l.ballots[Slot(n, v.currentTerm)].candidate == v.votedFor
  }

  /** A leader's picture of a peer never overstates what the peer acknowledged this term. */
  ghost predicate PeerOk(l: Ledger, v: Node, p: NodeId, length: nat) {
    && At(v.nextIndex, p) <= length
    && (At(v.matchIndex, p) == 0
        || (Slot(p, v.currentTerm) in l.acked && At(v.matchIndex, p) <= l.acked[Slot(p, v.currentTerm)]))
  }

  ghost predicate RoleOk(l: Ledger, n: NodeId, v: Node, full: Log) {
    && (v.role == Leader <==> Leads(l, n, v.currentTerm))
    && (v.role == Leader ==>
         && Slot(n, v.currentTerm) in l.acked && l.acked[Slot(n, v.currentTerm)] == |full| - 1
         && forall p {:trigger PeerOk(l, v, p, |full|)} :: p in v.peers ==> PeerOk(l, v, p, |full|))
    && (v.role == Candidate ==>
         && v.currentTerm > 0 && v.votedFor == n
         && Slot(n, v.currentTerm) in l.candidacies && l.candidacies[Slot(n, v.currentTerm)] == full)
  }

  ghost predicate IndicesOk(v: Node, full: Log) {
    v.lastIncludedIndex <= v.lastApplied <= v.commitIndex < |full|
  }

  ghost predicate NodeOk(l: Ledger, n: NodeId, v: Node) {
    && v.id == n && n in l.ids && n in l.members && PeersOk(v.peers, n, l.ids)
    && v.currentTerm == l.members[n].term
    && Compacts(v, l.members[n].log)
    && IndicesOk(v, l.members[n].log)
    && Safe(l, l.members[n].log, v.commitIndex, v.currentTerm)
    && VoteOk(l, n, v)
    && RoleOk(l, n, v, l.members[n].log)
  }

  // ----- messages ---------------------------------------------------------

  ghost predicate VoteCallOk(l: Ledger, from: NodeId, args: RequestVoteArgs) {
    && args.candidateID == from
    && args.term > 0
    && (if args.isPreVote then from in l.members && args.term <= l.members[from].term + 1
        else var s := Slot(from, args.term);
             && s in l.candidacies && |l.candidacies[s]| > 0
             && args.lastLogIndex == |l.candidacies[s]| - 1 && args.lastLogTerm == LastTerm(l.candidacies[s]))
  }

  /** An AppendEntries quotes a stretch of its term's log, and a commit index that stretch reaches. */
  ghost predicate AppendCallOk(l: Ledger, from: NodeId, args: AppendEntriesArgs) {
    && args.leaderID == from && Leads(l, from, args.term)
    && var log := l.elected[args.term].log;
       && args.prevLogIndex + |args.entries| < |log|
       && args.prevLogTerm == log[args.prevLogIndex].term
       && args.entries == log[args.prevLogIndex + 1..args.prevLogIndex + |args.entries| + 1]
       && args.leaderCommit <= args.prevLogIndex + |args.entries|
       && Safe(l, log, args.leaderCommit, args.term)
  }

  /** An InstallSnapshot names a committed entry of its term's log. */
  ghost predicate InstallCallOk(l: Ledger, from: NodeId, args: InstallSnapshotArgs) {
    && args.leaderID == from && Leads(l, from, args.term)
    && var log := l.elected[args.term].log;
       && 0 < args.lastIncludedIndex < |log|
       && args.lastIncludedTerm == log[args.lastIncludedIndex].term
       && Safe(l, log, args.lastIncludedIndex, args.term)
  }

  ghost predicate CallOk(l: Ledger, call: Call) {
    && call.from in l.ids && call.to in l.ids && call.from != call.to
    && match call.request
       case Vote(args) => VoteCallOk(l, call.from, args)
       case Append(args) => AppendCallOk(l, call.from, args)
       case Install(args) => InstallCallOk(l, call.from, args)
  }

  ghost predicate AckedTo(l: Ledger, p: NodeId, t: nat, i: nat) {
    Slot(p, t) in l.acked && i <= l.acked[Slot(p, t)]
  }

  ghost predicate VotedOk(l: Ledger, call: Call, reply: RequestVoteReply) {
    && call.request.Vote? && call.to in l.members && reply.term <= l.members[call.to].term
    && (reply.voteGranted && !call.request.vote.isPreVote ==>
         var s := Slot(call.to, call.request.vote.term);
         s in l.ballots && l.ballots[s].candidate == call.from)
  }

  ghost predicate AppendedOk(l: Ledger, call: Call, reply: AppendEntriesReply) {
    && call.request.Append? && call.to in l.members && reply.term <= l.members[call.to].term
    && (reply.success ==> AckedTo(l, call.to, call.request.append.term, reply.matchIndex))
  }

  /** A snapshot reply carries the term from before the handler stepped down; one past the call's term is a refusal. */
  ghost predicate InstalledOk(l: Ledger, call: Call, reply: InstallSnapshotReply) {
    && call.request.Install? && call.to in l.members && reply.term <= l.members[call.to].term
    && (reply.term <= call.request.install.term ==>
         AckedTo(l, call.to, call.request.install.term, call.request.install.lastIncludedIndex))
  }

  /** Every answer is truthful: a granted vote was cast, a match index was acknowledged. */
  ghost predicate AnswerOk(l: Ledger, a: Answer) {
    && CallOk(l, a.call)
    && match a.reply
       case Voted(reply) => VotedOk(l, a.call, reply)
       case Appended(reply) => AppendedOk(l, a.call, reply)
       case Installed(reply) => InstalledOk(l, a.call, reply)
  }

  // ----- tallies ----------------------------------------------------------

  /** An election's integer tally is the candidate plus the peers whose ballots it holds. */
  ghost predicate TallyOk(l: Ledger, s: Slot, t: Tally) {
    && t.votes == 1 + |t.granted| && t.granted <= t.heard && s.node !in t.heard
    && (forall g :: g in t.granted ==> Slot(g, s.term) in l.ballots && l.ballots[Slot(g, s.term)].candidate == s.node)
  }

  // ----- deliveries -------------------------------------------------------

  /** The entries with data at the indices 1..k of a log, less the skipped ones. */
  ghost function Handed(full: Log, k: nat, skipped: set<nat>): Log
    requires k < |full|
  {
    if k == 0 then []
    else Handed(full, k - 1, skipped) + (if k !in skipped && full[k].data != Nil then [full[k]] else [])
  }

  /** The applier has handed over exactly the applied entries no snapshot jumped over. */
  ghost predicate DeliveryOk(v: Node, full: Log, delivered: Log, skipped: set<nat>) {
    && v.lastApplied < |full|
    && delivered == Handed(full, v.lastApplied, skipped)
    && forall i :: i in skipped ==> 0 < i <= v.lastIncludedIndex
  }

  // ----- the invariant ----------------------------------------------------

  ghost predicate NodeHolds(c: Cluster, n: NodeId) {
    && n in c.nodes && n in c.loops && n in c.rounds && n in c.delivered && n in c.skipped
    && NodeOk(c.ledger, n, c.nodes[n])
    && DeliveryOk(c.nodes[n], c.ledger.members[n].log, c.delivered[n], c.skipped[n])
    && (c.nodes[n].role == Candidate ==> Slot(n, c.nodes[n].currentTerm) in c.elections)
  }

  ghost predicate ElectionHolds(c: Cluster, s: Slot) {
    s in c.elections && TallyOk(c.ledger, s, c.elections[s])
  }

  ghost predicate SystemInv(c: Cluster) {
    && Inv(c.ledger)
    && NOBODY !in c.ledger.ids && c.nodes.Keys == c.ledger.ids
    && (forall n {:trigger NodeHolds(c, n)} :: n in c.ledger.ids ==> NodeHolds(c, n))
    && (forall call {:trigger CallOk(c.ledger, call)} :: call in c.calls ==> CallOk(c.ledger, call))
    && (forall a {:trigger AnswerOk(c.ledger, a)} :: a in c.answers ==> AnswerOk(c.ledger, a))
    && (forall s {:trigger ElectionHolds(c, s)} :: s in c.elections ==> ElectionHolds(c, s))
  }

  // ----- what one node's move leaves alone --------------------------------

  /** The ledger grew by moves of node n alone. */
  ghost predicate MovesOnly(l: Ledger, l': Ledger, n: NodeId) {
    && Grows(l, l')
    && (forall p :: p in l.members && p != n ==> l'.members[p] == l.members[p])
    && (forall s :: s in l'.ballots && s.node != n ==> s in l.ballots)
    && (forall s :: s in l'.acked && s.node != n ==> s in l.acked && l'.acked[s] == l.acked[s])
    && (forall t :: t in l'.elected && l'.elected[t].leader != n ==> t in l.elected)
  }

  lemma MovesOnlyTransitive(a: Ledger, b: Ledger, c: Ledger, n: NodeId)
    requires MovesOnly(a, b, n) && MovesOnly(b, c, n)
    ensures MovesOnly(a, c, n)
  {
    GrowsTransitive(a, b, c);
    forall t | t in c.elected && c.elected[t].leader != n
      ensures t in a.elected
    {
      assert t in b.elected && MandateGrows(b.elected[t], c.elected[t]);
    }
  }

  lemma BystanderOk(l: Ledger, l': Ledger, n: NodeId, p: NodeId, v: Node)
    requires MovesOnly(l, l', n) && p != n && NodeOk(l, p, v)
    ensures NodeOk(l', p, v)
  {
    hide Compacts, Safe, Agree;
    SafeGrows(l, l', l.members[p].log, v.commitIndex, v.currentTerm, v.currentTerm);
    assert Leads(l', p, v.currentTerm) <==> Leads(l, p, v.currentTerm) by {
      assert v.currentTerm in l.elected ==> MandateGrows(l.elected[v.currentTerm], l'.elected[v.currentTerm]);
    }
    if v.role == Leader {
      forall q | q in v.peers
        ensures PeerOk(l', v, q, |l'.members[p].log|)
      {
        assert PeerOk(l, v, q, |l.members[p].log|);
      }
    }
  }

  lemma CallGrows(l: Ledger, l': Ledger, call: Call)
    requires Grows(l, l') && CallOk(l, call)
    ensures CallOk(l', call)
  {
    match call.request
    case Vote(args) =>
    case Append(args) =>
      var log, log' := l.elected[args.term].log, l'.elected[args.term].log;
      assert MandateGrows(l.elected[args.term], l'.elected[args.term]);
      SafeGrows(l, l', log, args.leaderCommit, args.term, args.term);
      SafeElsewhere(l', log, log', args.leaderCommit, args.leaderCommit, args.term, args.term);
    case Install(args) =>
      var log, log' := l.elected[args.term].log, l'.elected[args.term].log;
      assert MandateGrows(l.elected[args.term], l'.elected[args.term]);
      SafeGrows(l, l', log, args.lastIncludedIndex, args.term, args.term);
      SafeElsewhere(l', log, log', args.lastIncludedIndex, args.lastIncludedIndex, args.term, args.term);
  }

  lemma AnswerGrows(l: Ledger, l': Ledger, a: Answer)
    requires Grows(l, l') && AnswerOk(l, a)
    ensures AnswerOk(l', a)
  {
    hide CallOk;
    CallGrows(l, l', a.call);
  }

  lemma TallyGrows(l: Ledger, l': Ledger, s: Slot, t: Tally)
    requires Grows(l, l') && TallyOk(l, s, t)
    ensures TallyOk(l', s, t)
  {
  }

  /** If one node's move is sound, so is the cluster after it. */
  lemma MovePreserves(c: Cluster, c': Cluster, n: NodeId)
    requires SystemInv(c) && n in c.ledger.ids
    requires Inv(c'.ledger) && MovesOnly(c.ledger, c'.ledger, n)
    requires c'.nodes.Keys == c.nodes.Keys && forall p :: p in c.nodes && p != n ==> c'.nodes[p] == c.nodes[p]
    requires c.loops.Keys <= c'.loops.Keys && c.rounds.Keys <= c'.rounds.Keys
    requires c.delivered.Keys <= c'.delivered.Keys && c.skipped.Keys <= c'.skipped.Keys
    requires forall p :: p in c.delivered && p != n ==> c'.delivered[p] == c.delivered[p]
    requires forall p :: p in c.skipped && p != n ==> c'.skipped[p] == c.skipped[p]
    requires forall s :: s in c.elections ==> s in c'.elections
    requires NodeHolds(c', n)
    requires forall call {:trigger CallOk(c'.ledger, call)} :: call in c'.calls && call !in c.calls ==>
      CallOk(c'.ledger, call)
    requires forall a {:trigger AnswerOk(c'.ledger, a)} :: a in c'.answers && a !in c.answers ==> AnswerOk(c'.ledger, a)
    requires forall s {:trigger ElectionHolds(c', s)} ::
      s in c'.elections && (s !in c.elections || c.elections[s] != c'.elections[s]) ==> ElectionHolds(c', s)
    ensures SystemInv(c') && Grows(c.ledger, c'.ledger)
  {
    hide NodeOk, CallOk, AnswerOk, TallyOk, Inv;
    forall p | p in c'.ledger.ids
      ensures NodeHolds(c', p)
    {
      if p != n {
        assert NodeHolds(c, p);
        BystanderOk(c.ledger, c'.ledger, n, p, c.nodes[p]);
        BystanderLog(c.ledger, c'.ledger, n, p);
      }
    }
    forall call | call in c'.calls ensures CallOk(c'.ledger, call) {
      if call in c.calls { CallGrows(c.ledger, c'.ledger, call); }
    }
    forall a | a in c'.answers ensures AnswerOk(c'.ledger, a) {
      if a in c.answers { AnswerGrows(c.ledger, c'.ledger, a); }
    }
    forall s | s in c'.elections ensures ElectionHolds(c', s) {
      if s in c.elections && c.elections[s] == c'.elections[s] {
        assert ElectionHolds(c, s);
        TallyGrows(c.ledger, c'.ledger, s, c.elections[s]);
      }
    }
  }

  lemma BystanderLog(l: Ledger, l': Ledger, n: NodeId, p: NodeId)
    requires Inv(l) && MovesOnly(l, l', n) && p in l.ids && p != n
    ensures p in l.members && p in l'.members && l'.members[p] == l.members[p]
  {
    assert MemberOk(l, p);
  }
}
