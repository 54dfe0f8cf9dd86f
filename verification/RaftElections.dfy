/** Elections keep the cluster invariant: polls, candidacies, votes and the win. First what the handlers do to one node
    and the history (sections 5.2 and 5.4.1 of the Raft paper): adopting a term, standing, granting a vote, winning.
    Then what every election step does to the cluster. A win is the delicate one: the integer tally must be a majority
    of ballots, and the ballots must make this node the first and only one to win its term. */
module RaftElections {
  import opened RaftTypes
  import opened RaftLedger
  import opened RaftLedgerActions
  import opened RaftHandlers
  import opened RaftCompaction
  import opened RaftCluster
  import opened RaftInvariant

  // ----- ledger moves -----------------------------------------------------

  lemma RaisedMoves(l: Ledger, n: NodeId, t: nat)
    requires Inv(l) && n in l.members
    ensures Inv(Raised(l, n, t)) && MovesOnly(l, Raised(l, n, t), n)
    ensures Raised(l, n, t).members[n] == Member(Max(t, l.members[n].term), l.members[n].log)
  {
    if t > l.members[n].term { RaisePreserves(l, n, t); }
  }

  /** A term a node has not reached yet holds no ballot, no candidacy and no win of its own. */
  lemma FutureIsBlank(l: Ledger, n: NodeId, t: nat)
    requires Inv(l) && n in l.members && t > l.members[n].term
    ensures Slot(n, t) !in l.ballots && Slot(n, t) !in l.candidacies && !Leads(l, n, t)
  {
    assert Slot(n, t) in l.ballots ==> BallotOk(l, Slot(n, t));
    assert Slot(n, t) in l.candidacies ==> CandidacyOk(l, Slot(n, t));
    assert t in l.elected ==> MandateOk(l, t);
  }

  /** Adopting a later term leaves a node sound. */
  lemma ObserveOk(l: Ledger, n: NodeId, v: Node, t: nat)
    requires Inv(l) && NodeOk(l, n, v)
    ensures Inv(Raised(l, n, t)) && MovesOnly(l, Raised(l, n, t), n)
    ensures NodeOk(Raised(l, n, t), n, Observe(v, t))
    ensures Raised(l, n, t).members[n].log == l.members[n].log
  {
    RaisedMoves(l, n, t);
    if t > v.currentTerm {
      FutureIsBlank(l, n, t);
      SafeGrows(l, Raised(l, n, t), l.members[n].log, v.commitIndex, v.currentTerm, t);
    }
  }

  /** A move that leaves the node's log, its applied index and its snapshot where they were. */
  lemma QuietMove(c: Cluster, c': Cluster, v': Node)
    requires SystemInv(c) && v'.id in c.ledger.ids
    requires Inv(c'.ledger) && MovesOnly(c.ledger, c'.ledger, v'.id)
    requires c'.nodes == c.nodes[v'.id := v']
    requires c.loops.Keys <= c'.loops.Keys && c.rounds.Keys <= c'.rounds.Keys
    requires c'.delivered == c.delivered && c'.skipped == c.skipped
    requires forall s :: s in c.elections ==> s in c'.elections
    requires NodeOk(c'.ledger, v'.id, v')
    requires var v := c.nodes[v'.id];
      && v'.id in c'.ledger.members && v'.id in c.ledger.members
      && c'.ledger.members[v'.id].log == c.ledger.members[v'.id].log
      && v'.lastApplied == v.lastApplied && v'.lastIncludedIndex == v.lastIncludedIndex
      && (v'.role == Candidate ==>
           Slot(v'.id, v'.currentTerm) in c'.elections || (v.role == Candidate && v.currentTerm == v'.currentTerm))
    requires forall call {:trigger CallOk(c'.ledger, call)} :: call in c'.calls && call !in c.calls ==>
      CallOk(c'.ledger, call)
    requires forall a {:trigger AnswerOk(c'.ledger, a)} :: a in c'.answers && a !in c.answers ==> AnswerOk(c'.ledger, a)
    requires forall s {:trigger ElectionHolds(c', s)} ::
      s in c'.elections && (s !in c.elections || c.elections[s] != c'.elections[s]) ==> ElectionHolds(c', s)
    ensures SystemInv(c') && Grows(c.ledger, c'.ledger)
  {
    hide NodeOk, CallOk, AnswerOk, TallyOk, Inv, Grows;
    assert NodeHolds(c, v'.id);
    assert NodeHolds(c', v'.id);
    MovePreserves(c, c', v'.id);
  }

  // ----- broadcasts -------------------------------------------------------

  lemma PeerIsOther(peers: seq<NodeId>, n: NodeId, ids: set<NodeId>, p: NodeId)
    requires PeersOk(peers, n, ids) && p in peers
    ensures p in ids && p != n
  {
    assert p in (set q | q in peers);
    assert p in ids - {n};
  }

  /** The snapshot a leader sends names a committed entry of its term's log. */
  lemma SnapshotSendOk(l: Ledger, n: NodeId, v: Node)
    requires Inv(l) && NodeOk(l, n, v) && v.role == Leader && v.lastIncludedIndex > 0
    ensures InstallCallOk(l, n, InstallSnapshotArgs(v.currentTerm, n, v.lastIncludedIndex, v.lastIncludedTerm,
                                                    v.lastSnapshotData))
  {
    hide RoleOk, VoteOk;
    var t, full := v.currentTerm, l.members[n].log;
    assert Leads(l, n, t) by { LeaderIffElected(l, n, v); }
    assert MandateOk(l, t);
    SafeElsewhere(l, full, full, v.commitIndex, v.lastIncludedIndex, t, t);
  }

  lemma LeaderIffElected(l: Ledger, n: NodeId, v: Node)
    requires NodeOk(l, n, v)
    ensures v.role == Leader <==> Leads(l, n, v.currentTerm)
  {
  }

  /** The entries a leader sends are the rest of its term's log. */
  lemma EntriesSendOk(l: Ledger, n: NodeId, v: Node, next: nat)
    requires Inv(l) && NodeOk(l, n, v) && v.role == Leader
    requires v.lastIncludedIndex < next <= |l.members[n].log|
    ensures AppendCallOk(l, n,
      AppendEntriesArgs(v.currentTerm, n, next - 1, v.LogTerm(next - 1), v.LogFrom(next), v.commitIndex))
  {
    hide RoleOk, VoteOk, Agree, Compacts, Safe, Traced;
    var t, full := v.currentTerm, l.members[n].log;
    assert Leads(l, n, t) by { LeaderIffElected(l, n, v); }
    assert MandateOk(l, t);
    assert MemberOk(l, n);
    CompactReads(v, full);
    assert full[next..] == full[next..|full|];
  }

  /** Everything a leader sends is truthful. */
  lemma SendsOk(l: Ledger, n: NodeId, v: Node, p: NodeId)
    requires Inv(l) && NodeOk(l, n, v) && v.role == Leader && p in v.peers
    ensures CallOk(l, Calling(n, Sends(v, p)))
  {
    hide InstallCallOk, AppendCallOk, Inv;
    assert PeerOk(l, v, p, |l.members[n].log|);
    PeerIsOther(v.peers, n, l.ids, p);
    var next := Max(At(v.nextIndex, p), 1);
    if next <= v.lastIncludedIndex {
      SnapshotSendOk(l, n, v);
    } else {
      EntriesSendOk(l, n, v, next);
    }
  }

  lemma BroadcastOk(l: Ledger, n: NodeId, v: Node)
    requires Inv(l) && NodeOk(l, n, v) && v.role == Leader
    ensures forall call :: call in Sent(n, Broadcast(v)) ==> CallOk(l, call)
  {
    hide NodeOk, CallOk, Inv;
    forall call | call in Sent(n, Broadcast(v))
      ensures CallOk(l, call)
    {
      var o :| o in Broadcast(v) && call == Calling(n, o);
      var i :| 0 <= i < |v.peers| && o == Sends(v, v.peers[i]);
      SendsOk(l, n, v, v.peers[i]);
    }
  }

  // ----- standing and winning ---------------------------------------------

  lemma LogBelow(l: Ledger, n: NodeId, t: nat)
    requires Inv(l) && n in l.members && t > l.members[n].term
    ensures n in l.ids && |l.members[n].log| > 0 && LastTerm(l.members[n].log) < t
  {
    assert MemberOk(l, n);
  }

  lemma NominateMoves(l: Ledger, n: NodeId)
    requires Inv(l) && n in l.ids && n in l.members && l.members[n].term > 0
    requires Slot(n, l.members[n].term) !in l.candidacies
    requires |l.members[n].log| > 0 && LastTerm(l.members[n].log) < l.members[n].term
    ensures Inv(Nominate(l, n)) && MovesOnly(l, Nominate(l, n), n)
  {
    NominatePreserves(l, n);
  }

  lemma CastMoves(l: Ledger, n: NodeId, c: NodeId)
    requires Inv(l) && n in l.ids && n in l.members
    requires Slot(n, l.members[n].term) !in l.ballots
    requires Slot(c, l.members[n].term) in l.candidacies
    requires var k := l.candidacies[Slot(c, l.members[n].term)];
      |k| > 0 && |l.members[n].log| > 0 && UpToDate(k, l.members[n].log)
    ensures Inv(Cast(l, n, c)) && MovesOnly(l, Cast(l, n, c), n)
  {
    CastPreserves(l, n, c);
  }

  lemma NominatedMoves(l: Ledger, n: NodeId)
    requires Inv(l) && n in l.members
    ensures var l' := Nominated(l, n); var t := l.members[n].term + 1;
      && Inv(l') && MovesOnly(l, l', n)
      && n in l'.members && l'.members[n] == Member(t, l.members[n].log)
      && Slot(n, t) in l'.candidacies && l'.candidacies[Slot(n, t)] == l.members[n].log
      && Slot(n, t) in l'.ballots && l'.ballots[Slot(n, t)].candidate == n
      && l'.elected == l.elected && l'.acked == l.acked
  {
    hide Inv, MovesOnly;
    var t := l.members[n].term + 1;
    FutureIsBlank(l, n, t);
    LogBelow(l, n, t);
    var r := Raise(l, n, t);
    RaisedMoves(l, n, t);
    NominateMoves(r, n);
    CastMoves(Nominate(r, n), n, n);
    MovesOnlyTransitive(l, r, Nominate(r, n), n);
    MovesOnlyTransitive(l, Nominate(r, n), Nominated(l, n), n);
  }

  /** The node's fields after it stood, against the history that nominated it. */
  lemma StandNode(l: Ledger, l': Ledger, n: NodeId, v: Node)
    requires NodeOk(l, n, v) && n != NOBODY && MovesOnly(l, l', n)
    requires var t := v.currentTerm + 1;
      && n in l'.members && l'.members[n] == Member(t, l.members[n].log) && !Leads(l', n, t)
      && Slot(n, t) in l'.candidacies && l'.candidacies[Slot(n, t)] == l.members[n].log
      && Slot(n, t) in l'.ballots && l'.ballots[Slot(n, t)].candidate == n
    ensures NodeOk(l', n, Stand(v))
  {
    hide Safe, Compact;
    SafeGrows(l, l', l.members[n].log, v.commitIndex, v.currentTerm, v.currentTerm + 1);
  }

  /** Each vote request quotes the log the candidate stands on. */
  lemma VoteRequestOk(l: Ledger, n: NodeId, v: Node)
    requires Inv(l) && NodeOk(l, n, v) && v.role == Candidate && v.Valid()
    ensures forall call :: call in Canvass(v, 0, VoteRequest(v)) ==> CallOk(l, call)
  {
    hide Safe, Compact;
    assert MemberOk(l, n);
    CompactReads(v, l.members[n].log);
    forall p | p in v.peers ensures p in l.ids && p != n { PeerIsOther(v.peers, n, l.ids, p); }
  }

  lemma StandOk(l: Ledger, n: NodeId, v: Node)
    requires Inv(l) && NodeOk(l, n, v) && n != NOBODY && v.Valid()
    ensures Inv(Nominated(l, n)) && MovesOnly(l, Nominated(l, n), n)
    ensures NodeOk(Nominated(l, n), n, Stand(v))
    ensures Nominated(l, n).members[n].log == l.members[n].log
    ensures forall call :: call in Canvass(Stand(v), 0, VoteRequest(Stand(v))) ==> CallOk(Nominated(l, n), call)
  {
    hide Inv, MovesOnly, NodeOk, CallOk, Nominated;
    InLedger(l, n, v);
    NominatedMoves(l, n);
    FutureIsBlank(l, n, v.currentTerm + 1);
    StandNode(l, Nominated(l, n), n, v);
    VoteRequestOk(Nominated(l, n), n, Stand(v));
  }

  lemma InLedger(l: Ledger, n: NodeId, v: Node)
    requires NodeOk(l, n, v)
    ensures n in l.members && n in l.ids && v.currentTerm == l.members[n].term && v.id == n
  {
  }

  /** The first to win its term: a second winner would share a voter, and that voter has one vote. */
  lemma FirstToWin(l: Ledger, n: NodeId, v: Node, voters: set<NodeId>)
    requires Inv(l) && NodeOk(l, n, v) && v.role == Candidate
    requires Majority(voters, l.ids) && VotedFor(l, voters, v.currentTerm, n)
    ensures CanElect(l, n, voters)
  {
    hide Inv, Safe, Compacts;
    if v.currentTerm in l.elected {
      ElectionSafety(l, v.currentTerm, n, voters);
      assert false;
    }
  }

  lemma ElectMoves(l: Ledger, n: NodeId, voters: set<NodeId>)
    requires Inv(l) && CanElect(l, n, voters)
    ensures |l.members[n].log| > 0 && Won(l, n, voters) == Elect(l, n, voters)
    ensures Inv(Won(l, n, voters)) && MovesOnly(l, Won(l, n, voters), n)
    ensures Won(l, n, voters).members == l.members && Won(l, n, voters).ballots == l.ballots
    ensures Leads(Won(l, n, voters), n, l.members[n].term)
    ensures Slot(n, l.members[n].term) in Won(l, n, voters).acked
    ensures Won(l, n, voters).acked[Slot(n, l.members[n].term)] == |l.members[n].log| - 1
  {
    ElectPreserves(l, n, voters);
    ElectGrows(l, n, voters);
  }

  lemma LeadNode(l: Ledger, l': Ledger, n: NodeId, v: Node)
    requires NodeOk(l, n, v) && v.Valid() && MovesOnly(l, l', n) && l'.members == l.members && l'.ballots == l.ballots
    requires v.LastLogIndex() == |l.members[n].log| - 1
    requires Leads(l', n, v.currentTerm)
    requires Slot(n, v.currentTerm) in l'.acked && l'.acked[Slot(n, v.currentTerm)] == |l.members[n].log| - 1
    ensures NodeOk(l', n, Lead(v))
  {
    hide Safe, Compact;
    SafeGrows(l, l', l.members[n].log, v.commitIndex, v.currentTerm, v.currentTerm);
    forall p | p in v.peers ensures PeerOk(l', Lead(v), p, |l.members[n].log|) { }
  }

  lemma LastIndex(l: Ledger, n: NodeId, v: Node)
    requires Inv(l) && NodeOk(l, n, v)
    ensures v.Valid() && v.LastLogIndex() == |l.members[n].log| - 1
  {
    hide Safe;
    assert MemberOk(l, n);
    CompactReads(v, l.members[n].log);
  }

  /** A candidate backed by a majority of ballots wins its term and leads it. */
  lemma WinOk(l: Ledger, n: NodeId, v: Node, voters: set<NodeId>)
    requires Inv(l) && NodeOk(l, n, v) && v.role == Candidate
    requires Majority(voters, l.ids) && VotedFor(l, voters, v.currentTerm, n)
    ensures |v.log| > 0 && Inv(Won(l, n, voters)) && MovesOnly(l, Won(l, n, voters), n)
    ensures NodeOk(Won(l, n, voters), n, Lead(v))
    ensures Won(l, n, voters).members == l.members
  {
    hide Inv, MovesOnly, NodeOk, Won, CanElect, Leads;
    InLedger(l, n, v);
    FirstToWin(l, n, v, voters);
    ElectMoves(l, n, voters);
    LastIndex(l, n, v);
    LeadNode(l, Won(l, n, voters), n, v);
  }

  // ----- steps ------------------------------------------------------------

  lemma KnownNode(c: Cluster, n: NodeId)
    requires SystemInv(c) && n in c.nodes
    ensures NodeHolds(c, n) && NodeOk(c.ledger, n, c.nodes[n]) && n != NOBODY && n in c.ledger.ids
  {
    assert NodeHolds(c, n);
  }

  lemma CanvassOk(l: Ledger, n: NodeId, v: Node, round: nat)
    requires Inv(l) && NodeOk(l, n, v)
    ensures forall call :: call in Canvass(v, round, PreVoteRequest(v)) ==> CallOk(l, call)
  {
    assert MemberOk(l, n);
    CompactReads(v, l.members[n].log);
    forall p | p in v.peers ensures p in l.ids && p != n { PeerIsOther(v.peers, n, l.ids, p); }
  }

  lemma CampaignPreserves(c: Cluster, n: NodeId)
    requires SystemInv(c) && Known(c, n)
    ensures SystemInv(Campaign(c, n)) && Grows(c.ledger, Campaign(c, n).ledger)
  {
    hide NodeOk, Inv, CallOk, MovesOnly, Nominated;
    KnownNode(c, n);
    var u := c.nodes[n];
    var v := Stand(u);
    StandOk(c.ledger, n, u);
    var l := Nominated(c.ledger, n);
    var s := Slot(n, v.currentTerm);
    CampaignFacts(c.ledger, n, u);
    if 1 >= v.Quorum() {
      AloneWins(l, n, v);
      WinOk(l, n, v, {n});
      var l' := Won(l, n, {n});
      BroadcastOk(l', n, Lead(v));
      MovesOnlyTransitive(c.ledger, l, l', n);
      TallyStarts(l', s);
      QuietMove(c, Campaign(c, n), Lead(v));
    } else {
      TallyStarts(l, s);
      QuietMove(c, Campaign(c, n), v);
    }
  }

  lemma CampaignFacts(l: Ledger, n: NodeId, u: Node)
    requires Inv(l) && NodeOk(l, n, u)
    ensures u.id == n && n in l.members && n in Nominated(l, n).members
    ensures u.currentTerm == l.members[n].term && Nominated(l, n).ids == l.ids
    ensures Slot(n, u.currentTerm + 1) in Nominated(l, n).ballots
    ensures Nominated(l, n).ballots[Slot(n, u.currentTerm + 1)].candidate == n
  {
    NominatedMoves(l, n);
  }

  lemma TallyStarts(l: Ledger, s: Slot)
    ensures TallyOk(l, s, Tally(1, {}, {}))
  {
  }

  /** A cluster of one is its own majority. */
  lemma AloneWins(l: Ledger, n: NodeId, v: Node)
    requires Inv(l) && NodeOk(l, n, v) && v.role == Candidate && 1 >= v.Quorum() && n != NOBODY
    ensures Majority({n}, l.ids) && VotedFor(l, {n}, v.currentTerm, n)
  {
    ClusterSize(v.peers, n, l.ids);
  }

  lemma DistinctSize(peers: seq<NodeId>)
    requires forall i, j :: 0 <= i < j < |peers| ==> peers[i] != peers[j]
    ensures |set p | p in peers| == |peers|
  {
    if peers != [] {
      var front, last := peers[..|peers| - 1], peers[|peers| - 1];
      DistinctSize(front);
      assert (set p | p in peers) == (set p | p in front) + {last};
    }
  }

  lemma ClusterSize(peers: seq<NodeId>, n: NodeId, ids: set<NodeId>)
    requires PeersOk(peers, n, ids) && n in ids
    ensures |ids| == |peers| + 1
  {
    DistinctSize(peers);
    assert ids == (ids - {n}) + {n};
  }

  lemma StartPreVotePreserves(c: Cluster, n: NodeId)
    requires SystemInv(c) && Enabled(c, StartPreVote(n))
    ensures SystemInv(After(c, StartPreVote(n))) && Grows(c.ledger, After(c, StartPreVote(n)).ledger)
  {
    hide NodeOk, Inv, CallOk, Campaign;
    KnownNode(c, n);
    var v := c.nodes[n];
    if 1 >= v.Quorum() {
      CampaignPreserves(c, n);
    } else {
      CanvassOk(c.ledger, n, v, c.rounds[n] + 1);
      SelfMove(c.ledger, n, v);
      QuietMove(c, StartedPreVote(c, n), v);
    }
  }

  lemma SelfMove(l: Ledger, n: NodeId, v: Node)
    requires NodeOk(l, n, v)
    ensures MovesOnly(l, l, n) && n in l.members && v.id == n
  {
  }

  lemma HearPreVotePreserves(c: Cluster, a: Answer)
    requires SystemInv(c) && Enabled(c, HearPreVote(a))
    ensures SystemInv(After(c, HearPreVote(a))) && Grows(c.ledger, After(c, HearPreVote(a)).ledger)
  {
    hide NodeOk, Inv, CallOk, AnswerOk, MovesOnly, Raised;
    var n := a.call.from;
    KnownNode(c, n);
    SelfMove(c.ledger, n, c.nodes[n]);
    ObserveOk(c.ledger, n, c.nodes[n], a.reply.vote.term);
    SelfMove(Raised(c.ledger, n, a.reply.vote.term), n, Observe(c.nodes[n], a.reply.vote.term));
    QuietMove(c, HeardPreVote(c, a), Observe(c.nodes[n], a.reply.vote.term));
  }

  lemma FinishPreVotePreserves(c: Cluster, n: NodeId)
    requires SystemInv(c) && Enabled(c, FinishPreVote(n))
    ensures SystemInv(After(c, FinishPreVote(n))) && Grows(c.ledger, After(c, FinishPreVote(n)).ledger)
  {
    hide NodeOk, Inv, CallOk, AnswerOk, TallyOk, DeliveryOk, Campaign;
    var d := c.(loops := c.loops[n := Waiting]);
    assert SystemInv(d) by {
      forall p | p in d.ledger.ids ensures NodeHolds(d, p) { assert NodeHolds(c, p); }
      forall s | s in d.elections ensures ElectionHolds(d, s) { assert ElectionHolds(c, s); }
    }
    if After(c, FinishPreVote(n)) != d { CampaignPreserves(d, n); }
  }

  lemma CountPreVotePreserves(c: Cluster, s: Slot, p: NodeId)
    requires SystemInv(c) && s in c.polls
    ensures SystemInv(CountedPreVote(c, s, p)) && Grows(c.ledger, CountedPreVote(c, s, p).ledger)
  {
    hide NodeOk, Inv, CallOk, AnswerOk, TallyOk, DeliveryOk;
    var d := CountedPreVote(c, s, p);
    forall q | q in d.ledger.ids ensures NodeHolds(d, q) { assert NodeHolds(c, q); }
    forall e | e in d.elections ensures ElectionHolds(d, e) { assert ElectionHolds(c, e); }
  }

  // ----- voting -----------------------------------------------------------

  lemma GrantUpToDate(l: Ledger, n: NodeId, v: Node, from: NodeId, args: RequestVoteArgs)
    requires Inv(l) && NodeOk(l, n, v) && VoteCallOk(l, from, args) && !args.isPreVote
    requires args.term == v.currentTerm && |v.log| > 0 && Grants(v, args, false)
    ensures n in l.ids && n in l.members && l.members[n].term == v.currentTerm
    ensures Slot(from, v.currentTerm) in l.candidacies && |l.members[n].log| > 0
    ensures var k := l.candidacies[Slot(from, v.currentTerm)]; |k| > 0 && UpToDate(k, l.members[n].log)
  {
    hide Safe, Compacts, RoleOk, VoteOk, Traced;
    assert MemberOk(l, n);
    CompactReads(v, l.members[n].log);
  }

  /** The node with its vote recorded, against the history with the ballot in it. */
  lemma BallotNode(l: Ledger, l': Ledger, n: NodeId, v: Node, from: NodeId)
    requires NodeOk(l, n, v) && from != NOBODY && MovesOnly(l, l', n) && l'.members == l.members
    requires l'.elected == l.elected && l'.acked == l.acked && l'.candidacies == l.candidacies
    requires Slot(n, v.currentTerm) in l'.ballots && l'.ballots[Slot(n, v.currentTerm)].candidate == from
    requires v.votedFor == NOBODY || v.votedFor == from
    requires v.role == Candidate ==> v.votedFor == from
    ensures NodeOk(l', n, v.(votedFor := from))
  {
    hide Safe, Compact;
    SafeGrows(l, l', l.members[n].log, v.commitIndex, v.currentTerm, v.currentTerm);
    if v.role == Leader {
      forall p | p in v.peers
        ensures PeerOk(l', v.(votedFor := from), p, |l.members[n].log|)
      {
        assert PeerOk(l, v, p, |l.members[n].log|);
      }
    }
  }

  /** Granting a real vote: the ballot is cast once, for an up-to-date candidate (sections 5.2 and 5.4.1). */
  lemma GrantOk(l: Ledger, n: NodeId, v: Node, from: NodeId, args: RequestVoteArgs)
    requires Inv(l) && NodeOk(l, n, v) && VoteCallOk(l, from, args) && !args.isPreVote
    requires from != n && from != NOBODY && n != NOBODY && args.term == v.currentTerm
    requires |v.log| > 0 && Grants(v, args, false)
    ensures Inv(Balloted(l, n, from)) && MovesOnly(l, Balloted(l, n, from), n)
    ensures NodeOk(Balloted(l, n, from), n, v.(votedFor := from))
    ensures Balloted(l, n, from).members == l.members
    ensures var s := Slot(n, args.term);
      s in Balloted(l, n, from).ballots && Balloted(l, n, from).ballots[s].candidate == from
  {
    hide NodeOk, Inv, MovesOnly, LogUpToDate;
    GrantUpToDate(l, n, v, from, args);
    VoteOpen(l, n, v, from);
    if v.votedFor == NOBODY {
      CastMoves(l, n, from);
    } else {
      SelfMove(l, n, v);
    }
    BallotNode(l, Balloted(l, n, from), n, v, from);
  }

  /** The node's vote of this term is free, or is the candidate's already; a candidate's is its own. */
  lemma VoteOpen(l: Ledger, n: NodeId, v: Node, from: NodeId)
    requires NodeOk(l, n, v) && n != NOBODY && (v.votedFor == NOBODY || v.votedFor == from)
    ensures v.votedFor == NOBODY ==> Slot(n, v.currentTerm) !in l.ballots
    ensures v.votedFor != NOBODY ==>
      Slot(n, v.currentTerm) in l.ballots && l.ballots[Slot(n, v.currentTerm)].candidate == from
    ensures v.role == Candidate ==> v.votedFor == from
  {
  }

  /** The whole handler: step down if the term is new, then vote or refuse. */
  lemma RequestVoteOk(l: Ledger, n: NodeId, v: Node, call: Call, heardLately: bool)
    requires Inv(l) && NodeOk(l, n, v) && CallOk(l, call) && call.request.Vote? && call.to == n && |v.log| > 0
    requires call.from != NOBODY && n != NOBODY
    ensures var args := call.request.vote; var (v', reply) := OnRequestVote(v, args, heardLately);
      var m := if args.isPreVote then l else Raised(l, n, args.term);
      var l' := if reply.voteGranted && !args.isPreVote then Balloted(m, n, args.candidateID) else m;
      && Inv(l') && MovesOnly(l, l', n) && NodeOk(l', n, v')
      && n in l.members && n in l'.members && l'.members[n].log == l.members[n].log
      && v'.lastApplied == v.lastApplied && v'.lastIncludedIndex == v.lastIncludedIndex
      && (v'.role == Candidate ==> v.role == Candidate && v.currentTerm == v'.currentTerm)
      && VotedOk(l', call, reply)
  {
    hide NodeOk, Inv, MovesOnly, Raised, Balloted, VoteCallOk;
    var args := call.request.vote;
    SelfMove(l, n, v);
    if args.isPreVote {
      NodeTerm(l, n, v);
    } else {
      var m := Raised(l, n, args.term);
      var w := Observe(v, args.term);
      ObserveOk(l, n, v, args.term);
      NodeTerm(m, n, w);
      assert VoteCallOk(m, call.from, args) && args.candidateID == call.from by {
        MovesGrow(l, m, n);
        CallGrows(l, m, call);
        CandidateIsCaller(l, call);
      }
      if Grants(w, args, heardLately) {
        GrantOk(m, n, w, call.from, args);
        MovesOnlyTransitive(l, m, Balloted(m, n, call.from), n);
      }
    }
  }

  lemma MovesGrow(l: Ledger, l': Ledger, n: NodeId)
    requires MovesOnly(l, l', n)
    ensures Grows(l, l')
  {
  }

  lemma CandidateIsCaller(l: Ledger, call: Call)
    requires CallOk(l, call) && call.request.Vote?
    ensures call.request.vote.candidateID == call.from && VoteCallOk(l, call.from, call.request.vote)
  {
  }

  lemma NodeTerm(l: Ledger, n: NodeId, v: Node)
    requires NodeOk(l, n, v)
    ensures n in l.members && v.currentTerm == l.members[n].term && v.id == n && |v.log| > 0
  {
  }

  lemma AnswerVotePreserves(c: Cluster, call: Call, heardLately: bool)
    requires SystemInv(c) && Enabled(c, AnswerVote(call, heardLately))
    ensures SystemInv(After(c, AnswerVote(call, heardLately)))
    ensures Grows(c.ledger, After(c, AnswerVote(call, heardLately)).ledger)
  {
    hide NodeOk, Inv, CallOk, MovesOnly, Raised, Balloted, VotedOk, OnRequestVote;
    var n := call.to;
    KnownNode(c, n);
    assert CallOk(c.ledger, call);
    CallerKnown(c, call);
    var v := c.nodes[n];
    RequestVoteOk(c.ledger, n, v, call, heardLately);
    var c' := AnsweredVote(c, call, heardLately);
    var (v', reply) := OnRequestVote(v, call.request.vote, heardLately);
    NodeTerm(c'.ledger, n, v');
    MovesGrow(c.ledger, c'.ledger, n);
    CallGrows(c.ledger, c'.ledger, call);
    QuietMove(c, c', v');
  }

  lemma CallerKnown(c: Cluster, call: Call)
    requires SystemInv(c) && CallOk(c.ledger, call)
    ensures call.from != NOBODY && call.from != call.to
  {
  }

  // ----- counting ---------------------------------------------------------

  lemma CountedTally(l: Ledger, a: Answer, s: Slot, t: Tally)
    requires TallyOk(l, s, t) && a.call.to !in t.heard && a.call.from != a.call.to
    requires a.reply.Voted? && a.call.request.Vote? && s == Slot(a.call.from, a.call.request.vote.term)
    requires VotedOk(l, a.call, a.reply.vote) && !a.call.request.vote.isPreVote
    ensures TallyOk(l, s, t.(heard := t.heard + {a.call.to}))
    ensures a.reply.vote.voteGranted ==>
      TallyOk(l, s, Tally(t.votes + 1, t.heard + {a.call.to}, t.granted + {a.call.to}))
  {
  }

  /** A tally that reaches the quorum is a majority of ballots. */
  lemma TallyWins(l: Ledger, n: NodeId, v: Node, t: Tally)
    requires Inv(l) && NodeOk(l, n, v) && v.role == Candidate && n != NOBODY
    requires TallyOk(l, Slot(n, v.currentTerm), t) && t.votes >= v.Quorum()
    ensures Majority(t.granted + {n}, l.ids) && VotedFor(l, t.granted + {n}, v.currentTerm, n)
  {
    ClusterSize(v.peers, n, l.ids);
    assert |t.granted + {n}| == |t.granted| + 1;
    forall g | g in t.granted ensures g in l.ids {
      assert BallotOk(l, Slot(g, v.currentTerm));
    }
  }

  lemma AnswerParts(l: Ledger, a: Answer)
    requires AnswerOk(l, a)
    ensures CallOk(l, a.call) && a.call.from != a.call.to
    ensures a.reply.Voted? ==> VotedOk(l, a.call, a.reply.vote)
    ensures a.reply.Appended? ==> AppendedOk(l, a.call, a.reply.append)
    ensures a.reply.Installed? ==> InstalledOk(l, a.call, a.reply.install)
  {
  }

  /** The vote that completes a quorum makes its reader leader. */
  lemma QuorumHeard(c: Cluster, a: Answer)
    requires SystemInv(c) && Enabled(c, HearVote(a)) && a.reply.vote.voteGranted
    requires var v := c.nodes[a.call.from]; var s := Slot(a.call.from, a.call.request.vote.term);
      && a.reply.vote.term <= v.currentTerm && v.role == Candidate && v.currentTerm == s.term
      && c.elections[s].votes + 1 >= v.Quorum()
      && TallyOk(c.ledger, s, Tally(c.elections[s].votes + 1, c.elections[s].heard + {a.call.to},
                                    c.elections[s].granted + {a.call.to}))
    ensures SystemInv(HeardVote(c, a)) && Grows(c.ledger, HeardVote(c, a).ledger)
  {
    hide NodeOk, Inv, CallOk, AnswerOk, MovesOnly, TallyOk, Won, Broadcast, Filled, Grows, DeliveryOk;
    var n := a.call.from;
    var s := Slot(n, a.call.request.vote.term);
    KnownNode(c, n);
    var v := c.nodes[n];
    var c' := HeardVote(c, a);
    var t' := c'.elections[s];
    NodeTerm(c.ledger, n, v);
    TallyWins(c.ledger, n, v, t');
    WinOk(c.ledger, n, v, t'.granted + {n});
    BroadcastOk(c'.ledger, n, Lead(v));
    MovesGrow(c.ledger, c'.ledger, n);
    TallyGrows(c.ledger, c'.ledger, s, t');
    QuietMove(c, c', Lead(v));
  }

  lemma HearVotePreserves(c: Cluster, a: Answer)
    requires SystemInv(c) && Enabled(c, HearVote(a))
    ensures SystemInv(After(c, HearVote(a))) && Grows(c.ledger, After(c, HearVote(a)).ledger)
  {
    hide NodeOk, Inv, CallOk, AnswerOk, MovesOnly, Raised, TallyOk, VotedOk, Won, Broadcast, Lead, Grows, DeliveryOk,
         BecomeLeader;
    var n, reply := a.call.from, a.reply.vote;
    var s := Slot(n, a.call.request.vote.term);
    KnownNode(c, n);
    assert AnswerOk(c.ledger, a) && ElectionHolds(c, s);
    AnswerParts(c.ledger, a);
    var v := c.nodes[n];
    var t := c.elections[s];
    CountedTally(c.ledger, a, s, t);
    if v.role == Candidate && v.currentTerm == s.term && reply.voteGranted && t.votes + 1 >= v.Quorum()
       && reply.term <= v.currentTerm {
      QuorumHeard(c, a);
    } else {
      QuietlyHeard(c, a);
    }
  }

  /** An answer that makes no leader. */
  lemma QuietlyHeard(c: Cluster, a: Answer)
    requires SystemInv(c) && Enabled(c, HearVote(a))
    requires var v, s, reply := c.nodes[a.call.from], Slot(a.call.from, a.call.request.vote.term), a.reply.vote;
      !(v.role == Candidate && v.currentTerm == s.term && reply.voteGranted && c.elections[s].votes + 1 >= v.Quorum()
        && reply.term <= v.currentTerm)
    ensures SystemInv(HeardVote(c, a)) && Grows(c.ledger, HeardVote(c, a).ledger)
  {
    hide NodeOk, Inv, CallOk, AnswerOk, MovesOnly, Raised, TallyOk, VotedOk, Won, Broadcast, Lead, Grows, DeliveryOk,
         BecomeLeader;
    var n, reply := a.call.from, a.reply.vote;
    var s := Slot(n, a.call.request.vote.term);
    KnownNode(c, n);
    assert AnswerOk(c.ledger, a) && ElectionHolds(c, s);
    AnswerParts(c.ledger, a);
    var v := c.nodes[n];
    CountedTally(c.ledger, a, s, c.elections[s]);
    SelfMove(c.ledger, n, v);
    if reply.term > v.currentTerm {
      HeardHigher(c, a);
    } else {
      QuietMove(c, HeardVote(c, a), v);
    }
  }

  /** An answer from a later term. */
  lemma HeardHigher(c: Cluster, a: Answer)
    requires SystemInv(c) && Enabled(c, HearVote(a)) && a.reply.vote.term > c.nodes[a.call.from].currentTerm
    requires var s := Slot(a.call.from, a.call.request.vote.term);
      TallyOk(c.ledger, s, c.elections[s].(heard := c.elections[s].heard + {a.call.to}))
    ensures SystemInv(HeardVote(c, a)) && Grows(c.ledger, HeardVote(c, a).ledger)
  {
    hide NodeOk, Inv, CallOk, AnswerOk, MovesOnly, Raised, TallyOk, VotedOk, Won, Broadcast, Lead, Grows, DeliveryOk,
         BecomeLeader;
    var n, reply := a.call.from, a.reply.vote;
    var s := Slot(n, a.call.request.vote.term);
    KnownNode(c, n);
    var v, c' := c.nodes[n], HeardVote(c, a);
    ObserveOk(c.ledger, n, v, reply.term);
    NodeTerm(c'.ledger, n, StepDown(v, reply.term));
    MovesGrow(c.ledger, c'.ledger, n);
    TallyGrows(c.ledger, c'.ledger, s, c'.elections[s]);
    QuietMove(c, c', StepDown(v, reply.term));
  }
}
