/** What the cluster does over every run: who sends what, who is granted, who wins, and what gets committed. */
module RaftConductRuns {
  import opened RaftTypes
  import opened RaftLedger
  import opened RaftHandlers
  import opened RaftCompaction
  import opened RaftCluster
  import opened RaftInvariant
  import opened RaftElections
  import opened RaftReplication
  import opened RaftRuns
  import opened RaftSafety
  import opened RaftMonotone
  import opened RaftIsolation
  import opened RaftConduct

  // ----- where a call comes from ------------------------------------------

  /** The step to c' is what sends the call: a poll opening, a poll carried, or a leader writing to one of its peers. */
  ghost predicate Originates(c: Cluster, step: Step, c': Cluster, call: Call) {
    && call.from in c.nodes && |c.nodes[call.from].log| > 0 && call.from in c'.nodes
    && match call.request
       case Vote(args) =>
         if args.isPreVote then step == StartPreVote(call.from) && args == PreVoteRequest(c.nodes[call.from])
         else step == FinishPreVote(call.from) && args == VoteRequest(Stand(c.nodes[call.from]))
       case _ => Writes(c'.nodes[call.from], call)
  }

  ghost predicate Writes(v: Node, call: Call) {
    v.role == Leader && call.to in v.peers && call == Calling(v.id, Sends(v, call.to))
  }

  lemma BroadcastWrites(v: Node, call: Call)
    requires v.role == Leader && call in Sent(v.id, Broadcast(v))
    ensures Writes(v, call) && call.from == v.id && !call.request.Vote?
  {
  }

  lemma CampaignSends(c: Cluster, n: NodeId, call: Call)
    requires Known(c, n) && call in Campaign(c, n).calls && call !in c.calls
    ensures call.from == n && n in Campaign(c, n).nodes
    ensures match call.request
      case Vote(args) => args == VoteRequest(Stand(c.nodes[n])) && 1 < c.nodes[n].Quorum()
      case _ => Writes(Campaign(c, n).nodes[n], call)
  {
    hide Broadcast, Sends, Nominated, Won, Writes;
    var v := Stand(c.nodes[n]);
    if 1 >= v.Quorum() {
      BroadcastWrites(Lead(v), call);
    }
  }

  lemma StartSends(c: Cluster, n: NodeId, call: Call)
    requires Enabled(c, StartPreVote(n)) && call in StartedPreVote(c, n).calls && call !in c.calls
    ensures Originates(c, StartPreVote(n), StartedPreVote(c, n), call)
  {
    hide Campaign, Writes;
    if 1 >= c.nodes[n].Quorum() {
      CampaignSends(c, n, call);
    }
  }

  lemma FinishSends(c: Cluster, n: NodeId, call: Call)
    requires Enabled(c, FinishPreVote(n)) && call in FinishedPreVote(c, n).calls && call !in c.calls
    ensures Originates(c, FinishPreVote(n), FinishedPreVote(c, n), call)
  {
    hide Campaign, Writes;
    CampaignSends(c.(loops := c.loops[n := Waiting]), n, call);
  }

  lemma LeadSends(c: Cluster, v: Node, voters: set<NodeId>, l: Ledger, call: Call)
    requires |v.log| > 0 && call in BecomeLeader(c, v, voters, l).calls && call !in c.calls
    ensures BecomeLeader(c, v, voters, l).nodes == c.nodes[v.id := Lead(v)]
    ensures Writes(Lead(v), call) && call.from == v.id == Lead(v).id && !call.request.Vote?
  {
    hide Broadcast, Won, Writes;
    BroadcastWrites(Lead(v), call);
  }

  lemma HeardVoteSends(c: Cluster, a: Answer, call: Call)
    requires Enabled(c, HearVote(a)) && call in HeardVote(c, a).calls && call !in c.calls
    ensures Originates(c, HearVote(a), HeardVote(c, a), call)
  {
    hide BecomeLeader, Lead, Raised, Writes, Node.Quorum;
    var s := Slot(a.call.from, a.call.request.vote.term);
    var v, t := c.nodes[a.call.from], c.elections[s];
    var t' := Tally(t.votes + 1, t.heard + {a.call.to}, t.granted + {a.call.to});
    LeadSends(c.(elections := c.elections[s := t']), v, t'.granted + {a.call.from}, c.ledger, call);
  }

  lemma ReplySends(v: Node, p: NodeId, term: nat, r: AppendEntriesReply)
    requires |v.log| > 0
    ensures var (v', out) := OnAppendReply(v, p, term, r);
      v'.id == v.id && (out == [] || (v'.role == Leader && out == Broadcast(v')))
  {
    hide Broadcast, QuorumIndex;
  }

  lemma HeardAppendSends(c: Cluster, a: Answer, call: Call)
    requires Enabled(c, HearAppend(a)) && call in HeardAppend(c, a).calls && call !in c.calls
    ensures Originates(c, HearAppend(a), HeardAppend(c, a), call)
  {
    hide Broadcast, Raised, Writes, OnAppendReply;
    var v, args := c.nodes[a.call.from], a.call.request.append;
    ReplySends(v, a.call.to, args.term, a.reply.append);
    BroadcastWrites(OnAppendReply(v, a.call.to, args.term, a.reply.append).0, call);
  }

  lemma BeatSends(c: Cluster, n: NodeId, call: Call)
    requires Enabled(c, Heartbeat(n)) && call in Beaten(c, n).calls && call !in c.calls
    ensures Originates(c, Heartbeat(n), Beaten(c, n), call)
  {
    hide Broadcast, Writes;
    BroadcastWrites(c.nodes[n], call);
  }

  lemma ProposalSends(c: Cluster, n: NodeId, payload: Payload, call: Call)
    requires Enabled(c, ProposeEntry(n, payload)) && call in ProposedEntry(c, n, payload).calls && call !in c.calls
    ensures Originates(c, ProposeEntry(n, payload), ProposedEntry(c, n, payload), call)
  {
    hide Broadcast, Writes, Extended;
    BroadcastWrites(Proposed(c.nodes[n], payload), call);
  }

  /** A reply, a local step or a handler that only answers sends nothing. */
  lemma OthersSendNothing(c: Cluster, step: Step)
    requires Enabled(c, step)
    requires step.HearPreVote? || step.CountPreVote? || step.AnswerVote? || step.AnswerAppend? || step.AnswerInstall?
      || step.HearInstall? || step.Compaction? || step.Deliver?
    ensures After(c, step).calls == c.calls
  {
    hide OnRequestVote, OnAppendEntries, OnInstallSnapshot, OnInstallReply, OnTakeSnapshot, Applied, Raised, Balloted,
         Accepted, Jumped;
  }

  lemma StepSends(c: Cluster, step: Step, call: Call)
    requires Enabled(c, step) && call in After(c, step).calls && call !in c.calls
    ensures Originates(c, step, After(c, step), call)
  {
    hide Enabled, Originates, StartedPreVote, FinishedPreVote, HeardVote, Beaten, HeardAppend, ProposedEntry;
    match step
    case StartPreVote(n) => StartSends(c, n, call);
    case FinishPreVote(n) => FinishSends(c, n, call);
    case HearVote(a) => HeardVoteSends(c, a, call);
    case Heartbeat(n) => BeatSends(c, n, call);
    case HearAppend(a) => HeardAppendSends(c, a, call);
    case ProposeEntry(n, payload) => ProposalSends(c, n, payload, call);
    case _ => OthersSendNothing(c, step);
  }

  ghost predicate SentAt(cs: seq<Cluster>, j: nat, step: Step, call: Call)
    requires j + 1 < |cs|
  {
    && Enabled(cs[j], step) && cs[j + 1] == After(cs[j], step) && call !in cs[j].calls && call in cs[j + 1].calls
    && Originates(cs[j], step, cs[j + 1], call)
  }

  /** Every call in flight was sent by a step of the run. */
  lemma {:induction false} CallOrigin(cs: seq<Cluster>, i: nat, call: Call) returns (j: nat, step: Step)
    requires Run(cs) && i < |cs| && call in cs[i].calls
    ensures j < i && SentAt(cs, j, step, call)
    decreases i
  {
    hide After, Enabled, Originates;
    assert i > 0;
    if call in cs[i - 1].calls {
      j, step := CallOrigin(cs, i - 1, call);
    } else {
      j := i - 1;
      assert Next(cs[j], cs[j + 1]);
      step :| Enabled(cs[j], step) && cs[i] == After(cs[j], step);
      StepSends(cs[j], step, call);
    }
  }

  // ----- votes ------------------------------------------------------------

  lemma NodeReads(cs: seq<Cluster>, i: nat, n: NodeId)
    requires Run(cs) && i < |cs| && n in cs[i].nodes
    ensures var v := cs[i].nodes[n];
      && v.id == n && v.Valid() && |FullLog(cs[i], n)| > 0
      && Compacts(v, FullLog(cs[i], n)) && Shaped(FullLog(cs[i], n), v.currentTerm)
  {
    hide NodeOk, SystemInv, Inv, Run, Compacts, Shaped, Traced, Safe;
    RunNode(cs, i, n);
    NodeParts(cs[i].ledger, n, cs[i].nodes[n]);
    CompactReads(cs[i].nodes[n], FullLog(cs[i], n));
  }

  /** A poll and a request for votes ask for the term after the sender's, and quote the last index and the last term of
      the whole log it had when the poll opened, or when it stood. */
  lemma RequestQuotes(cs: seq<Cluster>, i: nat, call: Call) returns (j: nat)
    requires Run(cs) && i < |cs| && call in cs[i].calls && call.request.Vote?
    ensures j < i && call !in cs[j].calls && call in cs[j + 1].calls && call.from in cs[j].nodes
    ensures var step := if call.request.vote.isPreVote then StartPreVote(call.from) else FinishPreVote(call.from);
      Enabled(cs[j], step) && cs[j + 1] == After(cs[j], step)
    ensures call.request.vote.term == cs[j].nodes[call.from].currentTerm + 1
    ensures call.request.vote.candidateID == call.from
    ensures Describes(call.request.vote, FullLog(cs[j], call.from))
  {
    hide Run, After, Enabled, Compacts, Shaped;
    var step;
    j, step := CallOrigin(cs, i, call);
    NodeReads(cs, j, call.from);
    CompactReads(cs[j].nodes[call.from], FullLog(cs[j], call.from));
  }

  /** Exactly when a poll or a request for votes is granted, wherever in the run it arrives: by the log its sender had
      and the log its receiver has. */
  lemma RequestGranted(cs: seq<Cluster>, i: nat, call: Call, heardLately: bool) returns (j: nat)
    requires Run(cs) && i < |cs| && Enabled(cs[i], AnswerVote(call, heardLately))
    ensures j < i && call !in cs[j].calls && call in cs[j + 1].calls && call.from in cs[j].nodes
    ensures |FullLog(cs[j], call.from)| > 0 && |FullLog(cs[i], call.to)| > 0
    ensures var v, args := cs[i].nodes[call.to], call.request.vote;
      OnRequestVote(v, args, heardLately).1.voteGranted
      <==> args.term >= v.currentTerm
           && (if args.isPreVote then !heardLately || v.leaderID == NOBODY
               else args.term > v.currentTerm || v.votedFor == NOBODY || v.votedFor == call.from)
           && UpToDate(FullLog(cs[j], call.from), FullLog(cs[i], call.to))
  {
    hide Run, After, Compacts, Shaped, OnRequestVote, UpToDate;
    j := RequestQuotes(cs, i, call);
    NodeReads(cs, i, call.to);
    GrantsIff(cs[i].nodes[call.to], FullLog(cs[i], call.to), FullLog(cs[j], call.from), call.request.vote, heardLately);
  }

  // ----- replication ------------------------------------------------------

  /** An AppendEntries in flight is a leader's: it quotes its sender's whole log from the receiver's next index on, and
      the sender's commit index, as they were when it was sent. A snapshot in flight is the sender's own. */
  lemma WritesQuote(cs: seq<Cluster>, i: nat, call: Call) returns (j: nat)
    requires Run(cs) && i < |cs| && call in cs[i].calls && !call.request.Vote?
    ensures 0 < j <= i && call in cs[j].calls && call !in cs[j - 1].calls
    ensures call.from in cs[j].nodes && cs[j].nodes[call.from].role == Leader
    ensures var v, full := cs[j].nodes[call.from], FullLog(cs[j], call.from);
      var next := if At(v.nextIndex, call.to) == 0 then 1 else At(v.nextIndex, call.to);
      match call.request
      case Install(args) =>
        && next <= v.lastIncludedIndex < |full|
        && args == InstallSnapshotArgs(v.currentTerm, call.from, v.lastIncludedIndex, full[v.lastIncludedIndex].term,
                                       v.lastSnapshotData)
      case Append(args) =>
        && v.lastIncludedIndex < next <= |full|
        && args == AppendEntriesArgs(v.currentTerm, call.from, next - 1, full[next - 1].term, full[next..],
                                     v.commitIndex)
      case Vote(args) => true
  {
    hide Run, After, Enabled, Compacts, Shaped, Sends;
    var k, step := CallOrigin(cs, i, call);
    j := k + 1;
    NodeReads(cs, j, call.from);
    LeaderPictureTruthful(cs, j, call.from, call.to);
    SendsQuotes(cs[j].nodes[call.from], FullLog(cs[j], call.from), call.to);
    assert Shaped(FullLog(cs[j], call.from), cs[j].nodes[call.from].currentTerm);
  }

  /** A call that is answered with success brings the receiver's commit index to the sender's, unless it is there
      already; one that is refused leaves it. Over runs it never falls. */
  lemma CommitFollows(cs: seq<Cluster>, i: nat, call: Call) returns (j: nat)
    requires Run(cs) && i < |cs| && Enabled(cs[i], AnswerAppend(call))
    ensures 0 < j <= i && call.from in cs[j].nodes && cs[j].nodes[call.from].role == Leader
    ensures var (v', r) := OnAppendEntries(cs[i].nodes[call.to], call.request.append);
      var mine, leaders := cs[i].nodes[call.to].commitIndex, cs[j].nodes[call.from].commitIndex;
      && After(cs[i], AnswerAppend(call)).nodes[call.to] == v'
      && v'.commitIndex == (if r.success && mine < leaders then leaders else mine)
  {
    hide Run, SystemInv, Compacts, Shaped, OnAppendEntries, Raised, Accepted;
    j := WritesQuote(cs, i, call);
    var v, args := cs[i].nodes[call.to], call.request.append;
    NodeReads(cs, i, call.to);
    AppendOutcome(v, args);
    AppendCommits(v, args);
    RunHolds(cs, i);
    CallReaches(cs[i], call);
    IndexOrdering(cs, i, call.to);
    if Passes(v, args) && args.leaderCommit > v.commitIndex {
      assert VouchedFor(args, args.leaderCommit);
    }
  }

  lemma CallReaches(c: Cluster, call: Call)
    requires SystemInv(c) && call in c.calls && call.request.Append?
    ensures call.request.append.leaderCommit <= call.request.append.prevLogIndex + |call.request.append.entries|
  {
    assert CallOk(c.ledger, call);
  }

  /** The node with the answer recorded, before the commit rule is applied to it. */
  ghost function Recorded(v: Node, p: NodeId, r: AppendEntriesReply): Node {
    v.(nextIndex := v.nextIndex[p := r.matchIndex + 1], matchIndex := v.matchIndex[p := r.matchIndex])
  }

  /** What a leader commits on an answer: the greatest index that a majority of the cluster is recorded as holding,
      which a majority has indeed acknowledged; or nothing, when there is none past its commit index in its term. */
  lemma LeaderCommits(cs: seq<Cluster>, i: nat, a: Answer)
    requires Run(cs) && i < |cs| && Enabled(cs[i], HearAppend(a)) && a.reply.append.success
    requires var v := cs[i].nodes[a.call.from];
      v.role == Leader && v.currentTerm == a.call.request.append.term && a.reply.append.term <= v.currentTerm
    ensures var v := cs[i].nodes[a.call.from]; var w := Recorded(v, a.call.to, a.reply.append);
      var c' := After(cs[i], HearAppend(a));
      && |w.log| > 0 && Everyone(w) == c'.ledger.ids
      && c'.nodes[a.call.from] == w.(commitIndex := c'.nodes[a.call.from].commitIndex)
      && (if exists k: nat :: Carried(w, k) then
            && GreatestCarried(w, c'.nodes[a.call.from].commitIndex)
            && Committed(c'.ledger, v.currentTerm, c'.nodes[a.call.from].commitIndex)
          else c'.nodes[a.call.from].commitIndex == v.commitIndex)
  {
    hide Run, SystemInv, Inv, NodeOk, AnswerOk, CallOk, Majority, Committed, AdvanceCommit, Sent, Carried;
    var n, r := a.call.from, a.reply.append;
    var l, v := cs[i].ledger, cs[i].nodes[n];
    var w := Recorded(v, a.call.to, r);
    RunNode(cs, i, n);
    RecordedOk(cs[i], a);
    NodeParts(l, n, w);
    WholeCluster(l, n, w);
    CommitsGreatest(w);
    if exists k: nat :: Carried(w, k) {
      var k := AdvanceCommit(w).0.commitIndex;
      CarriedCommitted(l, n, w, k);
    }
  }

  lemma RecordedOk(c: Cluster, a: Answer)
    requires SystemInv(c) && Enabled(c, HearAppend(a)) && a.reply.append.success
    requires var v := c.nodes[a.call.from];
      v.role == Leader && v.currentTerm == a.call.request.append.term && a.reply.append.term <= v.currentTerm
    ensures var w := Recorded(c.nodes[a.call.from], a.call.to, a.reply.append);
      Inv(c.ledger) && NodeOk(c.ledger, a.call.from, w)
    ensures Raised(c.ledger, a.call.from, a.reply.append.term) == c.ledger
  {
    hide NodeOk, Inv, CallOk, AnswerOk;
    var n, r := a.call.from, a.reply.append;
    KnownNode(c, n);
    assert AnswerOk(c.ledger, a);
    AnswerParts(c.ledger, a);
    TargetIsPeer(c, a.call);
    NodeTerm(c.ledger, n, c.nodes[n]);
    AckBound(c.ledger, n, c.nodes[n], a.call.to, r.matchIndex);
    PictureOk(c.ledger, n, c.nodes[n], a.call.to, r.matchIndex + 1, r.matchIndex,
              Recorded(c.nodes[n], a.call.to, r));
  }

  /** A node's peers and itself are the cluster. */
  lemma WholeCluster(l: Ledger, n: NodeId, v: Node)
    requires NodeOk(l, n, v)
    ensures ProperPeers(v) && Everyone(v) == l.ids
  {
    assert Everyone(v) == {n} + (l.ids - {n});
    assert v.id in v.peers ==> v.id in (set p | p in v.peers);
  }

  lemma CarriedCommitted(l: Ledger, n: NodeId, v: Node, k: nat)
    requires Inv(l) && NodeOk(l, n, v) && v.role == Leader && |v.log| > 0 && Carried(v, k)
    ensures Committed(l, v.currentTerm, k)
  {
    hide Inv, NodeOk, Committed, Matching, Majority;
    NodeParts(l, n, v);
    CompactReads(v, l.members[n].log);
    WholeCluster(l, n, v);
    CountIsMajority(v, k);
    ElectableCommitted(l, n, v, k);
  }

  // ----- elections --------------------------------------------------------

  lemma InCluster(l: Ledger, s: Slot, t: Tally)
    requires Inv(l) && TallyOk(l, s, t)
    ensures t.granted <= l.ids && s.node !in t.granted
  {
    forall g | g in t.granted
      ensures g in l.ids
    {
      assert BallotOk(l, Slot(g, s.term));
    }
  }

  /** A count of a node and others against its quorum is a majority of the cluster. */
  lemma QuorumIsMajority(l: Ledger, n: NodeId, v: Node, others: set<NodeId>)
    requires NodeOk(l, n, v) && others <= l.ids && n !in others
    ensures 1 + |others| >= v.Quorum() <==> Majority({n} + others, l.ids)
  {
    ClusterSize(v.peers, n, l.ids);
    assert {n} + others == others + {n};
    OneMore(others, n);
  }

  /** Exactly when the reader of a vote is leader: it was and no later term shows, or the vote is a grant of the term it
      still stands for, and with it a majority of the cluster has voted for it. */
  lemma WinsIff(cs: seq<Cluster>, i: nat, a: Answer)
    requires Run(cs) && i < |cs| && Enabled(cs[i], HearVote(a))
    ensures var n, v := a.call.from, cs[i].nodes[a.call.from];
      After(cs[i], HearVote(a)).nodes[n].role == Leader
      <==> a.reply.vote.term <= v.currentTerm
           && (v.role == Leader
               || (v.role == Candidate && v.currentTerm == a.call.request.vote.term && a.reply.vote.voteGranted
                   && Majority({n} + cs[i].elections[Slot(n, v.currentTerm)].granted + {a.call.to}, cs[i].ledger.ids)))
  {
    hide Run, SystemInv, Inv, NodeOk, AnswerOk, Majority, TallyOk, Won, Broadcast, Sent, Raised, Node.Quorum;
    var n, s := a.call.from, Slot(a.call.from, a.call.request.vote.term);
    RunNode(cs, i, n);
    FromIsNotTo(cs[i], a);
    TallyOf(cs[i], s);
    var t := cs[i].elections[s];
    InCluster(cs[i].ledger, s, t);
    TallyCount(cs[i].ledger, s, t, a.call.to);
    QuorumIsMajority(cs[i].ledger, n, cs[i].nodes[n], t.granted + {a.call.to});
    assert {n} + (t.granted + {a.call.to}) == {n} + t.granted + {a.call.to};
  }

  lemma TallyCount(l: Ledger, s: Slot, t: Tally, p: NodeId)
    requires TallyOk(l, s, t) && p !in t.heard
    ensures t.votes + 1 == 1 + |t.granted + {p}|
  {
    OneMore(t.granted, p);
  }

  /** Exactly when a poll is carried: its opener has not become leader, and a majority of the cluster would vote for it.
      The opener then stands for the next term with its own vote cast; otherwise it is as it was. */
  lemma StandsIff(cs: seq<Cluster>, i: nat, n: NodeId)
    requires Run(cs) && i < |cs| && Enabled(cs[i], FinishPreVote(n))
    ensures var v, v' := cs[i].nodes[n], After(cs[i], FinishPreVote(n)).nodes[n];
      var poll := cs[i].polls[Slot(n, cs[i].loops[n].round)];
      if v.role != Leader && Majority({n} + poll.granted, cs[i].ledger.ids) then
        && v'.currentTerm == v.currentTerm + 1 && v'.votedFor == n
        && v'.role == (if v.peers == [] then Leader else Candidate)
        && v'.leaderID == (if v.peers == [] then n else NOBODY)
      else v' == v
  {
    hide Run, SystemInv, Inv, NodeOk, Majority, Won, Broadcast, Sent, Nominated, Canvass;
    RunNode(cs, i, n);
    RunPolls(cs, i);
    var s := Slot(n, cs[i].loops[n].round);
    assert PollOk(cs[i].ledger.ids, s, cs[i].polls[s]);
    QuorumIsMajority(cs[i].ledger, n, cs[i].nodes[n], cs[i].polls[s].granted);
  }

  // ----- who is told ------------------------------------------------------

  /** Every peer of the node has a call on its way that writes it what the node now holds for it. */
  ghost predicate AllWritten(c: Cluster, n: NodeId) {
    n in c.nodes && forall p | p in c.nodes[n].peers :: Calling(n, Sends(c.nodes[n], p)) in c.calls
  }

  lemma BroadcastReaches(v: Node, p: NodeId)
    requires p in v.peers
    ensures Calling(v.id, Sends(v, p)) in Sent(v.id, Broadcast(v))
  {
    var k :| 0 <= k < |v.peers| && v.peers[k] == p;
    assert Broadcast(v)[k] == Sends(v, p);
  }

  lemma SentReaches(c: Cluster, v: Node)
    requires v.id in c.nodes && c.nodes[v.id] == v && Sent(v.id, Broadcast(v)) <= c.calls
    ensures AllWritten(c, v.id)
  {
    hide Broadcast, Sent, Sends;
    forall p | p in v.peers
      ensures Calling(v.id, Sends(v, p)) in c.calls
    {
      BroadcastReaches(v, p);
    }
  }

  /** A heartbeat, a proposal, a win and an advance of the commit index are each told to every peer at once. */
  lemma LeaderWrites(c: Cluster, step: Step)
    requires Enabled(c, step)
    ensures match step
      case Heartbeat(n) => AllWritten(After(c, step), n)
      case ProposeEntry(n, _) => AllWritten(After(c, step), n)
      case HearVote(a) => var n := a.call.from; var v' := After(c, step).nodes[n];
        v'.role == Leader && c.nodes[n].role != Leader ==> AllWritten(After(c, step), n)
      case HearAppend(a) => var n := a.call.from; var v' := After(c, step).nodes[n];
        v'.commitIndex != c.nodes[n].commitIndex ==> AllWritten(After(c, step), n)
      case _ => true
  {
    hide Broadcast, Sent, AllWritten, Raised, Won, Extended, HeardAppend, Node.Quorum;
    match step
    case Heartbeat(n) => SentReaches(After(c, step), c.nodes[n]);
    case ProposeEntry(n, payload) => SentReaches(After(c, step), Proposed(c.nodes[n], payload));
    case HearVote(a) =>
      var v' := After(c, step).nodes[a.call.from];
      if v'.role == Leader && c.nodes[a.call.from].role != Leader {
        SentReaches(After(c, step), v');
      }
    case HearAppend(a) => AdvanceWrites(c, a);
    case _ =>
  }

  lemma AdvanceWrites(c: Cluster, a: Answer)
    requires Enabled(c, HearAppend(a))
    ensures var n := a.call.from; var c' := HeardAppend(c, a);
      n in c'.nodes && (c'.nodes[n].commitIndex != c.nodes[n].commitIndex ==> AllWritten(c', n))
  {
    hide Broadcast, Sent, AllWritten, Raised, OnAppendReply;
    var v, args, r := c.nodes[a.call.from], a.call.request.append, a.reply.append;
    AdvanceIsTold(v, a.call.to, args.term, r);
    if OnAppendReply(v, a.call.to, args.term, r).0.commitIndex != v.commitIndex {
      SentReaches(HeardAppend(c, a), OnAppendReply(v, a.call.to, args.term, r).0);
    }
  }

  lemma AdvanceIsTold(v: Node, p: NodeId, term: nat, r: AppendEntriesReply)
    requires |v.log| > 0
    ensures var (v', out) := OnAppendReply(v, p, term, r);
      v'.id == v.id && (v'.commitIndex != v.commitIndex ==> out == Broadcast(v'))
  {
    hide Broadcast, QuorumIndex;
  }
}
