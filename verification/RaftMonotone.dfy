/** Index order and monotonicity on every node of every run, and what the applier delivers. */
module RaftMonotone {
  import opened RaftTypes
  import opened RaftLedger
  import opened RaftHandlers
  import opened RaftCompaction
  import opened RaftCluster
  import opened RaftInvariant
  import opened RaftReplication
  import opened RaftRuns
  import opened RaftSafety

  /** No counter of a node moves back. */
  ghost predicate NoLess(v: Node, v': Node) {
    && v.currentTerm <= v'.currentTerm && v.commitIndex <= v'.commitIndex
    && v.lastApplied <= v'.lastApplied && v.lastIncludedIndex <= v'.lastIncludedIndex
  }

  /** lastIncludedIndex <= lastApplied <= commitIndex <= lastLogIndex, always. */
  lemma IndexOrdering(cs: seq<Cluster>, i: nat, n: NodeId)
    requires Run(cs) && i < |cs| && n in cs[i].nodes
    ensures var v := cs[i].nodes[n];
      |v.log| > 0 && v.lastIncludedIndex <= v.lastApplied <= v.commitIndex <= v.LastLogIndex()
  {
    hide NodeOk, SystemInv, Inv;
    RunNode(cs, i, n);
    NodeParts(cs[i].ledger, n, cs[i].nodes[n]);
    CompactReads(cs[i].nodes[n], FullLog(cs[i], n));
  }

  /** The call is not wholly inside v's snapshot and passes v's term and consistency checks. */
  predicate Passes(v: Node, args: AppendEntriesArgs)
    requires v.Valid()
  {
    && args.term >= v.currentTerm
    && (args.prevLogIndex < v.lastIncludedIndex ==> |args.entries| > v.lastIncludedIndex - args.prevLogIndex)
    && (args.prevLogIndex > v.lastIncludedIndex ==>
         args.prevLogIndex <= v.LastLogIndex() && v.LogTerm(args.prevLogIndex) == args.prevLogTerm)
    && (args.prevLogIndex == v.lastIncludedIndex ==> v.lastIncludedTerm == args.prevLogTerm)
  }

  /** The handler's min alone lets the commit index fall, and exactly then: when a call passes its checks, its quoted
      stretch ends short of the commit index, and its leader's commit index is beyond it. No other counter
      ever falls. */
  lemma AppendRetreatsIff(v: Node, args: AppendEntriesArgs)
    requires v.Valid()
    ensures var v' := OnAppendEntries(v, args).0;
      && (v'.commitIndex < v.commitIndex
          <==> Passes(v, args) && args.prevLogIndex + |args.entries| < v.commitIndex < args.leaderCommit)
      && v.currentTerm <= v'.currentTerm && v.lastApplied == v'.lastApplied
      && v.lastIncludedIndex == v'.lastIncludedIndex
  {
    hide Merged;
    var f := Follow(Observe(v, args.term), args.leaderID);
    if args.prevLogIndex < f.lastIncludedIndex && |args.entries| > f.lastIncludedIndex - args.prevLogIndex {
      var trimmed := Trimmed(f, args);
      assert trimmed.prevLogIndex + |trimmed.entries| == args.prevLogIndex + |args.entries|;
    }
  }

  /** A call that makes a node's commit index fall. No leader sends it: a commit index it sends never exceeds the
      stretch it quotes. */
  lemma AppendCanRetreatWithoutPromise() returns (v: Node, args: AppendEntriesArgs)
    ensures v.Valid() && args.leaderCommit > args.prevLogIndex + |args.entries|
    ensures OnAppendEntries(v, args).0.commitIndex < v.commitIndex
  {
    var e := Entry(1, 1, Nil);
    v := Fresh(NodeId("a"), []).(log := [ORIGIN, e], currentTerm := 1, commitIndex := 1);
    args := AppendEntriesArgs(1, NodeId("b"), 0, 0, [], 2);
    assert v.log[0].index == 0 && v.log[1].index == 1;
    assert Trimmed(Follow(v, NodeId("b")), args) == args;
    assert Standing(v.log, 1, []) == 0;
  }

  /** The same for every other handler, whatever it is called with. */
  lemma HandlersNeverRetreat(v: Node, vote: RequestVoteArgs, heardLately: bool, install: InstallSnapshotArgs,
                             idx: nat, data: State)
    requires v.Valid()
    ensures NoLess(v, OnRequestVote(v, vote, heardLately).0) && OnRequestVote(v, vote, heardLately).0.id == v.id
    ensures NoLess(v, OnInstallSnapshot(v, install).0) && OnInstallSnapshot(v, install).0.id == v.id
    ensures NoLess(v, OnTakeSnapshot(v, idx, data)) && OnTakeSnapshot(v, idx, data).id == v.id
    ensures NoLess(v, Applied(v).0) && Applied(v).0.id == v.id
  {
    hide CutAt, Deliveries;
  }

  lemma RepliesNeverRetreat(v: Node, p: NodeId, term: nat, append: AppendEntriesReply, sent: nat,
                            install: InstallSnapshotReply)
    requires v.Valid()
    ensures NoLess(v, OnAppendReply(v, p, term, append).0) && OnAppendReply(v, p, term, append).0.id == v.id
    ensures NoLess(v, OnInstallReply(v, p, term, sent, install)) && OnInstallReply(v, p, term, sent, install).id == v.id
  {
    hide Broadcast;
  }

  lemma MoverNoLess(c: Cluster, call: Call)
    requires SystemInv(c) && Receives(c, call) && call.request.Append?
    ensures NoLess(c.nodes[call.to], OnAppendEntries(c.nodes[call.to], call.request.append).0)
    ensures OnAppendEntries(c.nodes[call.to], call.request.append).0.id == call.to
  {
    hide Inv;
    assert CallOk(c.ledger, call);
    AppendRetreatsIff(c.nodes[call.to], call.request.append);
  }

  lemma CampaignNoLess(c: Cluster, n: NodeId, p: NodeId)
    requires Known(c, n) && p in c.nodes
    ensures var c' := Campaign(c, n); p in c'.nodes && NoLess(c.nodes[p], c'.nodes[p])
  {
    hide Broadcast, Sent, Canvass, Nominated, Won;
  }

  lemma ReplicationNoLess(c: Cluster, step: Step, p: NodeId)
    requires SystemInv(c) && Enabled(c, step) && p in c.nodes
    requires step.AnswerAppend? || step.HearAppend? || step.AnswerInstall? || step.HearInstall?
    ensures p in After(c, step).nodes && NoLess(c.nodes[p], After(c, step).nodes[p])
  {
    hide SystemInv, Sent, Accepted, Raised, OnAppendEntries, OnAppendReply, OnInstallSnapshot, OnInstallReply;
    match step
    case AnswerAppend(call) => MoverNoLess(c, call);
    case HearAppend(a) =>
      RepliesNeverRetreat(c.nodes[a.call.from], a.call.to, a.call.request.append.term, a.reply.append, 0,
                          InstallSnapshotReply(0));
    case AnswerInstall(call) =>
      HandlersNeverRetreat(c.nodes[call.to], RequestVoteArgs(0, NOBODY, 0, 0, false), false, call.request.install, 0,
                           []);
    case HearInstall(a) =>
      RepliesNeverRetreat(c.nodes[a.call.from], a.call.to, a.call.request.install.term, AppendEntriesReply(0, false, 0),
                          a.call.request.install.lastIncludedIndex, a.reply.install);
  }

  lemma ElectionNoLess(c: Cluster, step: Step, p: NodeId)
    requires Enabled(c, step) && p in c.nodes
    requires step.StartPreVote? || step.HearPreVote? || step.CountPreVote? || step.FinishPreVote? || step.AnswerVote?
      || step.HearVote?
    ensures p in After(c, step).nodes && NoLess(c.nodes[p], After(c, step).nodes[p])
  {
    hide Broadcast, Sent, Canvass, Campaign, Won, Balloted, Raised, OnRequestVote;
    match step
    case StartPreVote(n) => CampaignNoLess(c, n, p);
    case HearPreVote(a) =>
    case CountPreVote(n, round, q) =>
    case FinishPreVote(n) => CampaignNoLess(c.(loops := c.loops[n := Waiting]), n, p);
    case AnswerVote(call, heardLately) =>
      var noInstall := InstallSnapshotArgs(0, NOBODY, 0, 0, []);
      HandlersNeverRetreat(c.nodes[call.to], call.request.vote, heardLately, noInstall, 0, []);
    case HearVote(a) =>
  }

  lemma LocalNoLess(c: Cluster, step: Step, p: NodeId)
    requires Enabled(c, step) && p in c.nodes
    requires step.Heartbeat? || step.ProposeEntry? || step.Compaction? || step.Deliver?
    ensures p in After(c, step).nodes && NoLess(c.nodes[p], After(c, step).nodes[p])
  {
    hide Broadcast, Sent, Extended, OnTakeSnapshot, Applied;
    var noVote, noInstall := RequestVoteArgs(0, NOBODY, 0, 0, false), InstallSnapshotArgs(0, NOBODY, 0, 0, []);
    match step
    case Heartbeat(n) =>
    case ProposeEntry(n, payload) =>
    case Compaction(n, idx, data) => HandlersNeverRetreat(c.nodes[n], noVote, false, noInstall, idx, data);
    case Deliver(n) => HandlersNeverRetreat(c.nodes[n], noVote, false, noInstall, 0, []);
  }

  /** One step never moves a counter of any node back. */
  lemma StepNoLess(c: Cluster, step: Step, p: NodeId)
    requires SystemInv(c) && Enabled(c, step) && p in c.nodes
    ensures p in After(c, step).nodes && NoLess(c.nodes[p], After(c, step).nodes[p])
  {
    hide SystemInv, After, Enabled;
    if step.AnswerAppend? || step.HearAppend? || step.AnswerInstall? || step.HearInstall? {
      ReplicationNoLess(c, step, p);
    } else if step.Heartbeat? || step.ProposeEntry? || step.Compaction? || step.Deliver? {
      LocalNoLess(c, step, p);
    } else {
      ElectionNoLess(c, step, p);
    }
  }

  /** Terms, commit, applied and snapshot indices of every node only rise along a run. */
  lemma {:induction false} CountersOnlyRise(cs: seq<Cluster>, i: nat, j: nat, n: NodeId)
    requires Run(cs) && i <= j < |cs| && n in cs[i].nodes
    ensures n in cs[j].nodes && NoLess(cs[i].nodes[n], cs[j].nodes[n])
    decreases j
  {
    hide SystemInv;
    if i < j {
      var k := j - 1;
      CountersOnlyRise(cs, i, k, n);
      RunHolds(cs, k);
      assert Next(cs[k], cs[k + 1]);
      var step :| Enabled(cs[k], step) && cs[j] == After(cs[k], step);
      StepNoLess(cs[k], step, n);
    }
  }
}
