/** Catch-up: how many replication rounds a leader needs to bring one follower level with its log, by backing off, by
    sending its snapshot, or both. */
module RaftCatchUp {
  import opened RaftTypes
  import opened RaftLedger
  import opened RaftLedgerActions
  import opened RaftHandlers
  import opened RaftCompaction
  import opened RaftCluster
  import opened RaftInvariant
  import opened RaftElections
  import opened RaftReplication
  import opened RaftRuns
  import opened RaftSafety
  import opened RaftRefinement

  /** A leader and a peer it may still reach in its own term. */
  ghost predicate Paired(c: Cluster, n: NodeId, p: NodeId) {
    && n in c.nodes && p in c.nodes && p != n && p in c.nodes[n].peers
    && c.nodes[n].role == Leader && c.nodes[p].currentTerm <= c.nodes[n].currentTerm
  }

  ghost function RoundCall(c: Cluster, n: NodeId, p: NodeId): Call
    requires n in c.nodes
  {
    Calling(n, Sends(c.nodes[n], p))
  }

  /** The steps of one round: the leader broadcasts, the peer answers its call, the leader reads the answer. */
  ghost function Answered(c: Cluster, n: NodeId, p: NodeId): Step
    requires n in c.nodes
  {
    var call := RoundCall(c, n, p);
    if call.request.Append? then AnswerAppend(call) else AnswerInstall(call)
  }

  ghost function RoundAnswer(c: Cluster, n: NodeId, p: NodeId): Answer
    requires n in c.nodes && p in c.nodes && c.nodes[p].Valid()
  {
    var call := RoundCall(c, n, p);
    match call.request
    case Append(args) => Answer(call, Appended(OnAppendEntries(c.nodes[p], args).1))
    case Install(args) => Answer(call, Installed(OnInstallSnapshot(c.nodes[p], args).1))
    case Vote(_) => Answer(call, Voted(RequestVoteReply(0, false)))
  }

  ghost function Heard(c: Cluster, n: NodeId, p: NodeId): Step
    requires n in c.nodes && p in c.nodes && c.nodes[p].Valid()
  {
    var a := RoundAnswer(c, n, p);
    if a.call.request.Append? then HearAppend(a) else HearInstall(a)
  }

  lemma PairKnown(c: Cluster, n: NodeId, p: NodeId)
    requires SystemInv(c) && Paired(c, n, p)
    ensures Known(c, n) && Known(c, p)
    ensures Inv(c.ledger) && NodeOk(c.ledger, n, c.nodes[n]) && NodeOk(c.ledger, p, c.nodes[p])
  {
    HoldsAll(c, n);
    HoldsAll(c, p);
    assert Inv(c.ledger);
    NodeParts(c.ledger, n, c.nodes[n]);
    NodeParts(c.ledger, p, c.nodes[p]);
  }

  lemma CallSent(c: Cluster, n: NodeId, p: NodeId)
    requires Known(c, n) && p in c.nodes[n].peers
    ensures RoundCall(c, n, p) in Sent(n, Broadcast(c.nodes[n]))
    ensures RoundCall(c, n, p).to == p && RoundCall(c, n, p).from == n && !RoundCall(c, n, p).request.Vote?
  {
    var i :| 0 <= i < |c.nodes[n].peers| && c.nodes[n].peers[i] == p;
    assert Broadcast(c.nodes[n])[i] == Sends(c.nodes[n], p);
    assert Sends(c.nodes[n], p) in Broadcast(c.nodes[n]);
  }

  /** One replication round is three steps of the machine. */
  ghost function Round(c: Cluster, n: NodeId, p: NodeId): Cluster
    requires SystemInv(c) && Paired(c, n, p)
  {
    PairKnown(c, n, p);
    RoundEnabled(c, n, p);
    After(After(After(c, Heartbeat(n)), Answered(c, n, p)), Heard(c, n, p))
  }

  lemma FirstStep(c: Cluster, n: NodeId, p: NodeId)
    requires SystemInv(c) && Paired(c, n, p)
    ensures Known(c, n) && Known(c, p) && Enabled(c, Heartbeat(n))
    ensures var c1 := After(c, Heartbeat(n));
      && SystemInv(c1) && Enabled(c1, Answered(c, n, p)) && c1.nodes == c.nodes && c1.ledger == c.ledger
      && Receives(c1, RoundCall(c, n, p))
  {
    hide SystemInv, NodeOk, Inv, Broadcast, Sends;
    PairKnown(c, n, p);
    CallSent(c, n, p);
    StepPreserves(c, Heartbeat(n));
    assert c.nodes[n := c.nodes[n]] == c.nodes;
  }

  ghost function FollowerAfter(c: Cluster, n: NodeId, p: NodeId): Node
    requires n in c.nodes && p in c.nodes && c.nodes[p].Valid()
  {
    match RoundCall(c, n, p).request
    case Append(args) => OnAppendEntries(c.nodes[p], args).0
    case Install(args) => OnInstallSnapshot(c.nodes[p], args).0
    case Vote(_) => c.nodes[p]
  }

  lemma SecondStep(c: Cluster, n: NodeId, p: NodeId)
    requires SystemInv(c) && Paired(c, n, p) && Known(c, p) && Enabled(c, Heartbeat(n))
    requires Enabled(After(c, Heartbeat(n)), Answered(c, n, p))
    ensures var c2 := After(After(c, Heartbeat(n)), Answered(c, n, p));
      && SystemInv(c2) && Enabled(c2, Heard(c, n, p))
      && c2.nodes == c.nodes[p := FollowerAfter(c, n, p)]
  {
    hide SystemInv, NodeOk, Inv, Broadcast, Sends, OnAppendEntries, OnInstallSnapshot, Raised, Accepted;
    FirstStep(c, n, p);
    var c1 := After(c, Heartbeat(n));
    CallSent(c, n, p);
    StepPreserves(c1, Answered(c, n, p));
    FollowerId(c, n, p);
    var c2 := After(c1, Answered(c, n, p));
    assert c2.nodes == c.nodes[p := FollowerAfter(c, n, p)];
    assert RoundAnswer(c, n, p) in c2.answers;
    assert Known(c2, n) by { assert n in c2.nodes; PairKnownAt(c2, n); }
  }

  lemma PairKnownAt(c: Cluster, n: NodeId)
    requires SystemInv(c) && n in c.nodes
    ensures Known(c, n)
  {
    HoldsAll(c, n);
    assert Inv(c.ledger);
    NodeParts(c.ledger, n, c.nodes[n]);
  }

  lemma FollowerId(c: Cluster, n: NodeId, p: NodeId)
    requires n in c.nodes && Known(c, p)
    ensures FollowerAfter(c, n, p).id == p
  {
    hide OnAppendEntries, OnInstallSnapshot, Sends;
    match RoundCall(c, n, p).request
    case Append(args) => AppendKeepsId(c.nodes[p], args);
    case Install(args) => InstallKeepsId(c.nodes[p], args);
    case Vote(_) =>
  }

  lemma AppendKeepsId(v: Node, args: AppendEntriesArgs)
    requires v.Valid()
    ensures OnAppendEntries(v, args).0.id == v.id
  {
    hide Merged;
  }

  lemma InstallKeepsId(v: Node, args: InstallSnapshotArgs)
    requires v.Valid()
    ensures OnInstallSnapshot(v, args).0.id == v.id
  {
    hide CutAt;
  }

  lemma RoundEnabled(c: Cluster, n: NodeId, p: NodeId)
    requires SystemInv(c) && Paired(c, n, p)
    ensures Known(c, n) && Known(c, p) && Enabled(c, Heartbeat(n))
    ensures Enabled(After(c, Heartbeat(n)), Answered(c, n, p))
    ensures Enabled(After(After(c, Heartbeat(n)), Answered(c, n, p)), Heard(c, n, p))
    ensures SystemInv(After(After(After(c, Heartbeat(n)), Answered(c, n, p)), Heard(c, n, p)))
  {
    hide SystemInv, After, Enabled;
    FirstStep(c, n, p);
    SecondStep(c, n, p);
    StepPreserves(After(After(c, Heartbeat(n)), Answered(c, n, p)), Heard(c, n, p));
  }

  ghost function LeaderAfter(c: Cluster, n: NodeId, p: NodeId): Node
    requires n in c.nodes && p in c.nodes && c.nodes[n].Valid() && c.nodes[p].Valid()
  {
    var a := RoundAnswer(c, n, p);
    match a.call.request
    case Append(args) => OnAppendReply(c.nodes[n], p, args.term, a.reply.append).0
    case Install(args) => OnInstallReply(c.nodes[n], p, args.term, args.lastIncludedIndex, a.reply.install)
    case Vote(_) => c.nodes[n]
  }

  lemma RoundNodes(c: Cluster, n: NodeId, p: NodeId)
    requires SystemInv(c) && Paired(c, n, p)
    ensures Known(c, n) && Known(c, p) && SystemInv(Round(c, n, p))
    ensures Round(c, n, p).nodes == c.nodes[p := FollowerAfter(c, n, p)][n := LeaderAfter(c, n, p)]
  {
    hide SystemInv, NodeOk, Inv, Broadcast, Sends, OnAppendEntries, OnInstallSnapshot, OnAppendReply, OnInstallReply,
         Raised, Accepted, After, Enabled;
    RoundEnabled(c, n, p);
    SecondStep(c, n, p);
    CallSent(c, n, p);
    var c2 := After(After(c, Heartbeat(n)), Answered(c, n, p));
    LeaderId(c, n, p);
    ThirdStep(c, c2, n, p);
  }

  lemma ThirdStep(c: Cluster, c2: Cluster, n: NodeId, p: NodeId)
    requires n in c.nodes && p in c.nodes && n != p && c.nodes[n].Valid() && c.nodes[p].Valid()
    requires c2.nodes == c.nodes[p := FollowerAfter(c, n, p)] && Enabled(c2, Heard(c, n, p))
    requires RoundCall(c, n, p).from == n
    requires LeaderAfter(c, n, p).id == n && RoundCall(c, n, p).to == p && !RoundCall(c, n, p).request.Vote?
    ensures After(c2, Heard(c, n, p)).nodes == c2.nodes[n := LeaderAfter(c, n, p)]
  {
    hide Broadcast, Sends, OnAppendEntries, OnInstallSnapshot, OnAppendReply, OnInstallReply, Raised, Accepted;
  }

  lemma LeaderId(c: Cluster, n: NodeId, p: NodeId)
    requires Known(c, n) && p in c.nodes && c.nodes[p].Valid()
    ensures LeaderAfter(c, n, p).id == n
  {
    hide Broadcast;
  }

  // ----- progress ---------------------------------------------------------

  /** Where the leader's next message to p starts from. */
  function Probe(v: Node, p: NodeId): nat {
    Max(At(v.nextIndex, p), 1)
  }

  /** The leader's next AppendEntries to p will pass p's consistency check. */
  ghost predicate Ready(c: Cluster, n: NodeId, p: NodeId)
    requires n in c.nodes && p in c.nodes
  {
    var v := c.nodes[n];
    Probe(v, p) > v.lastIncludedIndex
    && (Probe(v, p) - 1 < c.nodes[p].lastIncludedIndex || Agree(FullLog(c, p), FullLog(c, n), Probe(v, p) - 1))
  }

  /** The leader has recorded its whole log as matched by p. */
  ghost predicate Level(c: Cluster, n: NodeId, p: NodeId)
    requires n in c.nodes && c.nodes[n].Valid()
  {
    At(c.nodes[n].matchIndex, p) == c.nodes[n].LastLogIndex()
  }

  /** Rounds still needed, at most. */
  ghost function Rank(c: Cluster, n: NodeId, p: NodeId): nat
    requires n in c.nodes && p in c.nodes
  {
    var v := c.nodes[n];
    if Ready(c, n, p) then 1
    else if Probe(v, p) <= v.lastIncludedIndex then 2
    else Probe(v, p) - v.lastIncludedIndex + 2
  }

  /** A leader's full log is its term's, and holds whatever the peer has committed. */
  lemma PairLogs(c: Cluster, n: NodeId, p: NodeId)
    requires SystemInv(c) && Paired(c, n, p)
    ensures var t := c.nodes[n].currentTerm;
      && n in c.ledger.members && p in c.ledger.members && t in c.ledger.elected && Leads(c.ledger, n, t)
      && FullLog(c, n) == c.ledger.elected[t].log
      && Agree(FullLog(c, p), FullLog(c, n), c.nodes[p].commitIndex)
      && c.nodes[p].lastIncludedIndex <= c.nodes[p].commitIndex < |FullLog(c, n)|
      && c.nodes[n].Valid() && c.nodes[n].LastLogIndex() == |FullLog(c, n)| - 1
  {
    hide SystemInv, NodeOk, Inv, Safe;
    PairKnown(c, n, p);
    var l, t := c.ledger, c.nodes[n].currentTerm;
    NodeParts(l, n, c.nodes[n]);
    NodeParts(l, p, c.nodes[p]);
    MandateParts(l, t);
    IndexOrder(c.nodes[p], FullLog(c, p));
    SafeInLeader(l, FullLog(c, p), c.nodes[p].commitIndex, c.nodes[p].currentTerm, t);
    CompactReads(c.nodes[n], FullLog(c, n));
  }

  /** Inside one term, a follower accepts an AppendEntries exactly when its snapshot covers the previous index or its
      log agrees with the leader's there. */
  lemma TermVerdict(l: Ledger, p: NodeId, w: Node, call: Call)
    requires Inv(l) && NodeOk(l, p, w) && w.Valid() && CallOk(l, call) && call.request.Append? && call.to == p
    requires call.request.append.term == w.currentTerm
    ensures var args := call.request.append; var r := OnAppendEntries(w, args).1;
      && args.term in l.elected && p in l.members && r.term == w.currentTerm
      && r.success == (args.prevLogIndex < w.lastIncludedIndex
                       || Agree(l.members[p].log, l.elected[args.term].log, args.prevLogIndex))
      && (r.success ==> r.matchIndex == Max(args.prevLogIndex + |args.entries|, w.lastIncludedIndex))
  {
    hide Inv, NodeOk, CallOk, Safe, OnAppendEntries, Replicate, Compacts, Agree;
    var args := call.request.append;
    InTerm(w, args);
    CallQuotes(l, call);
    FollowOk(l, p, w, call.from);
    NodeParts(l, p, w);
    var f, m := Follow(w, args.leaderID), args.prevLogIndex + |args.entries|;
    NodeParts(l, p, f);
    if !Covered(w, args) {
      TrimmedQuotes(l, p, f, args, m);
      ReplicateFrame(f, Trimmed(f, args));
      ConsistencyCheck(l, p, f, Trimmed(f, args), m);
      VerdictIff(f, Trimmed(f, args));
      if args.prevLogIndex < w.lastIncludedIndex {
        SnapshotAgrees(l, p, w);
      }
    }
  }

  lemma SnapshotAgrees(l: Ledger, p: NodeId, w: Node)
    requires Inv(l) && NodeOk(l, p, w) && w.currentTerm in l.elected
    ensures p in l.members && Agree(l.members[p].log, l.elected[w.currentTerm].log, w.lastIncludedIndex)
  {
    hide Inv, Safe, Compacts;
    NodeParts(l, p, w);
    IndexOrder(w, l.members[p].log);
    SafeInLeader(l, l.members[p].log, w.commitIndex, w.currentTerm, w.currentTerm);
  }

  /** A call of n's term that probes p where n would probe it now, and quotes n's log, or n's snapshot, to the end. */
  ghost predicate Probes(v: Node, p: NodeId, call: Call) {
    && call.from == v.id && call.to == p && |v.log| > 0
    && match call.request
       case Vote(_) => false
       case Append(args) =>
         && args.term == v.currentTerm && Probe(v, p) > v.lastIncludedIndex
         && args.prevLogIndex == Probe(v, p) - 1 && args.prevLogIndex + |args.entries| == v.LastLogIndex()
       case Install(args) =>
         args.term == v.currentTerm && Probe(v, p) <= v.lastIncludedIndex
         && args.lastIncludedIndex == v.lastIncludedIndex
  }

  /** Such an AppendEntries succeeds exactly when the pair is ready at that moment, and then matches the whole log. */
  lemma CallVerdict(c: Cluster, n: NodeId, p: NodeId, call: Call)
    requires SystemInv(c) && Paired(c, n, p) && Known(c, n) && Known(c, p)
    requires CallOk(c.ledger, call) && Probes(c.nodes[n], p, call) && call.request.Append?
    ensures var (fo, r) := OnAppendEntries(c.nodes[p], call.request.append);
      && r.success == Ready(c, n, p) && r.term == c.nodes[n].currentTerm
      && (r.success ==> r.matchIndex == c.nodes[n].LastLogIndex())
  {
    hide SystemInv, NodeOk, Inv, Safe, OnAppendEntries, Grows, MovesOnly, CallOk, Raised, Agree;
    PairKnown(c, n, p);
    PairLogs(c, n, p);
    var l, t := c.ledger, c.nodes[n].currentTerm;
    var r, w := Raised(l, p, t), Observe(c.nodes[p], t);
    ObserveOk(l, p, c.nodes[p], t);
    MovesGrow(l, r, p);
    CallGrows(l, r, call);
    RaisedLogs(l, p, t);
    SameFromHere(c.nodes[p], call.request.append);
    TermVerdict(r, p, w, call);
  }

  /** An AppendEntries round succeeds exactly when it is ready, and then matches the leader's whole log. */
  lemma AppendVerdict(c: Cluster, n: NodeId, p: NodeId)
    requires SystemInv(c) && Paired(c, n, p) && Known(c, n) && Known(c, p)
    requires Probe(c.nodes[n], p) > c.nodes[n].lastIncludedIndex
    ensures var call := RoundCall(c, n, p);
      && call.request.Append? && call.request.append.term == c.nodes[n].currentTerm
      && var (fo, r) := OnAppendEntries(c.nodes[p], call.request.append);
         && r.success == Ready(c, n, p) && r.term == c.nodes[n].currentTerm
         && (r.success ==> r.matchIndex == c.nodes[n].LastLogIndex())
  {
    hide SystemInv, NodeOk, Inv, OnAppendEntries, Sends, CallOk, Ready;
    RoundReach(c, n, p);
    RoundCallOk(c, n, p);
    CallVerdict(c, n, p, RoundCall(c, n, p));
  }

  lemma VerdictIff(f: Node, args: AppendEntriesArgs)
    requires f.Valid() && args.prevLogIndex >= f.lastIncludedIndex
    ensures Replicate(f, args).1.success
      <==> args.prevLogIndex <= f.LastLogIndex() && f.LogTerm(args.prevLogIndex) == args.prevLogTerm
  {
    hide Merged;
  }

  lemma RaisedLogs(l: Ledger, p: NodeId, t: nat)
    ensures Raised(l, p, t).elected == l.elected
    ensures p in l.members ==> p in Raised(l, p, t).members && Raised(l, p, t).members[p].log == l.members[p].log
  {
  }

  lemma SameFromHere(fo: Node, args: AppendEntriesArgs)
    requires fo.Valid() && args.term >= fo.currentTerm
    ensures Observe(fo, args.term).Valid() && Observe(fo, args.term).currentTerm == args.term
    ensures OnAppendEntries(Observe(fo, args.term), args) == OnAppendEntries(fo, args)
    ensures Observe(fo, args.term).lastIncludedIndex == fo.lastIncludedIndex
  {
    hide Replicate;
  }

  lemma RoundCallOk(c: Cluster, n: NodeId, p: NodeId)
    requires SystemInv(c) && Paired(c, n, p) && Known(c, n)
    ensures CallOk(c.ledger, RoundCall(c, n, p)) && RoundCall(c, n, p).to == p && RoundCall(c, n, p).from == n
  {
    hide NodeOk, SystemInv, CallOk, Inv;
    PairKnown(c, n, p);
    CallSent(c, n, p);
    SendsOk(c.ledger, n, c.nodes[n], p);
  }

  /** An AppendEntries always carries the log to its end. */
  lemma RoundReach(c: Cluster, n: NodeId, p: NodeId)
    requires SystemInv(c) && Paired(c, n, p) && Known(c, n) && Probe(c.nodes[n], p) > c.nodes[n].lastIncludedIndex
    ensures var call := RoundCall(c, n, p);
      && call.request.Append? && call.request.append.prevLogIndex == Probe(c.nodes[n], p) - 1
      && call.request.append.term == c.nodes[n].currentTerm
      && call.request.append.prevLogIndex + |call.request.append.entries| == c.nodes[n].LastLogIndex()
        == |FullLog(c, n)| - 1
  {
    hide Inv, Safe, Compacts, VoteOk, Traced, Shaped, SystemInv;
    PairKnown(c, n, p);
    var v := c.nodes[n];
    assert PeerOk(c.ledger, v, p, |FullLog(c, n)|);
    NodeParts(c.ledger, n, v);
    CompactReads(v, FullLog(c, n));
  }

  ghost predicate KeepsPair(c: Cluster, c': Cluster, n: NodeId, p: NodeId)
    requires n in c.nodes
  {
    && Paired(c', n, p) && Grows(c.ledger, c'.ledger)
    && c'.nodes[n].currentTerm == c'.nodes[p].currentTerm == c.nodes[n].currentTerm
    && c'.nodes[n].log == c.nodes[n].log && c'.nodes[n].lastIncludedIndex == c.nodes[n].lastIncludedIndex
    && c'.nodes[n].Valid()
  }

  /** A round keeps the pair: the leader stays leader of its term with its log and snapshot, the peer joins the term. */
  lemma RoundKeepsPair(c: Cluster, n: NodeId, p: NodeId)
    requires SystemInv(c) && Paired(c, n, p)
    ensures SystemInv(Round(c, n, p)) && KeepsPair(c, Round(c, n, p), n, p)
  {
    hide SystemInv, Round, LeaderAfter, FollowerAfter, Grows, Known;
    RoundNodes(c, n, p);
    RoundGrows(c, n, p);
    var c' := Round(c, n, p);
    assert c'.nodes[n].Valid() by { PairKnownAt(c', n); KnownValid(c', n); }
    assert c.nodes[p].Valid() && c.nodes[n].Valid() by { KnownValid(c, p); KnownValid(c, n); }
    assert c'.nodes[n] == LeaderAfter(c, n, p) && c'.nodes[p] == FollowerAfter(c, n, p);
    FollowerJoins(c, n, p);
    LeaderStays(c, n, p);
  }

  lemma KnownValid(c: Cluster, n: NodeId)
    requires Known(c, n)
    ensures c.nodes[n].Valid()
  {
  }

  lemma RoundGrows(c: Cluster, n: NodeId, p: NodeId)
    requires SystemInv(c) && Paired(c, n, p)
    ensures SystemInv(Round(c, n, p)) && Grows(c.ledger, Round(c, n, p).ledger)
  {
    hide SystemInv, After, Enabled, Grows;
    RoundEnabled(c, n, p);
    FirstStep(c, n, p);
    SecondStep(c, n, p);
    var c1 := After(c, Heartbeat(n));
    var c2 := After(c1, Answered(c, n, p));
    StepPreserves(c, Heartbeat(n));
    StepPreserves(c1, Answered(c, n, p));
    StepPreserves(c2, Heard(c, n, p));
    GrowsTransitive(c.ledger, c1.ledger, c2.ledger);
    GrowsTransitive(c.ledger, c2.ledger, Round(c, n, p).ledger);
  }

  ghost function RequestTerm(r: Request): nat {
    match r
    case Vote(args) => args.term
    case Append(args) => args.term
    case Install(args) => args.term
  }

  lemma RoundCallTerm(c: Cluster, n: NodeId, p: NodeId)
    requires n in c.nodes
    ensures RequestTerm(RoundCall(c, n, p).request) == c.nodes[n].currentTerm && !RoundCall(c, n, p).request.Vote?
  {
  }

  lemma FollowerJoins(c: Cluster, n: NodeId, p: NodeId)
    requires n in c.nodes && Known(c, p) && c.nodes[p].currentTerm <= c.nodes[n].currentTerm
    ensures FollowerAfter(c, n, p).currentTerm == c.nodes[n].currentTerm
    ensures match RoundAnswer(c, n, p).reply
      case Voted(_) => true
      case Appended(r) => r.term == c.nodes[n].currentTerm
      case Installed(r) => r.term <= c.nodes[n].currentTerm
  {
    hide OnAppendEntries, OnInstallSnapshot, Sends;
    RoundCallTerm(c, n, p);
    match RoundCall(c, n, p).request
    case Append(args) => AppendJoins(c.nodes[p], args);
    case Install(args) => InstallJoins(c.nodes[p], args);
    case Vote(_) =>
  }

  lemma AppendJoins(v: Node, args: AppendEntriesArgs)
    requires v.Valid() && v.currentTerm <= args.term
    ensures OnAppendEntries(v, args).0.currentTerm == OnAppendEntries(v, args).1.term == args.term
  {
    hide Merged;
  }

  lemma InstallJoins(v: Node, args: InstallSnapshotArgs)
    requires v.Valid() && v.currentTerm <= args.term
    ensures OnInstallSnapshot(v, args).0.currentTerm == args.term && OnInstallSnapshot(v, args).1.term <= args.term
  {
    hide CutAt;
  }

  lemma LeaderStays(c: Cluster, n: NodeId, p: NodeId)
    requires Known(c, n) && Known(c, p) && c.nodes[p].currentTerm <= c.nodes[n].currentTerm && c.nodes[n].role == Leader
    ensures var v, v' := c.nodes[n], LeaderAfter(c, n, p);
      && v'.currentTerm == v.currentTerm && v'.log == v.log && v'.lastIncludedIndex == v.lastIncludedIndex
      && v'.role == Leader && v'.peers == v.peers
  {
    hide OnAppendEntries, OnInstallSnapshot, Sends, Broadcast;
    FollowerJoins(c, n, p);
    RoundCallTerm(c, n, p);
  }

  /** The leader's full log is the same after a round. */
  lemma RoundKeepsLog(c: Cluster, n: NodeId, p: NodeId)
    requires SystemInv(c) && Paired(c, n, p)
    ensures FullLog(Round(c, n, p), n) == FullLog(c, n)
  {
    hide SystemInv, NodeOk, Inv, Agree;
    RoundKeepsPair(c, n, p);
    PairLogs(c, n, p);
    var c' := Round(c, n, p);
    PairLogs(c', n, p);
    assert MandateGrows(c.ledger.elected[c.nodes[n].currentTerm], c'.ledger.elected[c.nodes[n].currentTerm]);
  }

  /** What the leader has recorded as matched, the peer holds. */
  lemma PictureHeld(c: Cluster, n: NodeId, p: NodeId)
    requires SystemInv(c) && Paired(c, n, p) && c.nodes[p].currentTerm == c.nodes[n].currentTerm
    ensures Agree(FullLog(c, p), FullLog(c, n), At(c.nodes[n].matchIndex, p))
  {
    hide Inv, SystemInv, Compacts, Safe;
    PairKnown(c, n, p);
    PairLogs(c, n, p);
    assert PeerOk(c.ledger, c.nodes[n], p, |FullLog(c, n)|);
    if At(c.nodes[n].matchIndex, p) > 0 {
      AckHolds(c.ledger, p, c.nodes[n].currentTerm, At(c.nodes[n].matchIndex, p));
    } else {
      OriginsAgree(c, n, p);
    }
  }

  lemma OriginsAgree(c: Cluster, n: NodeId, p: NodeId)
    requires SystemInv(c) && Paired(c, n, p)
    ensures Agree(FullLog(c, p), FullLog(c, n), 0)
  {
    hide SystemInv, Inv, NodeOk;
    PairKnown(c, n, p);
    NodeParts(c.ledger, n, c.nodes[n]);
    NodeParts(c.ledger, p, c.nodes[p]);
  }

  /** How the leader's indices for p move in one round. */
  lemma LeaderMoves(c: Cluster, n: NodeId, p: NodeId)
    requires SystemInv(c) && Paired(c, n, p) && Known(c, n) && Known(c, p)
    ensures var v, v' := c.nodes[n], LeaderAfter(c, n, p);
      if Probe(v, p) <= v.lastIncludedIndex then
        At(v'.nextIndex, p) == v.lastIncludedIndex + 1 && At(v'.matchIndex, p) == v.lastIncludedIndex
      else if Ready(c, n, p) then
        At(v'.matchIndex, p) == v.LastLogIndex()
      else
        At(v'.nextIndex, p)
          == if At(v.nextIndex, p) > v.lastIncludedIndex + 1 then At(v.nextIndex, p) - 1 else v.lastIncludedIndex
  {
    hide SystemInv, OnAppendEntries, OnInstallSnapshot, Broadcast, Ready;
    var v := c.nodes[n];
    FollowerJoins(c, n, p);
    if Probe(v, p) > v.lastIncludedIndex {
      AppendVerdict(c, n, p);
    }
  }

  /** A ready round levels the pair; any other round comes strictly closer. */
  lemma RoundProgress(c: Cluster, n: NodeId, p: NodeId)
    requires SystemInv(c) && Paired(c, n, p)
    ensures var c' := Round(c, n, p);
      && SystemInv(c') && Paired(c', n, p) && c'.nodes[n].Valid()
      && (Ready(c, n, p) ==> Level(c', n, p))
      && (!Ready(c, n, p) ==> Rank(c', n, p) < Rank(c, n, p))
  {
    hide SystemInv, NodeOk, Inv, Round, LeaderAfter, FollowerAfter;
    RoundNodes(c, n, p);
    RoundKeepsPair(c, n, p);
    RoundKeepsLog(c, n, p);
    LeaderMoves(c, n, p);
    OriginsAgree(c, n, p);
    var c' := Round(c, n, p);
    assert c'.nodes[n] == LeaderAfter(c, n, p);
    PictureHeld(c', n, p);
  }

  // ----- the bound --------------------------------------------------------

  ghost function Rounds(c: Cluster, n: NodeId, p: NodeId, k: nat): Cluster
    requires SystemInv(c) && Paired(c, n, p)
    decreases k
  {
    hide SystemInv, Round;
    if k == 0 then c
    else
      RoundKeepsPair(c, n, p);
      Rounds(Round(c, n, p), n, p, k - 1)
  }

  lemma {:induction false} RankedCatchUp(c: Cluster, n: NodeId, p: NodeId) returns (k: nat)
    requires SystemInv(c) && Paired(c, n, p)
    ensures 1 <= k <= Rank(c, n, p)
    ensures var d := Rounds(c, n, p, k);
      && SystemInv(d) && Paired(d, n, p) && d.nodes[n].Valid() && Level(d, n, p)
      && FullLog(d, n) == FullLog(c, n) && d.nodes[p].currentTerm == d.nodes[n].currentTerm
    decreases Rank(c, n, p)
  {
    hide SystemInv, Round, Rank, Level, Ready;
    RoundProgress(c, n, p);
    RoundKeepsPair(c, n, p);
    RoundKeepsLog(c, n, p);
    var c' := Round(c, n, p);
    if Ready(c, n, p) {
      k := 1;
      assert Rounds(c, n, p, 1) == Rounds(c', n, p, 0) == c';
      assert Rank(c, n, p) >= 1 by { RankPositive(c, n, p); }
    } else {
      var j := RankedCatchUp(c', n, p);
      k := j + 1;
      assert Rounds(c, n, p, k) == Rounds(c', n, p, j);
    }
  }

  lemma RankPositive(c: Cluster, n: NodeId, p: NodeId)
    requires n in c.nodes && p in c.nodes
    ensures Rank(c, n, p) >= 1
  {
  }

  /** With no new leader, proposals or leader snapshots, at most lastLogIndex - lastIncludedIndex + 3 rounds bring a
      follower level: it then agrees with the leader up to the leader's last index, and the leader knows it. */
  lemma CatchUpBound(c: Cluster, n: NodeId, p: NodeId) returns (k: nat)
    requires SystemInv(c) && Paired(c, n, p) && c.nodes[n].Valid()
    ensures k + c.nodes[n].lastIncludedIndex <= c.nodes[n].LastLogIndex() + 3
    ensures var d := Rounds(c, n, p, k);
      && n in d.nodes && d.nodes[n].Valid() && Level(d, n, p) && FullLog(d, n) == FullLog(c, n)
      && Agree(FullLog(d, p), FullLog(d, n), |FullLog(c, n)| - 1)
  {
    hide SystemInv, Inv, NodeOk;
    k := RankedCatchUp(c, n, p);
    var d := Rounds(c, n, p, k);
    PictureHeld(d, n, p);
    PairLogs(d, n, p);
    PairLogs(c, n, p);
    PairKnown(c, n, p);
    NextBound(c, n, p);
  }

  lemma NextBound(c: Cluster, n: NodeId, p: NodeId)
    requires SystemInv(c) && Paired(c, n, p) && c.nodes[n].Valid()
    ensures Probe(c.nodes[n], p) <= c.nodes[n].LastLogIndex() + 1
    ensures c.nodes[n].lastIncludedIndex <= c.nodes[n].LastLogIndex()
  {
    hide SystemInv, Inv, Safe;
    PairKnown(c, n, p);
    PairLogs(c, n, p);
    assert PeerOk(c.ledger, c.nodes[n], p, |FullLog(c, n)|);
  }

  /** The rounds are real: they extend any run that ends in the starting state. */
  lemma {:induction false} RoundsExtendRun(cs: seq<Cluster>, n: NodeId, p: NodeId, k: nat) returns (ds: seq<Cluster>)
    requires Run(cs) && SystemInv(cs[|cs| - 1]) && Paired(cs[|cs| - 1], n, p)
    ensures Run(ds) && cs <= ds && ds[|ds| - 1] == Rounds(cs[|cs| - 1], n, p, k)
    decreases k
  {
    hide SystemInv, Round;
    if k == 0 {
      ds := cs;
    } else {
      var c := cs[|cs| - 1];
      var es := RoundExtends(cs, c, n, p);
      RoundKeepsPair(c, n, p);
      ds := RoundsExtendRun(es, n, p, k - 1);
      assert ds[|ds| - 1] == Rounds(Round(c, n, p), n, p, k - 1);
    }
  }

  lemma RoundExtends(cs: seq<Cluster>, c: Cluster, n: NodeId, p: NodeId) returns (es: seq<Cluster>)
    requires Run(cs) && c == cs[|cs| - 1] && SystemInv(c) && Paired(c, n, p)
    ensures Run(es) && cs <= es && es[|es| - 1] == Round(c, n, p)
  {
    hide SystemInv, After, Enabled, Heard, Answered;
    RoundEnabled(c, n, p);
    var c1 := After(c, Heartbeat(n));
    var c2 := After(c1, Answered(c, n, p));
    es := Extend(cs, c, c1, Heartbeat(n));
    es := Extend(es, c1, c2, Answered(c, n, p));
    es := Extend(es, c2, Round(c, n, p), Heard(c, n, p));
  }

  lemma Extend(cs: seq<Cluster>, last: Cluster, c: Cluster, step: Step) returns (ds: seq<Cluster>)
    requires Run(cs) && last == cs[|cs| - 1] && Enabled(last, step) && c == After(last, step)
    ensures Run(ds) && cs <= ds && ds[|ds| - 1] == c
  {
    hide After, Enabled;
    ds := cs + [c];
    forall i | 0 <= i < |ds| - 1
      ensures Next(ds[i], ds[i + 1])
    {
      if i < |cs| - 1 { assert ds[i] == cs[i] && ds[i + 1] == cs[i + 1]; assert Next(cs[i], cs[i + 1]); }
    }
  }
}
