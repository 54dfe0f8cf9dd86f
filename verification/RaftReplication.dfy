/** Replication, commitment, snapshots and application keep the cluster invariant: first what AppendEntries and
    InstallSnapshot do to a follower and its full log, then how replies move a leader's picture and its commit index,
    then proposals, compaction and the applier, and what each of these steps does to the cluster as a whole. */
module RaftReplication {
  import opened RaftTypes
  import opened RaftLedger
  import opened RaftLedgerActions
  import opened RaftHandlers
  import opened RaftCompaction
  import opened RaftCluster
  import opened RaftInvariant
  import opened RaftElections

  // ----- follower: AppendEntries ------------------------------------------

  lemma AcceptedMoves(l: Ledger, n: NodeId, m: nat)
    requires Inv(l) && CanAccept(l, n, m)
    ensures Inv(Accepted(l, n, m)) && MovesOnly(l, Accepted(l, n, m), n)
    ensures var t := l.members[n].term;
      Accepted(l, n, m).members[n] == Member(t, Adopted(l.members[n].log, l.elected[t].log, m))
    ensures AckedTo(Accepted(l, n, m), n, l.members[n].term, m)
    ensures Accepted(l, n, m).elected == l.elected && Accepted(l, n, m).ballots == l.ballots
    ensures Accepted(l, n, m).candidacies == l.candidacies
  {
    AcceptPreserves(l, n, m);
  }

  /** Taking over a leader's log never touches what the node already knows committed. */
  lemma AdoptedKeepsCommitted(l: Ledger, n: NodeId, v: Node, m: nat)
    requires Inv(l) && NodeOk(l, n, v) && CanAccept(l, n, m)
    ensures Agree(l.members[n].log, l.elected[v.currentTerm].log, v.commitIndex)
    ensures Agree(l.members[n].log, Adopted(l.members[n].log, l.elected[v.currentTerm].log, m), v.commitIndex)
  {
    SafeInLeader(l, l.members[n].log, v.commitIndex, v.currentTerm, v.currentTerm);
  }

  /** The node a follower becomes by taking over its leader's log up to m, committing up to k. */
  lemma FollowerOk(l: Ledger, n: NodeId, v: Node, m: nat, v': Node)
    requires Inv(l) && NodeOk(l, n, v) && CanAccept(l, n, m) && !Leads(l, n, v.currentTerm)
    requires var adopted := Adopted(l.members[n].log, l.elected[v.currentTerm].log, m);
      && v'.id == v.id && v'.peers == v.peers && v'.currentTerm == v.currentTerm && v'.votedFor == v.votedFor
      && v'.role == Follower
      && Compacts(v', adopted) && IndicesOk(v', adopted)
      && (v'.commitIndex == v.commitIndex
          || (v'.commitIndex <= m && Safe(l, l.elected[v.currentTerm].log, v'.commitIndex, v.currentTerm)))
    ensures NodeOk(Accepted(l, n, m), n, v')
  {
    hide Compacts, Inv, MovesOnly;
    var l' := Accepted(l, n, m);
    var t, full, leader := v.currentTerm, l.members[n].log, l.elected[v.currentTerm].log;
    AcceptedMoves(l, n, m);
    AdoptedKeepsCommitted(l, n, v, m);
    MovesGrow(l, l', n);
    var adopted := Adopted(full, leader, m);
    if v'.commitIndex == v.commitIndex {
      SafeElsewhere(l, full, adopted, v.commitIndex, v.commitIndex, t, t);
    } else {
      SafeElsewhere(l, leader, adopted, v'.commitIndex, v'.commitIndex, t, t);
    }
    SafeGrows(l, l', adopted, v'.commitIndex, t, t);
  }

  /** What a call of the node's own term tells it about the caller's log. */
  ghost predicate Quotes(l: Ledger, n: NodeId, args: AppendEntriesArgs, m: nat) {
    && m == args.prevLogIndex + |args.entries| && args.term in l.elected && m < |l.elected[args.term].log|
    && args.prevLogTerm == l.elected[args.term].log[args.prevLogIndex].term
    && args.entries == l.elected[args.term].log[args.prevLogIndex + 1..m + 1]
    && args.leaderCommit <= m && Safe(l, l.elected[args.term].log, args.leaderCommit, args.term)
  }

  /** Trimming off what the snapshot covers quotes a shorter stretch of the same leader's log. */
  lemma TrimmedQuotes(l: Ledger, n: NodeId, v: Node, args: AppendEntriesArgs, m: nat)
    requires Inv(l) && NodeOk(l, n, v) && Quotes(l, n, args, m) && args.term == v.currentTerm
    requires args.prevLogIndex < v.lastIncludedIndex ==> |args.entries| > v.lastIncludedIndex - args.prevLogIndex
    ensures Quotes(l, n, Trimmed(v, args), m)
    ensures Trimmed(v, args).prevLogIndex >= v.lastIncludedIndex && Trimmed(v, args).term == args.term
  {
    hide RoleOk, VoteOk;
    if args.prevLogIndex < v.lastIncludedIndex {
      var full, leader := l.members[n].log, l.elected[args.term].log;
      SafeInLeader(l, full, v.commitIndex, v.currentTerm, args.term);
      assert full[v.lastIncludedIndex] == leader[v.lastIncludedIndex];
      var off := v.lastIncludedIndex - args.prevLogIndex;
      assert args.entries[off..] == leader[v.lastIncludedIndex + 1..m + 1];
    }
  }

  /** Passing the consistency check means agreeing with the leader up to there (the base of section 5.3's induction). */
  lemma ConsistencyCheck(l: Ledger, n: NodeId, v: Node, args: AppendEntriesArgs, m: nat)
    requires Inv(l) && NodeOk(l, n, v) && Quotes(l, n, args, m) && args.term == v.currentTerm
    requires args.prevLogIndex >= v.lastIncludedIndex && v.Valid()
    ensures args.prevLogIndex <= v.LastLogIndex() && v.LogTerm(args.prevLogIndex) == args.prevLogTerm
      <==> Agree(l.members[n].log, l.elected[args.term].log, args.prevLogIndex)
    ensures v.LastLogIndex() == |l.members[n].log| - 1
  {
    hide RoleOk, VoteOk, Safe;
    assert MemberOk(l, n) && MandateOk(l, args.term);
    CompactReads(v, l.members[n].log);
    var i := args.prevLogIndex;
    if 0 < i < |l.members[n].log| && l.members[n].log[i].term == args.prevLogTerm {
      LogMatching(l.elected, l.members[n].log, l.elected[args.term].log, i);
    }
  }

  lemma NodeParts(l: Ledger, n: NodeId, v: Node)
    requires Inv(l) && NodeOk(l, n, v)
    ensures n in l.ids && n in l.members && v.id == n && v.currentTerm == l.members[n].term
    ensures Compacts(v, l.members[n].log) && IndicesOk(v, l.members[n].log) && v.Valid()
    ensures Shaped(l.members[n].log, v.currentTerm) && Traced(l.elected, l.members[n].log)
    ensures Safe(l, l.members[n].log, v.commitIndex, v.currentTerm)
    ensures v.role == Leader <==> Leads(l, n, v.currentTerm)
  {
    assert MemberOk(l, n);
    CompactReads(v, l.members[n].log);
  }

  lemma MandateParts(l: Ledger, t: nat)
    requires Inv(l) && t in l.elected
    ensures Shaped(l.elected[t].log, t) && Traced(l.elected, l.elected[t].log)
    ensures var n := l.elected[t].leader;
      n in l.members && (l.members[n].term == t ==> l.members[n].log == l.elected[t].log)
  {
    assert MandateOk(l, t);
  }

  lemma ReplicateShape(l: Ledger, n: NodeId, v: Node, args: AppendEntriesArgs, m: nat)
    requires Inv(l) && NodeOk(l, n, v) && Quotes(l, n, args, m) && args.term == v.currentTerm
    requires args.prevLogIndex >= v.lastIncludedIndex && v.Valid()
    requires Agree(l.members[n].log, l.elected[args.term].log, args.prevLogIndex)
    requires Replicate(v, args).1.success
    ensures var adopted := Adopted(l.members[n].log, l.elected[args.term].log, m);
      Compacts(Replicate(v, args).0, adopted) && IndicesOk(Replicate(v, args).0, adopted)
  {
    hide NodeOk, Inv, Safe, Compact, Traced, Shaped, Merged, Adopted, Agree;
    NodeParts(l, n, v);
    var full, leader := l.members[n].log, l.elected[args.term].log;
    MandateParts(l, args.term);
    MergeRefines(v, full, l.elected, args.term, args.prevLogIndex, m);
    AdoptedKeepsCommitted(l, n, v, m);
    AdoptedReaches(full, leader, m);
    AgreeReaches(full, Adopted(full, leader, m), v.commitIndex);
  }

  lemma ReplicateOk(l: Ledger, n: NodeId, v: Node, args: AppendEntriesArgs, m: nat)
    requires Inv(l) && NodeOk(l, n, v) && Quotes(l, n, args, m) && args.term == v.currentTerm
    requires args.prevLogIndex >= v.lastIncludedIndex && v.Valid() && v.role == Follower
    ensures var (v', reply) := Replicate(v, args);
      && reply.term == v'.currentTerm == v.currentTerm
      && v'.lastApplied == v.lastApplied && v'.lastIncludedIndex == v.lastIncludedIndex && v'.role == Follower
      && (!reply.success ==> v' == v)
      && (reply.success ==> CanAccept(l, n, m) && reply.matchIndex == m && NodeOk(Accepted(l, n, m), n, v'))
  {
    hide NodeOk, Inv, Safe, Compacts, Agree, IndicesOk, Merged;
    NodeParts(l, n, v);
    ConsistencyCheck(l, n, v, args, m);
    var (v', reply) := Replicate(v, args);
    if reply.success {
      ReplicateShape(l, n, v, args, m);
      FollowerOk(l, n, v, m, v');
    }
  }

  lemma AdoptedReaches(full: Log, leader: Log, m: nat)
    requires m < |leader|
    ensures |Adopted(full, leader, m)| > m && Agree(Adopted(full, leader, m), leader, m)
  {
  }

  lemma AgreeReaches(a: Log, b: Log, i: nat)
    requires Agree(a, b, i)
    ensures i < |a| && i < |b|
  {
  }

  /** A node that hears from its term's leader follows it. */
  lemma FollowOk(l: Ledger, n: NodeId, v: Node, from: NodeId)
    requires Inv(l) && NodeOk(l, n, v) && Leads(l, from, v.currentTerm) && from != n
    ensures NodeOk(l, n, Follow(v, from)) && !Leads(l, n, v.currentTerm)
  {
    hide Safe;
  }

  lemma CallQuotes(l: Ledger, call: Call)
    requires CallOk(l, call) && call.request.Append?
    ensures var args := call.request.append;
      && Quotes(l, call.to, args, args.prevLogIndex + |args.entries|)
      && Leads(l, call.from, args.term) && args.leaderID == call.from
      && call.from != call.to
  {
  }

  /** The entries of every call in flight carry consecutive indices, as the handler's loop takes them to. */
  lemma CallContiguous(l: Ledger, call: Call)
    requires Inv(l) && CallOk(l, call) && call.request.Append?
    ensures Contiguous(call.request.append)
  {
    MandateParts(l, call.request.append.term);
  }

  /** The branch wholly inside the receiver's snapshot: its own committed prefix is the leader's. */
  lemma CoveredOk(l: Ledger, n: NodeId, v: Node, t: nat)
    requires Inv(l) && NodeOk(l, n, v) && t == v.currentTerm && t in l.elected && v.role == Follower
    ensures CanAccept(l, n, v.lastIncludedIndex) && NodeOk(Accepted(l, n, v.lastIncludedIndex), n, v)
    ensures Accepted(l, n, v.lastIncludedIndex).members[n].log == l.members[n].log
  {
    hide NodeOk, Inv, Safe, Compacts;
    NodeParts(l, n, v);
    SafeInLeader(l, l.members[n].log, v.commitIndex, t, t);
    AcceptedMoves(l, n, v.lastIncludedIndex);
    FollowerOk(l, n, v, v.lastIncludedIndex, v);
  }

  /** What AppendEntries makes of the history. */
  ghost function AppendLedger(l: Ledger, n: NodeId, v: Node, args: AppendEntriesArgs): Ledger
    requires v.Valid()
  {
    var r := Raised(l, n, args.term);
    var reply := OnAppendEntries(v, args).1;
    if reply.success then Accepted(r, n, reply.matchIndex) else r
  }

  /** A handler's outcome: sound node, sound history, and the committed part of the full log left alone. */
  ghost predicate Handles(l: Ledger, l': Ledger, n: NodeId, v: Node, v': Node) {
    && Inv(l') && MovesOnly(l, l', n) && NodeOk(l', n, v')
    && n in l.members && n in l'.members && Agree(l.members[n].log, l'.members[n].log, v.commitIndex)
    && (v'.role == Candidate ==> v.role == Candidate && v.currentTerm == v'.currentTerm)
  }

  lemma AppendInTerm(l: Ledger, n: NodeId, v: Node, call: Call)
    requires Inv(l) && NodeOk(l, n, v) && v.Valid() && CallOk(l, call) && call.request.Append? && call.to == n
    requires call.request.append.term == v.currentTerm
    ensures var l' := AppendLedger(l, n, v, call.request.append);
      var (v', reply) := OnAppendEntries(v, call.request.append);
      && Handles(l, l', n, v, v')
      && v'.lastApplied == v.lastApplied && v'.lastIncludedIndex == v.lastIncludedIndex && v'.role == Follower
      && reply.term == v'.currentTerm == v.currentTerm
      && (reply.success ==> AckedTo(l', n, v.currentTerm, reply.matchIndex))
  {
    hide NodeOk, Inv, Safe, Compacts, CallOk, IndicesOk, Replicate, Trimmed, MovesOnly, Quotes, Leads;
    var args := call.request.append;
    NodeParts(l, n, v);
    CallQuotes(l, call);
    FollowOk(l, n, v, call.from);
    var f := Follow(v, call.from);
    NodeParts(l, n, f);
    SelfMove(l, n, v);
    assert Raised(l, n, args.term) == l;
    TermElected(l, call);
    if args.prevLogIndex < f.lastIncludedIndex && |args.entries| <= f.lastIncludedIndex - args.prevLogIndex {
      CoveredOk(l, n, f, args.term);
      AcceptedMoves(l, n, f.lastIncludedIndex);
      AdoptedKeepsCommitted(l, n, f, f.lastIncludedIndex);
    } else {
      var m := args.prevLogIndex + |args.entries|;
      TrimmedQuotes(l, n, f, args, m);
      ReplicateOk(l, n, f, Trimmed(f, args), m);
      AgreeSelf(l, n, f);
      if Replicate(f, Trimmed(f, args)).1.success {
        AcceptedMoves(l, n, m);
        AdoptedKeepsCommitted(l, n, f, m);
      }
    }
  }

  lemma TermElected(l: Ledger, call: Call)
    requires CallOk(l, call) && call.request.Append?
    ensures call.request.append.term in l.elected
  {
  }

  lemma AgreeSelf(l: Ledger, n: NodeId, v: Node)
    requires NodeOk(l, n, v)
    ensures Agree(l.members[n].log, l.members[n].log, v.commitIndex)
  {
  }

  /** HandleAppendEntries, whatever the caller's term. */
  lemma AppendEntriesOk(l: Ledger, n: NodeId, v: Node, call: Call)
    requires Inv(l) && NodeOk(l, n, v) && v.Valid() && CallOk(l, call) && call.request.Append? && call.to == n
    ensures var l' := AppendLedger(l, n, v, call.request.append);
      var (v', reply) := OnAppendEntries(v, call.request.append);
      && Handles(l, l', n, v, v')
      && v'.lastApplied == v.lastApplied && v'.lastIncludedIndex == v.lastIncludedIndex
      && AppendedOk(l', call, reply)
  {
    hide NodeOk, Inv, Safe, Compacts, CallOk, IndicesOk, Replicate, Trimmed, MovesOnly, Accepted;
    var args := call.request.append;
    NodeParts(l, n, v);
    SelfMove(l, n, v);
    AgreeSelf(l, n, v);
    var w, r := Observe(v, args.term), Raised(l, n, args.term);
    if args.term >= v.currentTerm {
      ObserveOk(l, n, v, args.term);
      MovesGrow(l, r, n);
      CallGrows(l, r, call);
      NodeParts(r, n, w);
      AppendInTerm(r, n, w, call);
      var l' := AppendLedger(r, n, w, args);
      assert Raised(r, n, args.term) == r;
      assert OnAppendEntries(w, args) == OnAppendEntries(v, args);
      MovesOnlyTransitive(l, r, l', n);
      NodeParts(l', n, OnAppendEntries(v, args).0);
    }
  }

  // ----- moves that may change the log ------------------------------------

  lemma HandedAgrees(a: Log, b: Log, k: nat, skipped: set<nat>)
    requires Agree(a, b, k)
    ensures Handed(a, k, skipped) == Handed(b, k, skipped)
  {
    if k > 0 { HandedAgrees(a, b, k - 1, skipped); }
  }

  /** Later skips do not change what was handed over. */
  lemma HandedStable(full: Log, k: nat, s: set<nat>, s': set<nat>)
    requires k < |full| && forall i :: 0 < i <= k ==> (i in s <==> i in s')
    ensures Handed(full, k, s) == Handed(full, k, s')
  {
    if k > 0 { HandedStable(full, k - 1, s, s'); }
  }

  /** Skipping a whole stretch hands over nothing more. */
  lemma HandedSkips(full: Log, k: nat, k': nat, s: set<nat>)
    requires k <= k' < |full| && forall i :: k < i <= k' ==> i in s
    ensures Handed(full, k', s) == Handed(full, k, s)
  {
    if k < k' { HandedSkips(full, k, k' - 1, s); }
  }

  /** A node's deliveries stay exact when a snapshot moves lastApplied and the log keeps its committed part. */
  lemma DeliveryJumps(v: Node, v': Node, full: Log, full': Log, delivered: Log, skipped: set<nat>)
    requires DeliveryOk(v, full, delivered, skipped) && Agree(full, full', v.lastApplied)
    requires v.lastIncludedIndex <= v'.lastIncludedIndex && v.lastApplied <= v'.lastApplied < |full'|
    requires v'.lastApplied > v.lastApplied ==> v'.lastApplied == v'.lastIncludedIndex
    requires v.lastIncludedIndex <= v.lastApplied
    ensures DeliveryOk(v', full', delivered, skipped + Jumped(v, v'))
  {
    HandedAgrees(full, full', v.lastApplied, skipped);
    HandedStable(full', v.lastApplied, skipped, skipped + Jumped(v, v'));
    HandedSkips(full', v.lastApplied, v'.lastApplied, skipped + Jumped(v, v'));
  }

  /** A move of one node that keeps its committed log, perhaps jumping lastApplied by a snapshot. */
  lemma LogMove(c: Cluster, c': Cluster, v': Node)
    requires SystemInv(c) && v'.id in c.ledger.ids && v'.id in c.nodes
    requires Handles(c.ledger, c'.ledger, v'.id, c.nodes[v'.id], v')
    requires c'.nodes == c.nodes[v'.id := v'] && c'.loops == c.loops && c'.rounds == c.rounds
    requires c'.delivered == c.delivered && c'.elections == c.elections && c'.polls == c.polls
    requires v'.id in c.skipped && c'.skipped == c.skipped[v'.id := c.skipped[v'.id] + Jumped(c.nodes[v'.id], v')]
    requires var v := c.nodes[v'.id];
      v.lastIncludedIndex <= v'.lastIncludedIndex && v.lastApplied <= v'.lastApplied
      && (v'.lastApplied > v.lastApplied ==> v'.lastApplied == v'.lastIncludedIndex)
    requires forall call {:trigger CallOk(c'.ledger, call)} :: call in c'.calls && call !in c.calls ==>
      CallOk(c'.ledger, call)
    requires forall a {:trigger AnswerOk(c'.ledger, a)} :: a in c'.answers && a !in c.answers ==> AnswerOk(c'.ledger, a)
    ensures SystemInv(c') && Grows(c.ledger, c'.ledger)
  {
    hide NodeOk, CallOk, AnswerOk, TallyOk, Inv, MovesOnly, DeliveryOk, Agree;
    var n := v'.id;
    var v := c.nodes[n];
    assert NodeHolds(c, n);
    assert DeliveryOk(v', c'.ledger.members[n].log, c'.delivered[n], c'.skipped[n]) by {
      NodeParts(c.ledger, n, v);
      NodeParts(c'.ledger, n, v');
      AgreeBelow(c.ledger.members[n].log, c'.ledger.members[n].log, v.commitIndex, v.lastApplied);
      DeliveryJumps(v, v', c.ledger.members[n].log, c'.ledger.members[n].log, c.delivered[n], c.skipped[n]);
    }
    assert NodeHolds(c', n);
    MovePreserves(c, c', n);
  }

  lemma AgreeBelow(a: Log, b: Log, i: nat, j: nat)
    requires Agree(a, b, i) && j <= i
    ensures Agree(a, b, j)
  {
  }

  lemma SameSkips(v: Node, v': Node, s: set<nat>)
    requires v'.lastApplied == v.lastApplied
    ensures s + Jumped(v, v') == s
  {
  }

  lemma AnswerAppendPreserves(c: Cluster, call: Call)
    requires SystemInv(c) && Enabled(c, AnswerAppend(call))
    ensures SystemInv(After(c, AnswerAppend(call))) && Grows(c.ledger, After(c, AnswerAppend(call)).ledger)
  {
    hide NodeOk, Inv, CallOk, AnswerOk, TallyOk, Raised, Accepted, AppendedOk, OnAppendEntries, Handles, MovesOnly;
    var n := call.to;
    KnownNode(c, n);
    assert CallOk(c.ledger, call);
    var v := c.nodes[n];
    AppendEntriesOk(c.ledger, n, v, call);
    var c' := AnsweredAppend(c, call);
    var (v', reply) := OnAppendEntries(v, call.request.append);
    HandlesParts(c.ledger, c'.ledger, n, v, v');
    CallGrows(c.ledger, c'.ledger, call);
    AnswerWhole(c'.ledger, Answer(call, Appended(reply)));
    SameSkips(v, v', c.skipped[n]);
    assert c'.skipped == c.skipped[n := c.skipped[n]];
    LogMove(c, c', v');
  }

  lemma HandlesParts(l: Ledger, l': Ledger, n: NodeId, v: Node, v': Node)
    requires Handles(l, l', n, v, v')
    ensures Grows(l, l') && v'.id == n && NodeOk(l', n, v')
  {
  }

  lemma AnswerWhole(l: Ledger, a: Answer)
    requires CallOk(l, a.call)
    requires match a.reply
      case Voted(reply) => VotedOk(l, a.call, reply)
      case Appended(reply) => AppendedOk(l, a.call, reply)
      case Installed(reply) => InstalledOk(l, a.call, reply)
    ensures AnswerOk(l, a)
  {
  }

  // ----- follower: InstallSnapshot ----------------------------------------

  ghost predicate Names(l: Ledger, args: InstallSnapshotArgs) {
    && args.term in l.elected && 0 < args.lastIncludedIndex < |l.elected[args.term].log|
    && args.lastIncludedTerm == l.elected[args.term].log[args.lastIncludedIndex].term
    && Safe(l, l.elected[args.term].log, args.lastIncludedIndex, args.term)
  }

  lemma CallNames(l: Ledger, call: Call)
    requires CallOk(l, call) && call.request.Install?
    ensures var args := call.request.install;
      Names(l, args) && Leads(l, call.from, args.term) && args.leaderID == call.from && call.from != call.to
  {
  }

  /** The handler's own test for keeping the log's tail is agreement with the leader at the snapshot's index. */
  lemma SnapshotCheck(l: Ledger, n: NodeId, v: Node, args: InstallSnapshotArgs)
    requires Inv(l) && NodeOk(l, n, v) && v.Valid() && Names(l, args) && args.term == v.currentTerm
    requires args.lastIncludedIndex > v.lastIncludedIndex
    ensures args.lastIncludedIndex <= v.LastLogIndex() && v.LogTerm(args.lastIncludedIndex) == args.lastIncludedTerm
      <==> Agree(l.members[n].log, l.elected[args.term].log, args.lastIncludedIndex)
  {
    hide NodeOk, Inv, Safe;
    NodeParts(l, n, v);
    MandateParts(l, args.term);
    CompactReads(v, l.members[n].log);
    var i := args.lastIncludedIndex;
    if i < |l.members[n].log| && l.members[n].log[i].term == args.lastIncludedTerm {
      LogMatching(l.elected, l.members[n].log, l.elected[args.term].log, i);
    }
  }

  lemma InstallCompacts(l: Ledger, n: NodeId, v: Node, args: InstallSnapshotArgs)
    requires Inv(l) && NodeOk(l, n, v) && v.Valid() && Names(l, args) && args.term == v.currentTerm
    requires Compacts(v, l.members[n].log)
    ensures var adopted := Adopted(l.members[n].log, l.elected[args.term].log, args.lastIncludedIndex);
      Compacts(OnInstallSnapshot(v, args).0, adopted)
  {
    hide NodeOk, Inv, Safe, Traced, Shaped, IndicesOk, Compact;
    NodeParts(l, n, v);
    var full, leader, i := l.members[n].log, l.elected[args.term].log, args.lastIncludedIndex;
    if i > v.lastIncludedIndex {
      SnapshotCheck(l, n, v, args);
      if Agree(full, leader, i) {
        var f := Follow(v, args.leaderID);
        CutCompacts(f, full, i);
        assert leader[i] == full[i];
      } else {
        AnchorAlone(leader, i);
      }
    } else {
      AdoptedKeepsCommitted(l, n, v, i);
      IndexOrder(v, full);
      AgreeBelow(full, leader, v.commitIndex, i);
    }
  }

  lemma IndexOrder(v: Node, full: Log)
    requires IndicesOk(v, full)
    ensures v.lastIncludedIndex <= v.lastApplied <= v.commitIndex < |full|
  {
  }

  lemma AnchorAlone(log: Log, i: nat)
    requires i < |log|
    ensures Compact(log[..i + 1], i) == [Entry(i, log[i].term, Nil)]
  {
  }

  lemma InstallShape(l: Ledger, n: NodeId, v: Node, args: InstallSnapshotArgs)
    requires Inv(l) && NodeOk(l, n, v) && v.Valid() && Names(l, args) && args.term == v.currentTerm
    ensures var adopted := Adopted(l.members[n].log, l.elected[args.term].log, args.lastIncludedIndex);
      var v' := OnInstallSnapshot(v, args).0;
      && Compacts(v', adopted) && IndicesOk(v', adopted)
      && v'.lastIncludedIndex >= v.lastIncludedIndex && v'.lastApplied >= v.lastApplied
      && (v'.lastApplied > v.lastApplied ==> v'.lastApplied == v'.lastIncludedIndex)
  {
    hide NodeOk, Inv, Safe, Compacts, CutAt;
    NodeParts(l, n, v);
    InstallCompacts(l, n, v, args);
    AdoptedKeepsCommitted(l, n, v, args.lastIncludedIndex);
    AdoptedReaches(l.members[n].log, l.elected[args.term].log, args.lastIncludedIndex);
  }

  ghost function InstallLedger(l: Ledger, n: NodeId, v: Node, args: InstallSnapshotArgs): Ledger {
    var r := Raised(l, n, args.term);
    if args.term >= v.currentTerm then Accepted(r, n, args.lastIncludedIndex) else r
  }

  ghost predicate Jumps(v: Node, v': Node) {
    && v.lastIncludedIndex <= v'.lastIncludedIndex && v.lastApplied <= v'.lastApplied
    && (v'.lastApplied > v.lastApplied ==> v'.lastApplied == v'.lastIncludedIndex)
  }

  lemma InstallInTerm(l: Ledger, n: NodeId, v: Node, call: Call)
    requires Inv(l) && NodeOk(l, n, v) && v.Valid() && CallOk(l, call) && call.request.Install? && call.to == n
    requires call.request.install.term == v.currentTerm
    ensures var l' := InstallLedger(l, n, v, call.request.install);
      var v' := OnInstallSnapshot(v, call.request.install).0;
      && Handles(l, l', n, v, v') && Jumps(v, v')
      && AckedTo(l', n, v.currentTerm, call.request.install.lastIncludedIndex)
  {
    hide NodeOk, Inv, Safe, Compacts, CallOk, IndicesOk, MovesOnly;
    var args := call.request.install;
    var i := args.lastIncludedIndex;
    NodeParts(l, n, v);
    CallNames(l, call);
    FollowOk(l, n, v, call.from);
    InstallShape(l, n, v, args);
    AcceptedMoves(l, n, i);
    AdoptedKeepsCommitted(l, n, v, i);
    FollowerOk(l, n, v, i, OnInstallSnapshot(v, args).0);
  }

  /** HandleInstallSnapshot, whatever the caller's term. */
  lemma InstallSnapshotOk(l: Ledger, n: NodeId, v: Node, call: Call)
    requires Inv(l) && NodeOk(l, n, v) && v.Valid() && CallOk(l, call) && call.request.Install? && call.to == n
    ensures var l' := InstallLedger(l, n, v, call.request.install);
      var (v', reply) := OnInstallSnapshot(v, call.request.install);
      && Handles(l, l', n, v, v') && Jumps(v, v')
      && InstalledOk(l', call, reply)
  {
    hide NodeOk, Inv, Safe, Compacts, CallOk, IndicesOk, MovesOnly, Accepted;
    var args := call.request.install;
    NodeParts(l, n, v);
    SelfMove(l, n, v);
    AgreeSelf(l, n, v);
    if args.term >= v.currentTerm {
      var w, r := Observe(v, args.term), Raised(l, n, args.term);
      ObserveOk(l, n, v, args.term);
      MovesGrow(l, r, n);
      CallGrows(l, r, call);
      NodeParts(r, n, w);
      InstallInTerm(r, n, w, call);
      var l' := InstallLedger(r, n, w, args);
      assert Raised(r, n, args.term) == r;
      assert OnInstallSnapshot(w, args).0 == OnInstallSnapshot(v, args).0;
      MovesOnlyTransitive(l, r, l', n);
      MovesGrow(r, l', n);
      NodeParts(l', n, OnInstallSnapshot(v, args).0);
    }
  }

  lemma AnswerInstallPreserves(c: Cluster, call: Call)
    requires SystemInv(c) && Enabled(c, AnswerInstall(call))
    ensures SystemInv(After(c, AnswerInstall(call))) && Grows(c.ledger, After(c, AnswerInstall(call)).ledger)
  {
    hide NodeOk, Inv, CallOk, AnswerOk, TallyOk, Raised, Accepted, InstalledOk, OnInstallSnapshot, Handles, MovesOnly;
    var n := call.to;
    KnownNode(c, n);
    assert CallOk(c.ledger, call);
    var v := c.nodes[n];
    InstallSnapshotOk(c.ledger, n, v, call);
    var c' := AnsweredInstall(c, call);
    var (v', reply) := OnInstallSnapshot(v, call.request.install);
    HandlesParts(c.ledger, c'.ledger, n, v, v');
    CallGrows(c.ledger, c'.ledger, call);
    AnswerWhole(c'.ledger, Answer(call, Installed(reply)));
    LogMove(c, c', v');
  }

  // ----- leader: replies, commitment, proposals ---------------------------

  lemma HeartbeatPreserves(c: Cluster, n: NodeId)
    requires SystemInv(c) && Enabled(c, Heartbeat(n))
    ensures SystemInv(After(c, Heartbeat(n))) && Grows(c.ledger, After(c, Heartbeat(n)).ledger)
  {
    hide NodeOk, Inv, CallOk, AnswerOk, TallyOk, MovesOnly;
    KnownNode(c, n);
    var v := c.nodes[n];
    BroadcastOk(c.ledger, n, v);
    SelfMove(c.ledger, n, v);
    QuietMove(c, Beaten(c, n), v);
  }

  /** A leader's new picture of one peer, still no rosier than the peer's acknowledgements. */
  lemma PictureOk(l: Ledger, n: NodeId, v: Node, p: NodeId, next: nat, matched: nat, v': Node)
    requires NodeOk(l, n, v) && v.role == Leader
    requires v' == v.(nextIndex := v.nextIndex[p := next], matchIndex := v.matchIndex[p := matched])
    requires next <= |l.members[n].log|
    requires matched == At(v.matchIndex, p) || AckedTo(l, p, v.currentTerm, matched)
    ensures p in v.peers ==> NodeOk(l, n, v')
  {
    hide Compacts, Safe;
    if p in v.peers {
      assert PeerOk(l, v, p, |l.members[n].log|);
      forall q | q in v.peers ensures PeerOk(l, v', q, |l.members[n].log|) {
        assert PeerOk(l, v, q, |l.members[n].log|);
      }
      assert Compacts(v', l.members[n].log) by { CompactsSame(v, v', l.members[n].log); }
    }
  }

  lemma CompactsSame(v: Node, v': Node, full: Log)
    requires Compacts(v, full)
    requires v'.log == v.log && v'.lastIncludedIndex == v.lastIncludedIndex && v'.lastIncludedTerm == v.lastIncludedTerm
    ensures Compacts(v', full)
  {
  }

  lemma AckBound(l: Ledger, n: NodeId, v: Node, p: NodeId, m: nat)
    requires Inv(l) && NodeOk(l, n, v) && v.role == Leader && AckedTo(l, p, v.currentTerm, m)
    ensures m < |l.members[n].log|
  {
    hide Compacts, Safe;
    assert AckOk(l, Slot(p, v.currentTerm));
    assert MandateOk(l, v.currentTerm);
  }

  /** The peers counted as matching index i. */
  ghost function Matchers(v: Node, peers: seq<NodeId>, i: nat): set<NodeId> {
    set p | p in peers && At(v.matchIndex, p) >= i
  }

  lemma MatchingCounts(v: Node, peers: seq<NodeId>, i: nat)
    requires forall a, b :: 0 <= a < b < |peers| ==> peers[a] != peers[b]
    ensures |Matchers(v, peers, i)| == Matching(v, peers, i)
  {
    if peers != [] {
      var front, last := peers[..|peers| - 1], peers[|peers| - 1];
      MatchingCounts(v, front, i);
      MatchersStep(v, peers, i);
    }
  }

  lemma MatchersStep(v: Node, peers: seq<NodeId>, i: nat)
    requires peers != [] && forall a, b :: 0 <= a < b < |peers| ==> peers[a] != peers[b]
    ensures var front, last := peers[..|peers| - 1], peers[|peers| - 1];
      && last !in Matchers(v, front, i)
      && Matchers(v, peers, i) == Matchers(v, front, i) + (if At(v.matchIndex, last) >= i then {last} else {})
  {
    var front := peers[..|peers| - 1];
    assert peers == front + [peers[|peers| - 1]];
  }

  /** The engine's counting rule finds a majority that acknowledged the index: what it commits is committed. */
  lemma ElectableCommitted(l: Ledger, n: NodeId, v: Node, i: nat)
    requires Inv(l) && NodeOk(l, n, v) && v.role == Leader && v.commitIndex < i < |l.members[n].log|
    requires Electable(v, i)
    ensures Committed(l, v.currentTerm, i) && Safe(l, l.members[n].log, i, v.currentTerm)
  {
    var t, full := v.currentTerm, l.members[n].log;
    NodeParts(l, n, v);
    MandateParts(l, t);
    CompactReads(v, full);
    MatchingCounts(v, v.peers, i);
    ClusterSize(v.peers, n, l.ids);
    var q := Matchers(v, v.peers, i) + {n};
    QuorumAcked(l, n, v, i, q);
    assert AckQuorum(l, q, t, i);
    assert Vouches(l, full, i, t, i);
  }

  lemma QuorumAcked(l: Ledger, n: NodeId, v: Node, i: nat, q: set<NodeId>)
    requires NodeOk(l, n, v) && v.role == Leader && v.commitIndex < i < |l.members[n].log|
    requires q == Matchers(v, v.peers, i) + {n}
    ensures q <= l.ids && |q| == |Matchers(v, v.peers, i)| + 1
    ensures forall p :: p in q ==> AckedTo(l, p, v.currentTerm, i)
  {
    hide Compacts, Safe;
    forall p | p in q
      ensures p in l.ids && AckedTo(l, p, v.currentTerm, i) && (p == n || p in Matchers(v, v.peers, i))
    {
      if p != n {
        PeerIsOther(v.peers, n, l.ids, p);
        assert PeerOk(l, v, p, |l.members[n].log|);
      }
    }
    assert n !in Matchers(v, v.peers, i) by {
      if n in v.peers { PeerIsOther(v.peers, n, l.ids, n); }
    }
  }

  lemma CommitRaised(l: Ledger, n: NodeId, v: Node, i: nat)
    requires NodeOk(l, n, v) && v.commitIndex <= i < |l.members[n].log| && Safe(l, l.members[n].log, i, v.currentTerm)
    ensures NodeOk(l, n, v.(commitIndex := i))
  {
    hide Safe;
    var v' := v.(commitIndex := i);
    assert Compacts(v', l.members[n].log);
    if v.role == Leader {
      forall q | q in v.peers ensures PeerOk(l, v', q, |l.members[n].log|) {
        assert PeerOk(l, v, q, |l.members[n].log|);
      }
    }
  }

  lemma AdvanceOk(l: Ledger, n: NodeId, v: Node)
    requires Inv(l) && NodeOk(l, n, v) && v.Valid() && v.role == Leader
    ensures var (v', out) := AdvanceCommit(v);
      NodeOk(l, n, v') && (forall call :: call in Sent(n, out) ==> CallOk(l, call))
      && v'.lastApplied == v.lastApplied && v'.lastIncludedIndex == v.lastIncludedIndex && v'.role == Leader
  {
    hide NodeOk, Inv, CallOk, Safe, Electable;
    NodeParts(l, n, v);
    CompactReads(v, l.members[n].log);
    var i := QuorumIndex(v, v.LastLogIndex());
    if i > v.commitIndex {
      ElectableCommitted(l, n, v, i);
      CommitRaised(l, n, v, i);
      BroadcastOk(l, n, v.(commitIndex := i));
    }
  }

  lemma AppendReplyOk(l: Ledger, n: NodeId, v: Node, call: Call, reply: AppendEntriesReply)
    requires Inv(l) && NodeOk(l, n, v) && v.Valid() && CallOk(l, call) && call.request.Append? && call.from == n
    requires AppendedOk(l, call, reply) && call.to in v.peers
    ensures var (v', out) := OnAppendReply(v, call.to, call.request.append.term, reply);
      var l' := Raised(l, n, reply.term);
      && Inv(l') && MovesOnly(l, l', n) && NodeOk(l', n, v')
      && n in l.members && n in l'.members && l'.members[n].log == l.members[n].log
      && (forall c :: c in Sent(n, out) ==> CallOk(l', c))
      && v'.lastApplied == v.lastApplied && v'.lastIncludedIndex == v.lastIncludedIndex
      && (v'.role == Candidate ==> v.role == Candidate && v.currentTerm == v'.currentTerm)
  {
    hide NodeOk, Inv, CallOk, Safe, Compacts, MovesOnly, AdvanceCommit;
    NodeParts(l, n, v);
    SelfMove(l, n, v);
    var p := call.to;
    if reply.term > v.currentTerm {
      ObserveOk(l, n, v, reply.term);
    } else if v.role == Leader && v.currentTerm == call.request.append.term {
      if reply.success {
        AckBound(l, n, v, p, reply.matchIndex);
        var w := v.(nextIndex := v.nextIndex[p := reply.matchIndex + 1],
                    matchIndex := v.matchIndex[p := reply.matchIndex]);
        PictureOk(l, n, v, p, reply.matchIndex + 1, reply.matchIndex, w);
        NodeParts(l, n, w);
        AdvanceOk(l, n, w);
      } else {
        BackOff(l, n, v, p);
      }
    }
  }

  /** A refusal moves the next index back one, or into the compacted part. */
  lemma BackOff(l: Ledger, n: NodeId, v: Node, p: NodeId)
    requires Inv(l) && NodeOk(l, n, v) && v.role == Leader && p in v.peers
    ensures var at := At(v.nextIndex, p);
      var next := if at > v.lastIncludedIndex + 1 then at - 1 else v.lastIncludedIndex;
      NodeOk(l, n, v.(nextIndex := v.nextIndex[p := next]))
  {
    hide Safe, Inv;
    var v' := v.(nextIndex := v.nextIndex[p :=
      if At(v.nextIndex, p) > v.lastIncludedIndex + 1 then At(v.nextIndex, p) - 1 else v.lastIncludedIndex]);
    forall q | q in v.peers ensures PeerOk(l, v', q, |l.members[n].log|) {
      assert PeerOk(l, v, q, |l.members[n].log|);
    }
    CompactsSame(v, v', l.members[n].log);
  }

  lemma TargetIsPeer(c: Cluster, call: Call)
    requires SystemInv(c) && CallOk(c.ledger, call) && call.from in c.nodes
    ensures call.to in c.nodes[call.from].peers
  {
    assert NodeHolds(c, call.from);
    assert call.to in c.ledger.ids - {call.from};
    assert PeersOk(c.nodes[call.from].peers, call.from, c.ledger.ids);
  }

  lemma HearAppendPreserves(c: Cluster, a: Answer)
    requires SystemInv(c) && Enabled(c, HearAppend(a))
    ensures SystemInv(After(c, HearAppend(a))) && Grows(c.ledger, After(c, HearAppend(a)).ledger)
  {
    hide NodeOk, Inv, CallOk, AnswerOk, TallyOk, Raised, AppendedOk, OnAppendReply, MovesOnly;
    var n := a.call.from;
    KnownNode(c, n);
    assert AnswerOk(c.ledger, a);
    AnswerParts(c.ledger, a);
    TargetIsPeer(c, a.call);
    var v := c.nodes[n];
    AppendReplyOk(c.ledger, n, v, a.call, a.reply.append);
    var v' := OnAppendReply(v, a.call.to, a.call.request.append.term, a.reply.append).0;
    NodeTerm(HeardAppend(c, a).ledger, n, v');
    QuietMove(c, HeardAppend(c, a), v');
  }

  lemma InstallReplyOk(l: Ledger, n: NodeId, v: Node, call: Call, reply: InstallSnapshotReply)
    requires Inv(l) && NodeOk(l, n, v) && CallOk(l, call) && call.request.Install? && call.from == n
    requires InstalledOk(l, call, reply) && call.to in v.peers
    ensures var args := call.request.install; var l' := Raised(l, n, reply.term);
      var v' := OnInstallReply(v, call.to, args.term, args.lastIncludedIndex, reply);
      && Inv(l') && MovesOnly(l, l', n) && NodeOk(l', n, v')
      && n in l.members && n in l'.members && l'.members[n].log == l.members[n].log
      && v'.lastApplied == v.lastApplied && v'.lastIncludedIndex == v.lastIncludedIndex
      && (v'.role == Candidate ==> v.role == Candidate && v.currentTerm == v'.currentTerm)
  {
    hide NodeOk, Inv, CallOk, Safe, Compacts, MovesOnly;
    var args := call.request.install;
    NodeParts(l, n, v);
    SelfMove(l, n, v);
    var p, sent := call.to, args.lastIncludedIndex;
    if reply.term > v.currentTerm {
      ObserveOk(l, n, v, reply.term);
    } else if v.role == Leader && v.currentTerm == args.term && sent >= At(v.nextIndex, p) {
      AckBound(l, n, v, p, sent);
      var w := v.(nextIndex := v.nextIndex[p := sent + 1], matchIndex := v.matchIndex[p := sent]);
      PictureOk(l, n, v, p, sent + 1, sent, w);
    }
  }

  lemma HearInstallPreserves(c: Cluster, a: Answer)
    requires SystemInv(c) && Enabled(c, HearInstall(a))
    ensures SystemInv(After(c, HearInstall(a))) && Grows(c.ledger, After(c, HearInstall(a)).ledger)
  {
    hide NodeOk, Inv, CallOk, AnswerOk, TallyOk, Raised, InstalledOk, OnInstallReply, MovesOnly;
    var n := a.call.from;
    KnownNode(c, n);
    assert AnswerOk(c.ledger, a);
    AnswerParts(c.ledger, a);
    TargetIsPeer(c, a.call);
    var v, args := c.nodes[n], a.call.request.install;
    InstallReplyOk(c.ledger, n, v, a.call, a.reply.install);
    var v' := OnInstallReply(v, a.call.to, args.term, args.lastIncludedIndex, a.reply.install);
    NodeTerm(HeardInstall(c, a).ledger, n, v');
    QuietMove(c, HeardInstall(c, a), v');
  }

  lemma ExtendedMoves(l: Ledger, n: NodeId, e: Entry)
    requires Inv(l) && CanAppend(l, n, e)
    ensures var l' := Extended(l, n, e); var t := l.members[n].term;
      && Inv(l') && MovesOnly(l, l', n)
      && n in l'.members && l'.members[n] == Member(t, l.members[n].log + [e])
      && t in l'.elected && l'.elected[t].log == l'.members[n].log && l'.elected[t].leader == n
      && Slot(n, t) in l'.acked && l'.acked[Slot(n, t)] == |l.members[n].log|
      && l'.ballots == l.ballots
  {
    AppendPreserves(l, n, e);
    AppendGrows(l, n, e);
  }

  lemma ProposedNode(l: Ledger, l': Ledger, n: NodeId, v: Node, v': Node, e: Entry)
    requires NodeOk(l, n, v) && v.role == Leader && MovesOnly(l, l', n)
    requires v' == v.(log := v.log + [e])
    requires n in l'.members && l'.members[n] == Member(v.currentTerm, l.members[n].log + [e])
    requires Leads(l', n, v.currentTerm) && Slot(n, v.currentTerm) in l'.acked
    requires l'.acked[Slot(n, v.currentTerm)] == |l.members[n].log| && l'.ballots == l.ballots
    ensures NodeOk(l', n, v')
  {
    hide Safe, Grows;
    var full := l.members[n].log;
    SafeMoves(l, l', n, full, v.commitIndex, v.currentTerm);
    SafeElsewhere(l', full, full + [e], v.commitIndex, v.commitIndex, v.currentTerm, v.currentTerm);
    forall q | q in v.peers ensures PeerOk(l', v', q, |full| + 1) {
      assert PeerOk(l, v, q, |full|);
      AckMoves(l, l', n, q, v.currentTerm);
    }
    assert Compacts(v', full + [e]);
    MovesGrow(l, l', n);
    GrowsIds(l, l');
  }

  lemma GrowsIds(l: Ledger, l': Ledger)
    ensures Grows(l, l') ==> l'.ids == l.ids
  {
  }

  lemma SafeMoves(l: Ledger, l': Ledger, n: NodeId, log: Log, c: nat, t: nat)
    requires MovesOnly(l, l', n) && Safe(l, log, c, t)
    ensures Safe(l', log, c, t)
  {
    SafeGrows(l, l', log, c, t, t);
  }

  lemma AckMoves(l: Ledger, l': Ledger, n: NodeId, q: NodeId, t: nat)
    requires MovesOnly(l, l', n)
    ensures Slot(q, t) in l.acked ==> Slot(q, t) in l'.acked && l.acked[Slot(q, t)] <= l'.acked[Slot(q, t)]
  {
  }

  lemma ProposedOk(l: Ledger, n: NodeId, v: Node, payload: Payload)
    requires Inv(l) && NodeOk(l, n, v) && v.Valid() && v.role == Leader
    ensures var v' := Proposed(v, payload); var e := v'.log[|v'.log| - 1]; var l' := Extended(l, n, e);
      && n in l.members && e == Entry(|l.members[n].log|, v.currentTerm, payload)
      && Inv(l') && MovesOnly(l, l', n) && NodeOk(l', n, v')
      && n in l'.members && l'.members[n].log == l.members[n].log + [e]
      && v.currentTerm in l'.elected && l'.elected[v.currentTerm].log == l'.members[n].log
  {
    hide Inv, Safe, Traced, Shaped, NodeOk, MovesOnly, Compacts, Extended;
    NodeParts(l, n, v);
    CompactReads(v, l.members[n].log);
    var v' := Proposed(v, payload);
    var e := v'.log[|v'.log| - 1];
    ExtendedMoves(l, n, e);
    ProposedNode(l, Extended(l, n, e), n, v, v', e);
  }

  lemma ProposePreserves(c: Cluster, n: NodeId, payload: Payload)
    requires SystemInv(c) && Enabled(c, ProposeEntry(n, payload))
    ensures SystemInv(After(c, ProposeEntry(n, payload))) && Grows(c.ledger, After(c, ProposeEntry(n, payload)).ledger)
  {
    hide NodeOk, Inv, CallOk, AnswerOk, TallyOk, MovesOnly, Extended, Agree, Broadcast, Grows, DeliveryOk;
    KnownNode(c, n);
    var v := c.nodes[n];
    var c' := ProposedEntry(c, n, payload);
    var v' := Proposed(v, payload);
    ProposedOk(c.ledger, n, v, payload);
    BroadcastOk(c'.ledger, n, v');
    NodeParts(c.ledger, n, v);
    AgreeAppended(c.ledger.members[n].log, v'.log[|v'.log| - 1], v.commitIndex);
    SameSkips(v, v', c.skipped[n]);
    assert c'.skipped == c.skipped[n := c.skipped[n]];
    LogMove(c, c', v');
  }

  lemma AgreeAppended(a: Log, e: Entry, i: nat)
    requires i < |a|
    ensures Agree(a, a + [e], i)
  {
  }

  lemma CompactionOk(l: Ledger, n: NodeId, v: Node, idx: nat, data: State)
    requires Inv(l) && NodeOk(l, n, v)
    ensures NodeOk(l, n, OnTakeSnapshot(v, idx, data)) && Jumps(v, OnTakeSnapshot(v, idx, data))
  {
    hide Safe, Inv;
    NodeParts(l, n, v);
    var v', full := OnTakeSnapshot(v, idx, data), l.members[n].log;
    TakeSnapshotRefines(v, full, idx, data);
    forall q | q in v.peers && v.role == Leader ensures PeerOk(l, v', q, |full|) {
      assert PeerOk(l, v, q, |full|);
    }
  }

  lemma CompactionPreserves(c: Cluster, n: NodeId, idx: nat, data: State)
    requires SystemInv(c) && Enabled(c, Compaction(n, idx, data))
    ensures SystemInv(After(c, Compaction(n, idx, data))) && Grows(c.ledger, After(c, Compaction(n, idx, data)).ledger)
  {
    hide NodeOk, Inv, CallOk, AnswerOk, TallyOk, Agree;
    KnownNode(c, n);
    var v := c.nodes[n];
    CompactionOk(c.ledger, n, v, idx, data);
    SelfMove(c.ledger, n, v);
    AgreeSelf(c.ledger, n, v);
    LogMove(c, Compacted(c, n, idx, data), OnTakeSnapshot(v, idx, data));
  }

  // ----- applying ---------------------------------------------------------

  /** The applier hands over exactly the next stretch of the full log. */
  lemma DeliveriesExtend(v: Node, full: Log, from: nat, to: nat, skipped: set<nat>)
    requires Compacts(v, full) && v.lastIncludedIndex <= from <= to < |full|
    requires forall i :: i in skipped ==> i <= v.lastIncludedIndex
    ensures Handed(full, to, skipped) == Handed(full, from, skipped) + Deliveries(v, from, to)
  {
    if from < to {
      DeliveriesExtend(v, full, from, to - 1, skipped);
    }
  }

  lemma DeliverNode(l: Ledger, n: NodeId, v: Node)
    requires Inv(l) && NodeOk(l, n, v)
    ensures NodeOk(l, n, Applied(v).0) && Applied(v).0.lastApplied == v.commitIndex
  {
    hide Safe, Inv;
    var v' := Applied(v).0;
    CompactsSame(v, v', l.members[n].log);
    forall q | q in v.peers && v.role == Leader ensures PeerOk(l, v', q, |l.members[n].log|) {
      assert PeerOk(l, v, q, |l.members[n].log|);
    }
  }

  lemma DeliveryAdvances(l: Ledger, n: NodeId, v: Node, delivered: Log, skipped: set<nat>)
    requires Inv(l) && NodeOk(l, n, v) && DeliveryOk(v, l.members[n].log, delivered, skipped)
    ensures DeliveryOk(Applied(v).0, l.members[n].log, delivered + Applied(v).1, skipped)
  {
    hide NodeOk, Inv, Compacts, Safe;
    NodeParts(l, n, v);
    DeliveriesExtend(v, l.members[n].log, v.lastApplied, v.commitIndex, skipped);
  }

  lemma DeliverPreserves(c: Cluster, n: NodeId)
    requires SystemInv(c) && Enabled(c, Deliver(n))
    ensures SystemInv(After(c, Deliver(n))) && Grows(c.ledger, After(c, Deliver(n)).ledger)
  {
    hide NodeOk, Inv, CallOk, AnswerOk, TallyOk, Compacts, DeliveryOk, MovesOnly, Applied;
    KnownNode(c, n);
    var v := c.nodes[n];
    DeliverNode(c.ledger, n, v);
    SelfMove(c.ledger, n, v);
    var v' := Applied(v).0;
    SelfMove(c.ledger, n, v');
    var c' := Delivered(c, n);
    DeliveryAdvances(c.ledger, n, v, c.delivered[n], c.skipped[n]);
    AppliedRole(v);
    assert NodeHolds(c', n);
    MovePreserves(c, c', n);
  }

  lemma AppliedRole(v: Node)
    ensures Applied(v).0.role == v.role && Applied(v).0.currentTerm == v.currentTerm
  {
  }
}
