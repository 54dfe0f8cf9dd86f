/** What each handler does on every input, said of the node and the message alone: what it must do, beside what the
    safety theorems say it must not. */
module RaftConduct {
  import opened RaftTypes
  import opened RaftHandlers
  import opened RaftCompaction
  import opened RaftElections
  import opened RaftReplication
  import opened RaftMonotone

  // ----- votes ------------------------------------------------------------

  /** The request speaks of a log: its last term and its last index. */
  ghost predicate Describes(args: RequestVoteArgs, log: Log) {
    |log| > 0 && args.lastLogTerm == LastTerm(log) && args.lastLogIndex == |log| - 1
  }

  /** Exactly when a vote or a pre-vote is granted, over full logs, whatever has been compacted (section 5.4.1 of the
      Raft paper, section 9.6 of the dissertation). */
  lemma GrantsIff(v: Node, full: Log, candidate: Log, args: RequestVoteArgs, heardLately: bool)
    requires Compacts(v, full) && Shaped(full, v.currentTerm) && Describes(args, candidate)
    ensures |v.log| > 0
    ensures OnRequestVote(v, args, heardLately).1.voteGranted
      <==> args.term >= v.currentTerm
           && (if args.isPreVote then !heardLately || v.leaderID == NOBODY
               else args.term > v.currentTerm || v.votedFor == NOBODY || v.votedFor == args.candidateID)
           && UpToDate(candidate, full)
  {
    CompactReads(v, full);
  }

  /** What a request changes: a pre-vote nothing at all; a real one brings a later term, with no vote in it yet, and a
      grant is the vote of that term. */
  lemma VoteOutcome(v: Node, args: RequestVoteArgs, heardLately: bool)
    requires |v.log| > 0
    ensures var (v', r) := OnRequestVote(v, args, heardLately);
      && r.term == v'.currentTerm && (args.isPreVote ==> v' == v)
      && v' == v.(currentTerm := v'.currentTerm, votedFor := v'.votedFor, role := v'.role, leaderID := v'.leaderID)
      && (args.term <= v.currentTerm ==>
           v'.currentTerm == v.currentTerm && v'.role == v.role && v'.leaderID == v.leaderID)
      && (args.term > v.currentTerm && !args.isPreVote ==>
           v'.currentTerm == args.term && v'.role == Follower && v'.leaderID == NOBODY)
      && (!args.isPreVote ==>
           v'.votedFor == if r.voteGranted then args.candidateID
                          else if args.term > v.currentTerm then NOBODY else v.votedFor)
  {
  }

  // ----- AppendEntries ----------------------------------------------------

  /** The call lies wholly inside the receiver's snapshot. */
  ghost predicate Inside(v: Node, args: AppendEntriesArgs) {
    && args.term >= v.currentTerm
    && args.prevLogIndex < v.lastIncludedIndex && |args.entries| <= v.lastIncludedIndex - args.prevLogIndex
  }

  /** The leader has committed index i, and the call brings the log up to it. */
  ghost predicate VouchedFor(args: AppendEntriesArgs, i: nat) {
    i <= args.leaderCommit && i <= args.prevLogIndex + |args.entries|
  }

  /** Trimming moves where the entries start, not where they end. */
  lemma TrimmedReach(f: Node, args: AppendEntriesArgs)
    requires args.prevLogIndex < f.lastIncludedIndex ==> |args.entries| > f.lastIncludedIndex - args.prevLogIndex
    ensures var trimmed := Trimmed(f, args);
      && trimmed == args.(prevLogIndex := trimmed.prevLogIndex, prevLogTerm := trimmed.prevLogTerm,
                          entries := trimmed.entries)
      && trimmed.prevLogIndex + |trimmed.entries| == args.prevLogIndex + |args.entries|
      && trimmed.prevLogIndex == Max(args.prevLogIndex, f.lastIncludedIndex)
      && trimmed.prevLogTerm
         == if args.prevLogIndex < f.lastIncludedIndex then f.lastIncludedTerm else args.prevLogTerm
  {
  }

  /** A call that passes its checks, from a leader that has committed more, moves the commit index to the greatest index
      the call vouches for; nothing else moves it. */
  lemma AppendCommits(v: Node, args: AppendEntriesArgs)
    requires v.Valid()
    ensures var k := OnAppendEntries(v, args).0.commitIndex;
      if Passes(v, args) && args.leaderCommit > v.commitIndex then
        VouchedFor(args, k) && forall i: nat | VouchedFor(args, i) :: i <= k
      else k == v.commitIndex
  {
    hide Merged, Trimmed;
    var f := Follow(Observe(v, args.term), args.leaderID);
    if args.prevLogIndex < f.lastIncludedIndex ==> |args.entries| > f.lastIncludedIndex - args.prevLogIndex {
      TrimmedReach(f, args);
    }
  }

  /** What the answer says, and what a call changes besides log and commit index. */
  lemma AppendOutcome(v: Node, args: AppendEntriesArgs)
    requires v.Valid()
    ensures var (v', r) := OnAppendEntries(v, args);
      && (r.success <==> Passes(v, args) || Inside(v, args)) && r.term == v'.currentTerm
      && (Passes(v, args) ==> r.matchIndex == args.prevLogIndex + |args.entries|)
      && (Inside(v, args) ==> r.matchIndex == v.lastIncludedIndex)
      && (!Passes(v, args) ==> v'.log == v.log)
      && v' == v.(currentTerm := v'.currentTerm, votedFor := v'.votedFor, role := v'.role, leaderID := v'.leaderID,
                  log := v'.log, commitIndex := v'.commitIndex)
      && (args.term < v.currentTerm ==> v' == v)
      && (args.term >= v.currentTerm ==>
           && v'.currentTerm == args.term && v'.role == Follower && v'.leaderID == args.leaderID
           && v'.votedFor == if args.term > v.currentTerm then NOBODY else v.votedFor)
  {
    hide Merged, Trimmed;
    var f := Follow(Observe(v, args.term), args.leaderID);
    if args.prevLogIndex < f.lastIncludedIndex ==> |args.entries| > f.lastIncludedIndex - args.prevLogIndex {
      TrimmedReach(f, args);
    }
  }

  /** The entries from position pos on clash with the log: one has another term than the log's entry at its place. */
  ghost predicate Clash(log: Log, pos: nat, entries: Log) {
    exists i :: 0 <= i < |entries| && pos + i < |log| && log[pos + i].term != entries[i].term
  }

  /** The receiver's rules 3 and 4 (figure 2 of the Raft paper): what stands is kept, the log is cut at the first clash
      and only there, and what is new is appended. */
  lemma {:induction false} MergedMeans(log: Log, pos: nat, entries: Log)
    requires pos <= |log|
    ensures var m := Merged(log, pos, entries);
      && |m| == (if Clash(log, pos, entries) || pos + |entries| > |log| then pos + |entries| else |log|)
      && m[..pos] == log[..pos]
      && (forall i :: 0 <= i < |entries| ==> m[pos + i].term == entries[i].term)
      && (forall i :: 0 <= i < |entries| ==>
           m[pos + i] == entries[i] || (pos + i < |log| && m[pos + i] == log[pos + i]))
      && (!Clash(log, pos, entries) ==> log <= m)
  {
    var k := Standing(log, pos, entries);
    if k < |entries| && pos + k < |log| {
      assert Clash(log, pos, entries);
    }
  }

  // ----- snapshots --------------------------------------------------------

  /** A snapshot newer than the node's own, of a term not below it, is taken over whole: index, term and data; commit
      and applied index rise to it where they were below. Any other changes no log. */
  lemma InstallOutcome(v: Node, args: InstallSnapshotArgs)
    requires v.Valid()
    ensures var (v', r) := OnInstallSnapshot(v, args);
      && r.term == v.currentTerm
      && (args.term < v.currentTerm ==> v' == v)
      && (args.term >= v.currentTerm ==>
           && v'.currentTerm == args.term && v'.role == Follower && v'.leaderID == args.leaderID
           && v'.votedFor == if args.term > v.currentTerm then NOBODY else v.votedFor)
      && (args.term >= v.currentTerm && args.lastIncludedIndex > v.lastIncludedIndex ==>
           && v'.lastIncludedIndex == args.lastIncludedIndex && v'.lastIncludedTerm == args.lastIncludedTerm
           && v'.lastSnapshotData == args.data
           && v'.commitIndex >= v.commitIndex && v'.commitIndex >= args.lastIncludedIndex
           && v'.commitIndex in {v.commitIndex, args.lastIncludedIndex}
           && v'.lastApplied >= v.lastApplied && v'.lastApplied >= args.lastIncludedIndex
           && v'.lastApplied in {v.lastApplied, args.lastIncludedIndex})
      && (args.lastIncludedIndex <= v.lastIncludedIndex ==>
           && v'.log == v.log && v'.commitIndex == v.commitIndex && v'.lastApplied == v.lastApplied
           && v'.lastIncludedIndex == v.lastIncludedIndex && v'.lastIncludedTerm == v.lastIncludedTerm
           && v'.lastSnapshotData == v.lastSnapshotData)
      && v'.id == v.id && v'.peers == v.peers && v'.nextIndex == v.nextIndex && v'.matchIndex == v.matchIndex
  {
    hide CutAt;
  }

  /** What a snapshot of one's own takes: any committed index beyond the last, and no other. */
  lemma SnapshotOutcome(v: Node, full: Log, idx: nat, data: State)
    requires Compacts(v, full) && Shaped(full, v.currentTerm) && v.commitIndex < |full|
    ensures var v' := OnTakeSnapshot(v, idx, data);
      if v.lastIncludedIndex < idx <= v.commitIndex then
        && v'.lastIncludedIndex == idx && v'.lastIncludedTerm == full[idx].term && v'.lastSnapshotData == data
        && v'.lastApplied >= v.lastApplied && v'.lastApplied >= idx && v'.lastApplied in {v.lastApplied, idx}
        && v'.commitIndex == v.commitIndex && v'.currentTerm == v.currentTerm && v'.role == v.role
      else v' == v
  {
    hide CutAt;
    CompactReads(v, full);
  }

  // ----- the leader's side ------------------------------------------------

  /** The cluster as the node knows it. */
  ghost function Everyone(v: Node): set<NodeId> {
    {v.id} + set p | p in v.peers
  }

  /** The node itself and the peers it has recorded as matching index i. */
  ghost function Holders(v: Node, i: nat): set<NodeId> {
    {v.id} + set p | p in v.peers && At(v.matchIndex, p) >= i
  }

  /** An index past the commit index, of the current term, that a majority of the cluster holds. */
  ghost predicate Carried(v: Node, i: nat)
    requires |v.log| > 0
  {
    v.commitIndex < i <= v.LastLogIndex() && v.LogTerm(i) == v.currentTerm && Majority(Holders(v, i), Everyone(v))
  }

  ghost predicate ProperPeers(v: Node) {
    v.id !in v.peers && forall a, b :: 0 <= a < b < |v.peers| ==> v.peers[a] != v.peers[b]
  }

  /** The integer count against the integer quorum is the majority of a set. */
  lemma CountIsMajority(v: Node, i: nat)
    requires ProperPeers(v)
    ensures 1 + Matching(v, v.peers, i) >= v.Quorum() <==> Majority(Holders(v, i), Everyone(v))
  {
    hide Matching;
    HoldersCounted(v, i);
    EveryoneCounted(v);
    assert Holders(v, i) <= Everyone(v);
  }

  lemma HoldersCounted(v: Node, i: nat)
    requires v.id !in v.peers && forall a, b :: 0 <= a < b < |v.peers| ==> v.peers[a] != v.peers[b]
    ensures |Holders(v, i)| == 1 + Matching(v, v.peers, i)
  {
    hide Matching;
    MatchingCounts(v, v.peers, i);
    OneMore(Matchers(v, v.peers, i), v.id);
    assert Holders(v, i) == Matchers(v, v.peers, i) + {v.id};
  }

  lemma EveryoneCounted(v: Node)
    requires ProperPeers(v)
    ensures |Everyone(v)| == 1 + |v.peers|
  {
    var known := set p | p in v.peers;
    DistinctSize(v.peers);
    OneMore(known, v.id);
    assert Everyone(v) == known + {v.id};
  }

  lemma OneMore(some: set<NodeId>, n: NodeId)
    requires n !in some
    ensures |some + {n}| == |some| + 1
  {
  }

  /** Index k is carried, and none greater is. */
  ghost predicate GreatestCarried(v: Node, k: nat)
    requires |v.log| > 0
  {
    Carried(v, k) && forall i: nat | Carried(v, i) :: i <= k
  }

  /** The commit rule: the greatest index that is carried, or no change when none is; an advance is broadcast. */
  lemma CommitsGreatest(v: Node)
    requires |v.log| > 0 && ProperPeers(v)
    ensures var (v', out) := AdvanceCommit(v);
      && v' == v.(commitIndex := v'.commitIndex)
      && (if exists i: nat :: Carried(v, i) then GreatestCarried(v, v'.commitIndex) && out == Broadcast(v')
          else v'.commitIndex == v.commitIndex && out == [])
  {
    hide Matching, Majority, Node.Quorum, Broadcast;
    forall i: nat
      ensures v.commitIndex < i <= v.LastLogIndex() ==> (Electable(v, i) <==> Carried(v, i))
    {
      CountIsMajority(v, i);
    }
  }

  /** What the leader makes of an answer: a later term ends its own; an answer to another term is nothing; success is
      recorded whole and may commit; a refusal goes one entry back, and into the compacted part from its edge. */
  lemma AppendHeard(v: Node, p: NodeId, term: nat, r: AppendEntriesReply)
    requires |v.log| > 0
    ensures var (v', out) := OnAppendReply(v, p, term, r);
      if r.term > v.currentTerm then
        v' == v.(role := Follower, currentTerm := r.term, votedFor := NOBODY, leaderID := NOBODY) && out == []
      else if v.role != Leader || term != v.currentTerm then v' == v && out == []
      else if r.success then
        && At(v'.matchIndex, p) == r.matchIndex && At(v'.nextIndex, p) == r.matchIndex + 1
        && (forall q :: q != p ==>
             At(v'.matchIndex, q) == At(v.matchIndex, q) && At(v'.nextIndex, q) == At(v.nextIndex, q))
        && (v', out) == AdvanceCommit(v'.(commitIndex := v.commitIndex))
        && v' == v.(matchIndex := v'.matchIndex, nextIndex := v'.nextIndex, commitIndex := v'.commitIndex)
      else
        && out == [] && v' == v.(nextIndex := v'.nextIndex)
        && (forall q :: q != p ==> At(v'.nextIndex, q) == At(v.nextIndex, q))
        && (At(v.nextIndex, p) > v.lastIncludedIndex + 1 ==> At(v'.nextIndex, p) + 1 == At(v.nextIndex, p))
        && (At(v.nextIndex, p) <= v.lastIncludedIndex + 1 ==> At(v'.nextIndex, p) == v.lastIncludedIndex)
  {
    hide Broadcast, Matching;
  }

  /** An answered snapshot is recorded as matched where the leader has not yet probed beyond it. */
  lemma InstallHeard(v: Node, p: NodeId, term: nat, sent: nat, r: InstallSnapshotReply)
    ensures var v' := OnInstallReply(v, p, term, sent, r);
      if r.term > v.currentTerm then
        v' == v.(role := Follower, currentTerm := r.term, votedFor := NOBODY, leaderID := NOBODY)
      else if v.role == Leader && term == v.currentTerm && sent >= At(v.nextIndex, p) then
        && At(v'.matchIndex, p) == sent && At(v'.nextIndex, p) == sent + 1
        && (forall q :: q != p ==>
             At(v'.matchIndex, q) == At(v.matchIndex, q) && At(v'.nextIndex, q) == At(v.nextIndex, q))
        && v' == v.(matchIndex := v'.matchIndex, nextIndex := v'.nextIndex)
      else v' == v
  {
  }

  /** What one peer is sent, in terms of the full log: all of it from the peer's next index on, with the entry before it
      and the leader's commit index; or the leader's snapshot, when that next index is not past it. */
  lemma SendsQuotes(v: Node, full: Log, p: NodeId)
    requires Compacts(v, full) && Shaped(full, v.currentTerm)
    requires At(v.nextIndex, p) <= |full|
    ensures var next := if At(v.nextIndex, p) == 0 then 1 else At(v.nextIndex, p);
      match Sends(v, p)
      case Snapshot(to, args) =>
        && next <= v.lastIncludedIndex < |full| && to == p
        && args.term == v.currentTerm && args.leaderID == v.id && args.data == v.lastSnapshotData
        && args.lastIncludedIndex == v.lastIncludedIndex && args.lastIncludedTerm == full[v.lastIncludedIndex].term
      case Entries(to, args) =>
        && v.lastIncludedIndex < next <= |full| && to == p
        && args.term == v.currentTerm && args.leaderID == v.id && args.leaderCommit == v.commitIndex
        && args.prevLogIndex + 1 == next && args.prevLogTerm == full[next - 1].term && args.entries == full[next..]
  {
    CompactReads(v, full);
  }

  /** A new leader knows nothing of anyone, and first asks everyone about its last entry, with nothing to append. */
  lemma LeadProbes(v: Node, full: Log, p: NodeId)
    requires Compacts(v, full) && Shaped(full, v.currentTerm) && p in v.peers
    ensures |v.log| > 0 && var w := Lead(v);
      && w.role == Leader && w.leaderID == v.id && At(w.matchIndex, p) == 0
      && w == v.(role := w.role, leaderID := w.leaderID, nextIndex := w.nextIndex, matchIndex := w.matchIndex)
      && Sends(w, p).Entries? && Sends(w, p).append.prevLogIndex == |full| - 1 && Sends(w, p).append.entries == []
  {
    CompactReads(v, full);
    PeerIn(v, p);
    assert Compacts(Lead(v), full);
    SendsQuotes(Lead(v), full, p);
  }

  lemma PeerIn(v: Node, p: NodeId)
    requires |v.log| > 0 && p in v.peers
    ensures At(Lead(v).nextIndex, p) == v.LastLogIndex() + 1 && At(Lead(v).matchIndex, p) == 0
  {
  }

  /** One wake-up of the applier leaves nothing committed unapplied. */
  lemma AppliesAll(v: Node)
    ensures Applied(v).0.lastApplied >= v.commitIndex && Applied(v).0.lastApplied in {v.lastApplied, v.commitIndex}
    ensures Applied(v).0 == v.(lastApplied := Applied(v).0.lastApplied)
  {
  }
}
