/** What each lock-held region of the engine makes of a node: the specification the RaftNode class is proved against. */
module RaftHandlers {
  import opened RaftTypes

  datatype Role = Follower | Candidate | Leader

  datatype RequestVoteArgs = RequestVoteArgs(
    term: nat, candidateID: NodeId, lastLogIndex: nat, lastLogTerm: nat, isPreVote: bool)

  datatype AppendEntriesArgs = AppendEntriesArgs(
    term: nat, leaderID: NodeId, prevLogIndex: nat, prevLogTerm: nat, entries: Log, leaderCommit: nat)

  datatype InstallSnapshotArgs = InstallSnapshotArgs(
    term: nat, leaderID: NodeId, lastIncludedIndex: nat, lastIncludedTerm: nat, data: State)

  datatype RequestVoteReply = RequestVoteReply(term: nat, voteGranted: bool)

  datatype AppendEntriesReply = AppendEntriesReply(term: nat, success: bool, matchIndex: nat)

  datatype InstallSnapshotReply = InstallSnapshotReply(term: nat)

  /** A message a leader's broadcast hands to the transport for one peer. */
  datatype Outgoing =
    | Entries(to: NodeId, append: AppendEntriesArgs)
    | Snapshot(to: NodeId, install: InstallSnapshotArgs)

  /** The fields of a RaftNode, as a value. */
  datatype Node = Node(
    id: NodeId,
    peers: seq<NodeId>,
    currentTerm: nat,
    votedFor: NodeId,
    log: Log,
    commitIndex: nat,
    lastApplied: nat,
    role: Role,
    leaderID: NodeId,
    lastIncludedIndex: nat,
    lastIncludedTerm: nat,
    lastSnapshotData: State,
    nextIndex: map<NodeId, nat>,
    matchIndex: map<NodeId, nat>)
  {
    /** The in-memory log is never empty and runs contiguously from the snapshot anchor at position 0. */
    ghost predicate Valid() {
      && |log| > 0
      && (forall i :: 0 <= i < |log| ==> log[i].index == lastIncludedIndex + i)
      && log[0].term == lastIncludedTerm
    }

    function LastLogIndex(): nat
      requires |log| > 0
    {
      log[|log| - 1].index
    }

    function LastLogTerm(): nat
      requires |log| > 0
    {
      log[|log| - 1].term
    }

    /** The term of the entry at a logical index, 0 where the log does not reach. */
    function LogTerm(index: nat): nat {
      if index < lastIncludedIndex then 0
      else if index == lastIncludedIndex then lastIncludedTerm
      else if index - lastIncludedIndex < |log| then log[index - lastIncludedIndex].term
      else 0
    }

    /** The entries from a logical index on, none where the index is compacted away or past the end. */
    function LogFrom(start: nat): Log {
      if start <= lastIncludedIndex || start - lastIncludedIndex >= |log| then []
      else log[start - lastIncludedIndex..]
    }

    function Quorum(): nat {
      (|peers| + 1) / 2 + 1
    }
  }

  /** Go's map read: a missing key reads as zero. */
  function At(m: map<NodeId, nat>, p: NodeId): nat {
    if p in m then m[p] else 0
  }

  /** A freshly constructed node of a fresh cluster (initial commit index 0). */
  function Fresh(id: NodeId, peers: seq<NodeId>): Node {
    Node(id, peers, 0, NOBODY, [ORIGIN], 0, 0, Follower, NOBODY, 0, 0, [], map[], map[])
  }

  // ----- terms and elections ----------------------------------------------

  function StepDown(n: Node, newTerm: nat): Node {
    n.(role := Follower, currentTerm := newTerm, votedFor := NOBODY, leaderID := NOBODY)
  }

  /** The common opening of every reply handler. */
  function Observe(n: Node, term: nat): Node {
    if term > n.currentTerm then StepDown(n, term) else n
  }

  function Stand(n: Node): Node {
    n.(role := Candidate, currentTerm := n.currentTerm + 1, votedFor := n.id, leaderID := NOBODY)
  }

  function VoteRequest(n: Node): RequestVoteArgs
    requires |n.log| > 0
  {
    RequestVoteArgs(n.currentTerm, n.id, n.LastLogIndex(), n.LastLogTerm(), false)
  }

  function PreVoteRequest(n: Node): RequestVoteArgs
    requires |n.log| > 0
  {
    RequestVoteArgs(n.currentTerm + 1, n.id, n.LastLogIndex(), n.LastLogTerm(), true)
  }

  /** The map with every one of the peers set to the same value. */
  function Filled(m: map<NodeId, nat>, peers: seq<NodeId>, value: nat): map<NodeId, nat> {
    m + map p | p in peers :: value
  }

  function Lead(n: Node): Node
    requires |n.log| > 0
  {
    n.(role := Leader, leaderID := n.id,
       nextIndex := Filled(n.nextIndex, n.peers, n.LastLogIndex() + 1),
       matchIndex := Filled(n.matchIndex, n.peers, 0))
  }

  predicate LogUpToDate(n: Node, args: RequestVoteArgs)
    requires |n.log| > 0
  {
    args.lastLogTerm > n.LastLogTerm()
    || (args.lastLogTerm == n.LastLogTerm() && args.lastLogIndex >= n.LastLogIndex())
  }

  /** Whether the request, met in the receiver's possibly raised term, is granted. heardLately is the clock's answer to
      "a leader was heard from within the minimum election timeout". */
  predicate Grants(n: Node, args: RequestVoteArgs, heardLately: bool)
    requires |n.log| > 0
  {
    && args.term >= n.currentTerm
    && (args.isPreVote ==> !(n.leaderID != NOBODY && heardLately))
    && (!args.isPreVote ==> n.votedFor == NOBODY || n.votedFor == args.candidateID)
    && LogUpToDate(n, args)
  }

  function OnRequestVote(n: Node, args: RequestVoteArgs, heardLately: bool): (Node, RequestVoteReply)
    requires |n.log| > 0
  {
    var m := if args.isPreVote then n else Observe(n, args.term);
    var granted := Grants(m, args, heardLately);
    (if granted && !args.isPreVote then m.(votedFor := args.candidateID) else m,
     RequestVoteReply(m.currentTerm, granted))
  }

  // ----- replication, follower side ---------------------------------------

  /** How many leading entries already stand, by term, in the log from position pos. */
  function Standing(log: Log, pos: nat, entries: Log): (k: nat)
    requires pos <= |log|
    ensures k <= |entries| && pos + k <= |log|
    ensures forall i :: 0 <= i < k ==> log[pos + i].term == entries[i].term
    ensures k < |entries| && pos + k < |log| ==> log[pos + k].term != entries[k].term
    decreases |entries|
  {
    if entries == [] || pos == |log| || log[pos].term != entries[0].term then 0
    else 1 + Standing(log, pos + 1, entries[1..])
  }

  /** The log after replaying entries from position pos: kept while terms agree, cut at the first conflict or at the
      end, and continued with the rest of the entries. */
  function Merged(log: Log, pos: nat, entries: Log): Log
    requires pos <= |log|
  {
    var k := Standing(log, pos, entries);
    if k == |entries| then log else log[..pos + k] + entries[k..]
  }

  /** Drops from an AppendEntries the part the receiver's snapshot already covers. */
  function Trimmed(n: Node, args: AppendEntriesArgs): AppendEntriesArgs
    requires args.prevLogIndex < n.lastIncludedIndex ==> |args.entries| > n.lastIncludedIndex - args.prevLogIndex
  {
    if args.prevLogIndex < n.lastIncludedIndex then
      args.(entries := args.entries[n.lastIncludedIndex - args.prevLogIndex..],
            prevLogIndex := n.lastIncludedIndex, prevLogTerm := n.lastIncludedTerm)
    else args
  }

  predicate Contiguous(args: AppendEntriesArgs) {
    forall i :: 0 <= i < |args.entries| ==> args.entries[i].index == args.prevLogIndex + 1 + i
  }

  function Min(a: nat, b: nat): nat {
    if a <= b then a else b
  }

  function Follow(n: Node, leader: NodeId): Node {
    n.(role := Follower, leaderID := leader)
  }

  /** The handler's main branch, past the term check and the trimming. */
  function Replicate(n: Node, args: AppendEntriesArgs): (Node, AppendEntriesReply)
    requires n.Valid() && args.prevLogIndex >= n.lastIncludedIndex
  {
    if args.prevLogIndex > n.LastLogIndex() || n.LogTerm(args.prevLogIndex) != args.prevLogTerm then
      (n, AppendEntriesReply(n.currentTerm, false, 0))
    else
      var last := args.prevLogIndex + |args.entries|;
      (n.(log := Merged(n.log, args.prevLogIndex - n.lastIncludedIndex + 1, args.entries),
          commitIndex := if args.leaderCommit > n.commitIndex then Min(args.leaderCommit, last) else n.commitIndex),
       AppendEntriesReply(n.currentTerm, true, last))
  }

  function OnAppendEntries(n: Node, args: AppendEntriesArgs): (Node, AppendEntriesReply)
    requires n.Valid()
  {
    var m := Observe(n, args.term);
    if args.term < m.currentTerm then
      (m, AppendEntriesReply(m.currentTerm, false, 0))
    else
      var f := Follow(m, args.leaderID);
      if args.prevLogIndex < f.lastIncludedIndex && |args.entries| <= f.lastIncludedIndex - args.prevLogIndex then
        (f, AppendEntriesReply(f.currentTerm, true, f.lastIncludedIndex))
      else
        Replicate(f, Trimmed(f, args))
  }

  // ----- snapshots --------------------------------------------------------

  /** The in-memory log that is left when everything up to logical index idx becomes the anchor. */
  function CutAt(n: Node, idx: nat, term: nat): Log
    requires n.lastIncludedIndex <= idx
  {
    var k := idx - n.lastIncludedIndex;
    [Entry(idx, term, Nil)] + (if k + 1 < |n.log| then n.log[k + 1..] else [])
  }

  function Max(a: nat, b: nat): nat {
    if a >= b then a else b
  }

  /** A follower whose snapshot is behind takes over the offered one, keeping its tail if its log agrees there. */
  function Installed(f: Node, args: InstallSnapshotArgs): Node
    requires f.Valid() && args.lastIncludedIndex > f.lastIncludedIndex
  {
    var idx := args.lastIncludedIndex;
    var keeps := idx <= f.LastLogIndex() && f.LogTerm(idx) == args.lastIncludedTerm;
    f.(log := if keeps then CutAt(f, args.lastIncludedIndex, args.lastIncludedTerm)
              else [Entry(args.lastIncludedIndex, args.lastIncludedTerm, Nil)],
       lastIncludedIndex := args.lastIncludedIndex,
       lastIncludedTerm := args.lastIncludedTerm,
       lastSnapshotData := args.data,
       commitIndex := Max(f.commitIndex, args.lastIncludedIndex),
       lastApplied := Max(f.lastApplied, args.lastIncludedIndex))
  }

  function OnInstallSnapshot(n: Node, args: InstallSnapshotArgs): (Node, InstallSnapshotReply)
    requires n.Valid()
  {
    var reply := InstallSnapshotReply(n.currentTerm);
    if args.term < n.currentTerm then (n, reply)
    else
      var f := Follow(Observe(n, args.term), args.leaderID);
      (if args.lastIncludedIndex <= f.lastIncludedIndex then f else Installed(f, args), reply)
  }

  /** The three refusals of TakeSnapshot. */
  predicate CanSnapshot(n: Node, idx: nat) {
    n.lastIncludedIndex < idx <= n.commitIndex && idx - n.lastIncludedIndex < |n.log|
  }

  function OnTakeSnapshot(n: Node, idx: nat, data: State): Node {
    if !CanSnapshot(n, idx) then n
    else
      n.(log := CutAt(n, idx, n.LogTerm(idx)),
         lastIncludedIndex := idx,
         lastIncludedTerm := n.LogTerm(idx),
         lastSnapshotData := data,
         lastApplied := Max(n.lastApplied, idx))
  }

  // ----- replication, leader side -----------------------------------------

  /** What a broadcast sends one peer: the snapshot when its next index is compacted away, else the log from there. */
  function Sends(n: Node, p: NodeId): Outgoing {
    var next := Max(At(n.nextIndex, p), 1);
    if next <= n.lastIncludedIndex then
      Snapshot(p, InstallSnapshotArgs(n.currentTerm, n.id, n.lastIncludedIndex, n.lastIncludedTerm, n.lastSnapshotData))
    else
      Entries(p, AppendEntriesArgs(n.currentTerm, n.id, next - 1, n.LogTerm(next - 1), n.LogFrom(next), n.commitIndex))
  }

  function SendsTo(n: Node, peers: seq<NodeId>): (out: seq<Outgoing>)
    ensures |out| == |peers| && forall i :: 0 <= i < |peers| ==> out[i] == Sends(n, peers[i])
  {
    if peers == [] then [] else SendsTo(n, peers[..|peers| - 1]) + [Sends(n, peers[|peers| - 1])]
  }

  function Broadcast(n: Node): seq<Outgoing> {
    SendsTo(n, n.peers)
  }

  /** How many of the peers have matched index i. */
  function Matching(n: Node, peers: seq<NodeId>, i: nat): nat {
    if peers == [] then 0
    else Matching(n, peers[..|peers| - 1], i) + (if At(n.matchIndex, peers[|peers| - 1]) >= i then 1 else 0)
  }

  /** A current-term index that a majority, the leader included, holds. */
  predicate Electable(n: Node, i: nat) {
    n.LogTerm(i) == n.currentTerm && 1 + Matching(n, n.peers, i) >= n.Quorum()
  }

  /** The greatest electable index in (commitIndex, hi], or commitIndex when there is none. */
  function QuorumIndex(n: Node, hi: nat): (c: nat)
    ensures n.commitIndex <= c
    ensures c == n.commitIndex || (c <= hi && Electable(n, c))
    ensures forall i :: c < i <= hi ==> !Electable(n, i)
  {
    if hi <= n.commitIndex then n.commitIndex
    else if Electable(n, hi) then hi
    else QuorumIndex(n, hi - 1)
  }

  /** The commit rule, and the broadcast that follows an advance. */
  function AdvanceCommit(n: Node): (Node, seq<Outgoing>)
    requires |n.log| > 0
  {
    var c := QuorumIndex(n, n.LastLogIndex());
    if c > n.commitIndex then
      var n' := n.(commitIndex := c);
      (n', Broadcast(n'))
    else (n, [])
  }

  function OnAppendReply(n: Node, target: NodeId, term: nat, reply: AppendEntriesReply): (Node, seq<Outgoing>)
    requires |n.log| > 0
  {
    if reply.term > n.currentTerm then (StepDown(n, reply.term), [])
    else if n.role != Leader || n.currentTerm != term then (n, [])
    else if reply.success then
      AdvanceCommit(n.(nextIndex := n.nextIndex[target := reply.matchIndex + 1],
                       matchIndex := n.matchIndex[target := reply.matchIndex]))
    else
      var next := At(n.nextIndex, target);
      var back := if next > n.lastIncludedIndex + 1 then next - 1 else n.lastIncludedIndex;
      (n.(nextIndex := n.nextIndex[target := back]), [])
  }

  function OnInstallReply(n: Node, target: NodeId, term: nat, sent: nat, reply: InstallSnapshotReply): Node {
    if reply.term > n.currentTerm then StepDown(n, reply.term)
    else if n.role != Leader || n.currentTerm != term then n
    else if sent >= At(n.nextIndex, target) then
      n.(nextIndex := n.nextIndex[target := sent + 1], matchIndex := n.matchIndex[target := sent])
    else n
  }

  /** Propose's first critical section on a leader: append, to be followed by a broadcast. */
  function Proposed(n: Node, payload: Payload): Node
    requires |n.log| > 0
  {
    n.(log := n.log + [Entry(n.LastLogIndex() + 1, n.currentTerm, payload)])
  }

  // ----- applying ---------------------------------------------------------

  /** The entries the applier hands over for the indices in (from, to]. */
  function Deliveries(n: Node, from: nat, to: nat): Log
    decreases to - from
  {
    if to <= from then []
    else
      var k := to - n.lastIncludedIndex;
      Deliveries(n, from, to - 1)
      + (if to > n.lastIncludedIndex && k < |n.log| && n.log[k].data != Nil then [n.log[k]] else [])
  }

  function Applied(n: Node): (Node, Log) {
    (n.(lastApplied := Max(n.lastApplied, n.commitIndex)), Deliveries(n, n.lastApplied, n.commitIndex))
  }
}
