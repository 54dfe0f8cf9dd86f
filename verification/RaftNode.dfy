/** The engine itself: one object per node, each method one lock-held region of the source. */
module RaftEngine {
  import opened RaftTypes
  import opened RaftHandlers

  /** TakeSnapshot's result: nil, or which of its three errors. */
  datatype SnapshotOutcome = Taken | AboveCommit | AlreadyIncluded | BeyondLog

  /** One poll of a waiting Propose. */
  datatype ProposalStatus = Pending | ProposalFailed | Committed(index: nat)

  lemma FilledStep(m: map<NodeId, nat>, peers: seq<NodeId>, i: nat, value: nat)
    requires i < |peers|
    ensures Filled(m, peers[..i], value)[peers[i] := value] == Filled(m, peers[..i + 1], value)
  {
    assert peers[..i + 1] == peers[..i] + [peers[i]];
  }

  /** The log partway through the replay: untouched while entries stand, then cut and continued. */
  ghost function Replayed(was: Log, pos: nat, k: nat, entries: Log, i: nat): Log
    requires pos + k <= |was| && k <= |entries| && i <= |entries|
  {
    if i <= k then was else was[..pos + k] + entries[k..i]
  }

  /** Replaying one entry: skip it if it stands by term, else cut the log there and append it. */
  ghost function ReplayOne(log: Log, at: nat, entry: Entry): Log
    requires at <= |log|
  {
    if at < |log| && log[at].term == entry.term then log else log[..at] + [entry]
  }

  lemma ReplayStep(was: Log, pos: nat, k: nat, entries: Log, i: nat)
    requires pos <= |was| && k == Standing(was, pos, entries) && i < |entries|
    ensures pos + i <= |Replayed(was, pos, k, entries, i)|
    ensures ReplayOne(Replayed(was, pos, k, entries, i), pos + i, entries[i]) == Replayed(was, pos, k, entries, i + 1)
  {
    if i >= k {
      assert entries[k..i + 1] == entries[k..i] + [entries[i]];
      assert Replayed(was, pos, k, entries, i)[..pos + i] == was[..pos + k] + entries[k..i];
    }
  }

  lemma ReplayDone(was: Log, pos: nat, k: nat, entries: Log)
    requires pos <= |was| && k == Standing(was, pos, entries)
    ensures Replayed(was, pos, k, entries, |entries|) == Merged(was, pos, entries)
    ensures Replayed(was, pos, k, entries, 0) == was
  {
  }

  /** The methods update the fields step by step as the source does. Each is proved to do to them what RaftHandlers
      says, and those functions are what the cluster theorems are about. */
  class RaftNode {
    const id: NodeId
    const peers: seq<NodeId>

    var currentTerm: nat
    var votedFor: NodeId
    var log: seq<Entry>

    var commitIndex: nat
    var lastApplied: nat
    var role: Role
    var leaderID: NodeId

    var lastIncludedIndex: nat
    var lastIncludedTerm: nat
    var lastSnapshotData: State

    var nextIndex: map<NodeId, nat>
    var matchIndex: map<NodeId, nat>

    ghost function View(): Node
      reads this
    {
      Node(id, peers, currentTerm, votedFor, log, commitIndex, lastApplied, role, leaderID,
           lastIncludedIndex, lastIncludedTerm, lastSnapshotData, nextIndex, matchIndex)
    }

    ghost predicate Valid()
      reads this
    {
      View().Valid()
    }

    constructor (id: NodeId, peers: seq<NodeId>)
      ensures Valid() && View() == Fresh(id, peers)
    {
      this.id, this.peers := id, peers;
      currentTerm, votedFor := 0, NOBODY;
      log := [ORIGIN];
      commitIndex, lastApplied := 0, 0;
      role, leaderID := Follower, NOBODY;
      lastIncludedIndex, lastIncludedTerm, lastSnapshotData := 0, 0, [];
      nextIndex, matchIndex := map[], map[];
    }

    // ----- reading the log ------------------------------------------------

    function LastLogIndex(): nat
      reads this
      requires |log| > 0
    {
      log[|log| - 1].index
    }

    function LastLogTerm(): nat
      reads this
      requires |log| > 0
    {
      log[|log| - 1].term
    }

    method GetLogTerm(index: nat) returns (term: nat)
      ensures term == View().LogTerm(index)
    {
      if index < lastIncludedIndex {
        return 0;
      }
      if index == lastIncludedIndex {
        return lastIncludedTerm;
      }
      var sliceIdx := index - lastIncludedIndex;
      if sliceIdx < |log| {
        return log[sliceIdx].term;
      }
      return 0;
    }

    method GetLogSlice(startIndex: nat) returns (entries: seq<Entry>)
      ensures entries == View().LogFrom(startIndex)
    {
      if startIndex <= lastIncludedIndex {
        return [];
      }
      var sliceIdx := startIndex - lastIncludedIndex;
      if sliceIdx >= |log| {
        return [];
      }
      return log[sliceIdx..];
    }

    // ----- terms and votes ------------------------------------------------

    method StepDown(newTerm: nat)
      modifies this
      ensures View() == RaftHandlers.StepDown(old(View()), newTerm)
    {
      role := Follower;
      currentTerm := newTerm;
      votedFor := NOBODY;
      leaderID := NOBODY;
    }

    method HandleRequestVote(args: RequestVoteArgs, heardLately: bool) returns (reply: RequestVoteReply)
      requires Valid()
      modifies this
      ensures Valid() && (View(), reply) == OnRequestVote(old(View()), args, heardLately)
    {
      if !args.isPreVote && args.term > currentTerm {
        StepDown(args.term);
      }
      reply := RequestVoteReply(currentTerm, false);
      if args.term < currentTerm {
        return;
      }
      if args.isPreVote && leaderID != NOBODY && heardLately {
        return;
      }
      var canVote := args.isPreVote || votedFor == NOBODY || votedFor == args.candidateID;
      var logOk := args.lastLogTerm > LastLogTerm()
                   || (args.lastLogTerm == LastLogTerm() && args.lastLogIndex >= LastLogIndex());
      if canVote && logOk {
        reply := reply.(voteGranted := true);
        if !args.isPreVote {
          votedFor := args.candidateID;
        }
      }
    }

    /** The locked opening of a pre-vote: nothing changes but the question asked; a node alone has carried
        it already. */
    method StartPreVote() returns (request: RequestVoteArgs, carried: bool)
      requires Valid()
      ensures request == PreVoteRequest(View()) && carried == (1 >= View().Quorum())
    {
      request := RequestVoteArgs(currentTerm + 1, id, LastLogIndex(), LastLogTerm(), true);
      carried := 1 >= (|peers| + 1) / 2 + 1;
    }

    /** A pre-vote's answer: its term is observed; a grant is counted whether or not anyone still waits. */
    method ReadPreVote(votes: nat, reply: RequestVoteReply) returns (votes': nat)
      requires Valid()
      modifies this
      ensures Valid() && View() == Observe(old(View()), reply.term)
      ensures votes' == votes + if reply.voteGranted then 1 else 0
    {
      if reply.term > currentTerm {
        StepDown(reply.term);
      }
      votes' := if reply.voteGranted then votes + 1 else votes;
    }

    /** The locked opening of an election: new term, self-vote; the caller then canvasses the peers or, alone, wins. */
    method StartElection() returns (request: RequestVoteArgs, won: bool, out: seq<Outgoing>)
      requires Valid()
      modifies this
      ensures Valid() && request == VoteRequest(Stand(old(View()))) && won == (1 >= old(View()).Quorum())
      ensures View() == if won then Lead(Stand(old(View()))) else Stand(old(View()))
      ensures out == if won then Broadcast(View()) else []
    {
      role := Candidate;
      currentTerm := currentTerm + 1;
      votedFor := id;
      leaderID := NOBODY;
      request := RequestVoteArgs(currentTerm, id, LastLogIndex(), LastLogTerm(), false);
      var votesReceived := 1;
      var quorum := (|peers| + 1) / 2 + 1;
      won := votesReceived >= quorum;
      out := [];
      if won {
        out := BecomeLeader();
      }
    }

    /** becomeLeader's loop: nothing known of any peer but where to start probing. */
    method ResetPeers(lastIndex: nat)
      modifies this`nextIndex, this`matchIndex
      ensures nextIndex == Filled(old(nextIndex), peers, lastIndex + 1)
      ensures matchIndex == Filled(old(matchIndex), peers, 0)
    {
      var i := 0;
      while i < |peers|
        invariant 0 <= i <= |peers|
        invariant nextIndex == Filled(old(nextIndex), peers[..i], lastIndex + 1)
        invariant matchIndex == Filled(old(matchIndex), peers[..i], 0)
      {
        FilledStep(old(nextIndex), peers, i, lastIndex + 1);
        FilledStep(old(matchIndex), peers, i, 0);
        nextIndex := nextIndex[peers[i] := lastIndex + 1];
        matchIndex := matchIndex[peers[i] := 0];
        i := i + 1;
      }
      assert peers[..i] == peers;
    }

    method BecomeLeader() returns (out: seq<Outgoing>)
      requires Valid()
      modifies this
      ensures Valid() && View() == Lead(old(View())) && out == Broadcast(View())
    {
      hide SendsTo, Filled;
      role := Leader;
      leaderID := id;
      ResetPeers(LastLogIndex());
      out := BroadcastAppendEntries();
    }

    /** A real vote's answer read by the election of electionTerm, whose tally before it is votes. */
    method ReadVote(electionTerm: nat, votes: nat, reply: RequestVoteReply) returns (votes': nat, out: seq<Outgoing>)
      requires Valid()
      modifies this
      ensures Valid()
      ensures var v := old(View());
        if reply.term > v.currentTerm then
          View() == RaftHandlers.StepDown(v, reply.term) && votes' == votes && out == []
        else if v.role == Candidate && v.currentTerm == electionTerm && reply.voteGranted then
          votes' == votes + 1
          && (if votes' >= v.Quorum() then View() == Lead(v) && out == Broadcast(View()) else View() == v && out == [])
        else View() == v && votes' == votes && out == []
    {
      votes', out := votes, [];
      if reply.term > currentTerm {
        StepDown(reply.term);
        return;
      }
      if role == Candidate && currentTerm == electionTerm && reply.voteGranted {
        votes' := votes + 1;
        if votes' >= (|peers| + 1) / 2 + 1 {
          out := BecomeLeader();
        }
      }
    }

    // ----- replication, leader side ---------------------------------------

    method BroadcastAppendEntries() returns (out: seq<Outgoing>)
      ensures out == Broadcast(View())
    {
      out := [];
      var i := 0;
      while i < |peers|
        invariant 0 <= i <= |peers|
        invariant out == SendsTo(View(), peers[..i])
      {
        assert peers[..i + 1][..i] == peers[..i];
        var peer := peers[i];
        var nextIdx := if peer in nextIndex then nextIndex[peer] else 0;
        if nextIdx == 0 {
          nextIdx := 1;
        }
        if nextIdx <= lastIncludedIndex {
          var args := InstallSnapshotArgs(currentTerm, id, lastIncludedIndex, lastIncludedTerm, lastSnapshotData);
          out := out + [Snapshot(peer, args)];
        } else {
          var prevLogIndex := nextIdx - 1;
          var prevLogTerm := GetLogTerm(prevLogIndex);
          var entries := GetLogSlice(nextIdx);
          var args := AppendEntriesArgs(currentTerm, id, prevLogIndex, prevLogTerm, entries, commitIndex);
          out := out + [Entries(peer, args)];
        }
        i := i + 1;
      }
      assert peers[..i] == peers;
    }

    /** How many nodes, this one included, match index n. */
    method CountMatches(n: nat) returns (matches: nat)
      ensures matches == 1 + Matching(View(), peers, n)
    {
      matches := 1;
      var i := 0;
      while i < |peers|
        invariant 0 <= i <= |peers|
        invariant matches == 1 + Matching(View(), peers[..i], n)
      {
        assert peers[..i + 1][..i] == peers[..i];
        if (if peers[i] in matchIndex then matchIndex[peers[i]] else 0) >= n {
          matches := matches + 1;
        }
        i := i + 1;
      }
      assert peers[..i] == peers;
    }

    /** Scans down from the last index for one a majority matches in the current term. */
    method CheckAndUpdateCommitIndex() returns (out: seq<Outgoing>)
      requires Valid()
      modifies this`commitIndex
      ensures Valid() && (View(), out) == AdvanceCommit(old(View()))
    {
      out := [];
      var n := LastLogIndex();
      while n > commitIndex
        modifies {}
        invariant n >= 0 && View() == old(View())
        invariant QuorumIndex(View(), LastLogIndex()) == QuorumIndex(View(), n)
        decreases n
      {
        var term := GetLogTerm(n);
        if term == currentTerm {
          var matches := CountMatches(n);
          if matches >= (|peers| + 1) / 2 + 1 {
            break;
          }
        }
        n := n - 1;
      }
      if n > commitIndex {
        commitIndex := n;
        out := BroadcastAppendEntries();
      }
    }

    method ReadAppendReply(target: NodeId, term: nat, reply: AppendEntriesReply) returns (out: seq<Outgoing>)
      requires Valid()
      modifies this
      ensures Valid() && (View(), out) == OnAppendReply(old(View()), target, term, reply)
    {
      out := [];
      if reply.term > currentTerm {
        StepDown(reply.term);
        return;
      }
      if role != Leader || currentTerm != term {
        return;
      }
      if reply.success {
        nextIndex := nextIndex[target := reply.matchIndex + 1];
        matchIndex := matchIndex[target := reply.matchIndex];
        out := CheckAndUpdateCommitIndex();
      } else {
        var next := if target in nextIndex then nextIndex[target] else 0;
        if next > lastIncludedIndex + 1 {
          nextIndex := nextIndex[target := next - 1];
        } else {
          nextIndex := nextIndex[target := lastIncludedIndex];
        }
      }
    }

    method ReadInstallReply(target: NodeId, term: nat, sIdx: nat, reply: InstallSnapshotReply)
      requires Valid()
      modifies this
      ensures Valid() && View() == OnInstallReply(old(View()), target, term, sIdx, reply)
    {
      if reply.term > currentTerm {
        StepDown(reply.term);
        return;
      }
      if role != Leader || currentTerm != term {
        return;
      }
      if sIdx >= (if target in nextIndex then nextIndex[target] else 0) {
        nextIndex := nextIndex[target := sIdx + 1];
        matchIndex := matchIndex[target := sIdx];
      }
    }

    /** Propose up to its unlock: refused unless leader. */
    method Propose(payload: Payload) returns (accepted: bool, entryIndex: nat, out: seq<Outgoing>)
      requires Valid()
      modifies this`log
      ensures Valid() && accepted == (old(role) == Leader)
      ensures accepted ==>
        View() == Proposed(old(View()), payload) && entryIndex == old(LastLogIndex()) + 1 && out == Broadcast(View())
      ensures !accepted ==> View() == old(View()) && out == []
    {
      if role != Leader {
        return false, 0, [];
      }
      entryIndex := LastLogIndex() + 1;
      log := log + [Entry(entryIndex, currentTerm, payload)];
      out := BroadcastAppendEntries();
      accepted := true;
    }

    /** One wake-up of Propose's waiting loop. */
    method PollProposal(entryIndex: nat, term: nat) returns (status: ProposalStatus)
      ensures status.Committed? <==> role == Leader && currentTerm == term && commitIndex >= entryIndex
      ensures status.Committed? ==> status.index == entryIndex
      ensures status.ProposalFailed? <==> !(role == Leader && currentTerm == term)
    {
      var isLeader := role == Leader && currentTerm == term;
      if !isLeader {
        return ProposalFailed;
      }
      if commitIndex >= entryIndex {
        return Committed(entryIndex);
      }
      return Pending;
    }

    // ----- replication, follower side -------------------------------------

    method ReplayEntry(idx: nat, entry: Entry)
      requires Valid() && lastIncludedIndex < idx <= LastLogIndex() + 1 && entry.index == idx
      modifies this`log
      ensures Valid() && lastIncludedIndex + |log| > idx
      ensures log == ReplayOne(old(log), idx - lastIncludedIndex, entry)
    {
      if idx <= LastLogIndex() {
        var term := GetLogTerm(idx);
        if term != entry.term {
          var sliceIdx := idx - lastIncludedIndex;
          log := log[..sliceIdx];
          log := log + [entry];
        }
      } else {
        assert log[..idx - lastIncludedIndex] == log;
        log := log + [entry];
      }
    }

    /** The handler's loop over the received entries. */
    method ReplayEntries(prevLogIndex: nat, entries: seq<Entry>)
      requires Valid() && lastIncludedIndex <= prevLogIndex <= LastLogIndex()
      requires forall i :: 0 <= i < |entries| ==> entries[i].index == prevLogIndex + 1 + i
      modifies this`log
      ensures Valid() && log == Merged(old(log), prevLogIndex - lastIncludedIndex + 1, entries)
    {
      hide Replayed, ReplayOne, Merged, Standing;
      ghost var pos := prevLogIndex - lastIncludedIndex + 1;
      ghost var k := Standing(log, pos, entries);
      ReplayDone(log, pos, k, entries);
      var i := 0;
      while i < |entries|
        invariant 0 <= i <= |entries| && Valid() && |log| >= pos + i
        invariant log == Replayed(old(log), pos, k, entries, i)
      {
        ReplayStep(old(log), pos, k, entries, i);
        ReplayEntry(prevLogIndex + 1 + i, entries[i]);
        i := i + 1;
      }
    }

    /** The handler's last part: consistency check, replay, commit. */
    method ReplicateEntries(args: AppendEntriesArgs) returns (reply: AppendEntriesReply)
      requires Valid() && Contiguous(args) && args.prevLogIndex >= lastIncludedIndex
      modifies this`log, this`commitIndex
      ensures Valid() && (View(), reply) == Replicate(old(View()), args)
    {
      hide Merged;
      reply := AppendEntriesReply(currentTerm, false, 0);
      var have := GetLogTerm(args.prevLogIndex);
      if args.prevLogIndex > LastLogIndex() || have != args.prevLogTerm {
        return;
      }
      ReplayEntries(args.prevLogIndex, args.entries);
      var lastNewIndex := args.prevLogIndex + |args.entries|;
      if args.leaderCommit > commitIndex {
        commitIndex := if args.leaderCommit <= lastNewIndex then args.leaderCommit else lastNewIndex;
      }
      reply := reply.(success := true, matchIndex := lastNewIndex);
    }

    method HandleAppendEntries(args: AppendEntriesArgs) returns (reply: AppendEntriesReply)
      requires Valid() && Contiguous(args)
      modifies this
      ensures Valid() && (View(), reply) == OnAppendEntries(old(View()), args)
    {
      hide Replicate;
      if args.term > currentTerm {
        StepDown(args.term);
      }
      reply := AppendEntriesReply(currentTerm, false, 0);
      if args.term < currentTerm {
        return;
      }
      if role != Follower {
        role := Follower;
      }
      leaderID := args.leaderID;

      var trimmed := args;
      if args.prevLogIndex < lastIncludedIndex {
        var offset := lastIncludedIndex - args.prevLogIndex;
        if |args.entries| <= offset {
          reply := reply.(success := true, matchIndex := lastIncludedIndex);
          return;
        }
        trimmed := args.(entries := args.entries[offset..],
                         prevLogIndex := lastIncludedIndex, prevLogTerm := lastIncludedTerm);
      }
      reply := ReplicateEntries(trimmed);
    }

    // ----- snapshots ------------------------------------------------------

    /** The anchor at an index, and whatever the log holds after it. */
    method KeepTail(idx: nat, term: nat) returns (newLog: seq<Entry>)
      requires Valid() && idx >= lastIncludedIndex
      ensures newLog == CutAt(View(), idx, term)
      ensures |newLog| > 0 && newLog[0].term == term && forall i :: 0 <= i < |newLog| ==> newLog[i].index == idx + i
    {
      newLog := [Entry(idx, term, Nil)];
      var sliceIdx := idx - lastIncludedIndex;
      if sliceIdx + 1 < |log| {
        newLog := newLog + log[sliceIdx + 1..];
      }
    }

    method AdoptSnapshot(args: InstallSnapshotArgs)
      requires Valid() && args.lastIncludedIndex > lastIncludedIndex
      modifies this
      ensures Valid() && View() == Installed(old(View()), args)
    {
      hide CutAt;
      var newLog := [Entry(args.lastIncludedIndex, args.lastIncludedTerm, Nil)];
      var have := GetLogTerm(args.lastIncludedIndex);
      if args.lastIncludedIndex <= LastLogIndex() && have == args.lastIncludedTerm {
        newLog := KeepTail(args.lastIncludedIndex, args.lastIncludedTerm);
      }
      log := newLog;
      lastIncludedIndex := args.lastIncludedIndex;
      lastIncludedTerm := args.lastIncludedTerm;
      lastSnapshotData := args.data;
      if commitIndex < args.lastIncludedIndex {
        commitIndex := args.lastIncludedIndex;
      }
      if lastApplied < args.lastIncludedIndex {
        lastApplied := args.lastIncludedIndex;
      }
    }

    method HandleInstallSnapshot(args: InstallSnapshotArgs) returns (reply: InstallSnapshotReply)
      requires Valid()
      modifies this
      ensures Valid() && (View(), reply) == OnInstallSnapshot(old(View()), args)
    {
      reply := InstallSnapshotReply(currentTerm);
      if args.term < currentTerm {
        return;
      }
      if args.term > currentTerm {
        StepDown(args.term);
      }
      if role != Follower {
        role := Follower;
      }
      leaderID := args.leaderID;
      if args.lastIncludedIndex <= lastIncludedIndex {
        return;
      }
      AdoptSnapshot(args);
    }

    method TakeSnapshot(snapshotIndex: nat, stateData: State) returns (outcome: SnapshotOutcome)
      requires Valid()
      modifies this
      ensures Valid() && View() == OnTakeSnapshot(old(View()), snapshotIndex, stateData)
      ensures outcome == if snapshotIndex > old(commitIndex) then AboveCommit
                         else if snapshotIndex <= old(lastIncludedIndex) then AlreadyIncluded
                         else if snapshotIndex - old(lastIncludedIndex) >= |old(log)| then BeyondLog
                         else Taken
    {
      if snapshotIndex > commitIndex {
        return AboveCommit;
      }
      if snapshotIndex <= lastIncludedIndex {
        return AlreadyIncluded;
      }
      var snapTerm := GetLogTerm(snapshotIndex);
      var sliceIdx := snapshotIndex - lastIncludedIndex;
      if sliceIdx >= |log| {
        return BeyondLog;
      }
      log := KeepTail(snapshotIndex, snapTerm);
      lastIncludedIndex := snapshotIndex;
      lastIncludedTerm := snapTerm;
      lastSnapshotData := stateData;
      if lastApplied < snapshotIndex {
        lastApplied := snapshotIndex;
      }
      return Taken;
    }

    // ----- applying -------------------------------------------------------

    /** One wake-up of the applier: hand over every committed entry not yet applied. */
    method ApplyCommitted() returns (delivered: seq<Entry>)
      requires Valid()
      modifies this`lastApplied
      ensures Valid() && (View(), delivered) == Applied(old(View()))
    {
      delivered := [];
      while commitIndex > lastApplied
        invariant old(lastApplied) <= lastApplied <= Max(commitIndex, old(lastApplied))
        invariant View() == old(View()).(lastApplied := lastApplied)
        invariant delivered == Deliveries(old(View()), old(lastApplied), lastApplied)
        decreases commitIndex - lastApplied
      {
        lastApplied := lastApplied + 1;
        if lastApplied > lastIncludedIndex {
          var sliceIdx := lastApplied - lastIncludedIndex;
          if sliceIdx < |log| {
            var entry := log[sliceIdx];
            if entry.data != Nil {
              delivered := delivered + [entry];
            }
          }
        }
      }
    }
  }
}
