# KhorosLog, modelled and verified in Dafny

KhorosLog is a replicated log server: a Raft engine written from scratch (pre-vote, log compaction, snapshot catch-up),
a segmented write-ahead log with a sparse index and a binary frame format, and a coordinator that shares partitions out
among consumer group members. This project models these three parts and proves what they promise.

## How it is built

**Raft.** `RaftEngine.RaftNode` is the engine object: its fields, and one method for each region that runs under the
node's lock, with the loops the code has. Every method is proved to do to the fields what a function of `RaftHandlers`
says. `RaftCluster` makes a state machine of those functions: its steps are the lock-held regions of all nodes over a
network that may lose, delay, reorder and (for requests) repeat messages; nodes may stop for good at any time. A
timeout is a step that may always fire, and the pre-vote's check against the clock is a free choice. Each vote or
pre-vote answer is read at most once by the round that asked, as each goroutine reads one reply; the integer tally is
the code's, with the set of voters beside it as a ghost.

Beside the cluster runs a ghost history, `RaftLedger`: every node's uncompacted log, every ballot, every term won and
every acknowledgement. No step's guard reads it. Sections 5.2 to 5.4 of "In Search of an Understandable Consensus
Algorithm" (Ongaro and Ousterhout) are proved on it with plain sequences; `RaftCompaction` and `RaftRefinement` prove
that the log in memory, with its anchor at position 0, is a faithful compaction of that history (section 7).
`RaftInvariant`, `RaftElections`, `RaftReplication` and `RaftRuns` carry the invariant over every step; `RaftSafety`,
`RaftMonotone`, `RaftDelivery`, `RaftIsolation`, `RaftCatchUp` and `RaftCatchUpRuns` state what follows for every run,
and `RaftWitness` exhibits a run that elects, commits and applies on leader and follower. Where those say what never
goes wrong, `RaftConduct`, `RaftConductRuns` and `RaftProvenance` say what each handler must do: who is granted, who
wins, what is sent, what is committed and when, as conditions on full logs and sets of nodes.

**Storage.** `Frames` is the frame codec over byte arrays and over a stream that arrives in pieces, `SparseIndex` the
packed index with its binary search, `WalSegment` one mapped segment (a fixed-size byte array) and `Wal` the rolling
log. `SegmentLog` says what the bytes mean: the frames of a list of payloads. The checksum is a parameter, so
everything holds for any checksum function. 32-bit arithmetic is written out. `NodeWal` joins the two parts: it feeds
what a node's applier delivers to that node's log, as the node's callback does.

**Consumer groups.** `GroupCoordinator` has the coordinator, its groups and their members as objects; maps are walked
in any order. `Rebalance` says what a rebalance gives each member, as a function of the member set and the list alone,
and proves what every run keeps.

Assumptions, all from the code's own setting: node ids are distinct and not empty, peer lists have no repetition and
leave out the node itself, clusters start fresh (`InitialCommitIndex` 0 everywhere), and nodes do not come back after
stopping, because term, vote and log are not kept on disk (`raft/consensus.go:176-199`). In storage,
`IndexIntervalBytes` > 0, `MaxSegmentBytes` <= 2^32 - 2^25 - 18 so that a write position cannot wrap, payloads are ones
the encoder stores whole or refuses, and file bytes never written are zero.

Where the code and the repository's README differ, the code is followed: frames start with magic 0x4B and put the
length before the offset (`network/binary_protocol.go:12-16`), while the README shows magic 0x5F and the offset first;
the index lives in `storage/index.go`.

## What was found on the way

- The match index a follower reports from inside its own snapshot is truthful, and the commit index cannot fall, but
  only because a leader never sends a commit index beyond the entries it quotes. The handler alone lowers it exactly when
  a call passes its checks and its entries end short of a commit index that its own exceeds
  (`RaftMonotone.AppendRetreatsIff`, with a concrete call in `RaftMonotone.AppendCanRetreatWithoutPromise`).
- "WAL offset i holds Raft entry i + 1" holds, on any node of any run and for everything applied, exactly when every
  applied entry has data that the log stores and no snapshot has moved `lastApplied` over an entry
  (`NodeWal.WalMirrorsIff`). There are three ways to fail, and each shifts all that follows: the applier passes over nil
  payloads; the callback drops the error of an append that is refused, as one over 32 MiB is; and `TakeSnapshot`, which
  asks only that an index be committed, takes entries away before the applier gets to them, as installing a snapshot
  does. `RaftWitness.UnheldEntries` and `RaftWitness.SnapshotUnheld` give a run for each, from a fresh start to the
  entry's commitment.
- `EncodeFrame` cuts the payload length to 32 bits before its size check. A payload of 4 GiB is accepted and written as
  an empty one; the round trip holds exactly up to 32 MiB (`Frames.RoundTripIff`, `Frames.FourGigabytesAccepted`).
- The branch of `Lookup` that answers with the first slot after the search stops at 0 is never taken.
- Closing an index truncates its file through a handle that closing the mapping has already closed, so a reopened index
  counts every slot it has room for. Reads stay right, because a blank slot names the frame at byte 0
  (`SegmentLog.IndexedRead`, `Wal.Restart`); from then on the index takes no more entries.
- A partition list that names a partition twice can give it two owners (`Rebalance.OneOwnerIff` says exactly when).

## Model

| member | source | states |
|---|---|---|
| RaftRuns.RunHolds | raft/consensus.go:283-926 | the system invariant (history, every node, every message in flight, every tally) holds in every state of every run |
| RaftRuns.StepPreserves | raft/consensus.go:283-926 | every lock-held step of any node keeps the invariant, and history only grows |
| RaftSafety.StateMachineSafety | raft/consensus.go:612-640 | section 5.4.3: what two nodes have committed agrees entry by entry, across nodes and across time, under elections, compaction and snapshots |
| RaftSafety.CommittedEntriesEqual | raft/consensus.go:791-803 | the entries two nodes hold in memory at a committed index are equal |
| RaftSafety.LeadersHoldCommitted | raft/consensus.go:612-640 | leader completeness over runs: once any node knows an index committed, every leader of that or a later term holds the same log up to it |
| RaftLedger.LeaderCompleteness | raft/consensus.go:719-730 | an entry acknowledged by a majority in its own term is in the log every later term was won on: quorum intersection, up-to-date check and current-term rule together |
| RaftLedger.UpToDateInherits | raft/consensus.go:719-722 | the log comparison of the vote check passes a kept entry on from voter to candidate |
| RaftLedger.CommittedLogsAgree | raft/consensus.go:791-798 | two logs known safe up to their commit indices, in whatever terms, agree up to the lower one |
| RaftLedger.LogMatching | raft/consensus.go:773-789 | equal terms at a position mean equal logs up to it |
| RaftLedger.ElectionSafety | raft/consensus.go:450-458 | whoever holds a majority of a won term's votes is that term's leader |
| RaftSafety.OneLeaderPerTerm | raft/consensus.go:393-464 | no two nodes are ever leader in the same term, at any two moments of a run |
| RaftSafety.OneVotePerTerm | raft/consensus.go:686-733 | among all answers a node ever sends, its real grants of one term go to one candidate |
| RaftSafety.LogsMatch | raft/consensus.go:773-789 | section 5.3 over runs: the same term at an index means the same log up to it, across nodes and time |
| RaftSafety.InMemoryLog | raft/consensus.go:231-268 | the log in memory is contiguous after its anchor and holds exactly the full log's entries |
| RaftSafety.ProposalAppends | raft/consensus.go:643-659 | a proposal becomes the next entry of the proposer's term's log |
| RaftSafety.TermLogStays | raft/consensus.go:650-656 | the log of a won term never loses or replaces an entry |
| RaftSafety.AcknowledgedWritesSurvive | raft/consensus.go:643-683 | what Propose acknowledged at k, by polling role, term and commit index alone, is that payload in the proposer's log, in the log of every node that ever commits k and of every later leader |
| RaftSafety.MatchIndexTruthful | raft/consensus.go:760-803 | a successful AppendEntries answer, the branch inside the follower's snapshot included, agrees with the caller's term's log up to its match index |
| RaftSafety.SnapshotMatchTruthful | raft/consensus.go:806-864 | after an accepted InstallSnapshot the receiver agrees with the caller's term's log up to the snapshot's index |
| RaftSafety.LeaderPictureTruthful | raft/consensus.go:551-607 | whatever a leader has recorded as matched is below its own end and really acknowledged by that peer in its term |
| RaftSafety.CommittedAckHeld | raft/consensus.go:824-851 | an acknowledged entry that gets committed is never dropped from its holder's log, by snapshots or otherwise |
| RaftLedgerActions.ElectPreserves | raft/consensus.go:466-478 | winning a term on a majority of its ballots keeps the history's invariant |
| RaftLedgerActions.AcceptPreserves | raft/consensus.go:778-789 | taking over a leader's log up to an index keeps the history's invariant, earlier acknowledgements included |
| RaftLedgerActions.AppendPreserves | raft/consensus.go:650-656 | a leader's own append keeps the history's invariant |
| RaftLedgerActions.CastPreserves | raft/consensus.go:724-729 | casting a first ballot for an up-to-date candidate keeps the history's invariant |
| RaftElections.GrantOk | raft/consensus.go:712-730 | granting a real vote casts the one ballot of the term, for a candidate at least as up to date |
| RaftElections.TallyWins | raft/consensus.go:450-458 | the integer tally reaching the quorum is a majority of ballots |
| RaftElections.WinOk | raft/consensus.go:456-458 | such a candidate is the first to win its term and becomes a sound leader |
| RaftElections.SendsOk | raft/consensus.go:508-565 | everything a leader sends quotes its term's log, and no commit index beyond what it quotes |
| RaftReplication.CallContiguous | raft/consensus.go:257-268 | the entries of every call in flight carry consecutive indices from PrevLogIndex + 1 on |
| RaftReplication.ConsistencyCheck | raft/consensus.go:773-776 | the check at PrevLogIndex passes exactly when the follower's full log agrees with the leader's up to there |
| RaftReplication.SnapshotCheck | raft/consensus.go:829-839 | the handler's test for keeping its tail is agreement with the leader at the snapshot's index |
| RaftReplication.AppendEntriesOk | raft/consensus.go:736-803 | HandleAppendEntries leaves a sound node, sound history and a truthful answer, whatever term the call carries |
| RaftReplication.InstallSnapshotOk | raft/consensus.go:806-864 | the same for HandleInstallSnapshot |
| RaftReplication.ElectableCommitted | raft/consensus.go:612-640 | an index the counting loop accepts is acknowledged by a majority in the current term, hence committed |
| RaftCompaction.CompactReads | raft/consensus.go:241-268 | reading terms and entries off the compacted log gives the full log's, from the snapshot on |
| RaftCompaction.TakeSnapshotRefines | raft/consensus.go:867-901 | taking a snapshot leaves the full history as it is |
| RaftCompaction.CutCompacts | raft/consensus.go:831-836 | the anchor with the kept tail is the full log's compaction at the new index |
| RaftCompaction.StandingAgrees | raft/consensus.go:778-789 | entries that stand by term alone are equal to the leader's |
| RaftCompaction.MergeRefines | raft/consensus.go:778-789 | the replay loop on the compacted log is taking over the leader's log in the history |
| RaftRefinement.AppendEntriesRefines | raft/consensus.go:736-803 | HandleAppendEntries on a compacted node, trimmed branches included and whatever the call's term, does what it would do had the node never compacted: same full log, fields and verdict |
| RaftRefinement.SameVerdict | raft/consensus.go:736-803 | which match index each branch answers, against the uncompacted handler's, whatever the call's term |
| RaftMonotone.IndexOrdering | raft/consensus.go:791-901 | lastIncludedIndex <= lastApplied <= commitIndex <= lastLogIndex on every node in every reachable state |
| RaftMonotone.CountersOnlyRise | raft/consensus.go:480-901 | term, commit, applied and snapshot indices of every node only rise along every run |
| RaftMonotone.AppendRetreatsIff | raft/consensus.go:736-803 | exactly which calls lower the commit index, by a condition on the call and the node before it; no other counter ever falls |
| RaftMonotone.AppendCanRetreatWithoutPromise | raft/consensus.go:791-793 | a concrete call that lowers it |
| RaftMonotone.HandlersNeverRetreat | raft/consensus.go:686-926 | the other handlers never lower a counter, whatever they are called with |
| RaftDelivery.DeliveryInOrder | raft/consensus.go:903-926 | the applier delivers the node's own entries in strictly increasing order and skips only nil payloads and what a snapshot covers |
| RaftDelivery.DeliveriesComparable | raft/consensus.go:903-926 | two nodes no snapshot advanced have delivered sequences one of which is a prefix of the other |
| RaftDelivery.DeliversWholeIff | raft/consensus.go:896-922 | over every run, a node was handed its whole applied log exactly when no applied entry has a nil payload and no snapshot moved lastApplied over one |
| RaftConduct.GrantsIff | raft/consensus.go:686-733 | exactly when a vote or pre-vote is granted: term, this term's vote or no recent leader, and the candidate's described log up to date against the voter's full log |
| RaftConduct.VoteOutcome | raft/consensus.go:690-729 | what a request changes: a pre-vote nothing, a real one term, role and vote |
| RaftConduct.AppendCommits | raft/consensus.go:791-793 | a call that passes its checks from a leader that has committed more moves the commit index to the greatest index it vouches for; nothing else moves it |
| RaftConduct.AppendOutcome | raft/consensus.go:736-803 | which calls succeed, the match index of each branch, and every other field |
| RaftConduct.MergedMeans | raft/consensus.go:778-789 | the log is cut at the first clash and only there; what stands is kept, what is new appended |
| RaftConduct.InstallOutcome | raft/consensus.go:806-864 | a newer snapshot is taken over whole, commit and applied index rise to it where they were below; any other changes no log |
| RaftConduct.SnapshotOutcome | raft/consensus.go:867-901 | any committed index beyond the last snapshot is taken, with the full log's term; no other is |
| RaftConduct.CommitsGreatest | raft/consensus.go:612-640 | the new commit index is the greatest past the old one, in the current term, that a majority of the cluster is recorded as holding, or unchanged when there is none |
| RaftConduct.AppendHeard | raft/consensus.go:585-607 | what a leader makes of an answer: step down, ignore, record and commit, or go one entry back |
| RaftConduct.InstallHeard | raft/consensus.go:543-558 | an answered snapshot is recorded as matched where the leader has not probed beyond it |
| RaftConduct.SendsQuotes | raft/consensus.go:508-578 | a peer is sent the full log from its next index on with the entry before it and the commit index, or the snapshot when that is compacted away |
| RaftConduct.LeadProbes | raft/consensus.go:466-478 | a new leader knows nothing of anyone and first asks about its last entry |
| RaftConduct.AppliesAll | raft/consensus.go:909-922 | one wake-up leaves nothing committed unapplied |
| RaftConductRuns.RequestQuotes | raft/consensus.go:315-435 | over every run, a pre-vote or vote call was sent by a poll opening or a candidacy, for the term after its sender's, and quotes the end of the full log its sender had then |
| RaftConductRuns.RequestGranted | raft/consensus.go:686-733 | over every run, exactly when such a call is granted, by the sender's log then and the receiver's now |
| RaftConductRuns.WritesQuote | raft/consensus.go:508-578 | over every run, an AppendEntries or snapshot in flight quotes its sender's log, commit index and snapshot when it was sent, as leader |
| RaftConductRuns.CommitFollows | raft/consensus.go:791-802 | over every run, a successful call brings the receiver's commit index up to the sender's at sending; a refused one leaves it |
| RaftConductRuns.LeaderCommits | raft/consensus.go:597-640 | over every run, what a leader commits on an answer is the greatest index a majority is recorded as holding, and a majority has acknowledged it; none if there is none |
| RaftConductRuns.WinsIff | raft/consensus.go:445-459 | over every run, a vote makes its reader leader exactly when it is a grant of the term it stands for that completes a majority of the cluster |
| RaftConductRuns.StandsIff | raft/consensus.go:380-411 | over every run, a poll leads to a candidacy exactly when a majority of the cluster granted it and its opener is not leader |
| RaftConductRuns.LeaderWrites | raft/consensus.go:476-658 | a heartbeat, a proposal, a win and an advance of the commit index are each told to every peer |
| RaftProvenance.SnapshotTaken | raft/consensus.go:806-901 | every snapshot a node holds was once taken by a node at that index with that data, when the taker had committed it |
| RaftProvenance.AnswerOrigin | raft/consensus.go:686-733 | every vote answer in flight was given by its call's receiver, in the state it had at a step of the run |
| RaftProvenance.CountedYielded | raft/consensus.go:364-367 | every peer a poll counts had, when asked, a log no more up to date than the opener's when it asked |
| RaftProvenance.CandidatesAhead | raft/consensus.go:302-306 | whoever stands has behind it a majority of the cluster whose logs, each when asked, were no more up to date than its own when it asked |
| NodeWal.OnCommits | cmd/node/main.go:231-234 | after the callbacks of one wake-up the log has grown by the payloads it stores, the others dropped without a word |
| NodeWal.Apply | raft/consensus.go:908-923 | one wake-up of the engine's applier with its callbacks: the engine's fields, and what the log takes |
| NodeWal.DeliverAppends | raft/consensus.go:908-923 | the machine's applier step adds to a node's log what that wake-up does |
| NodeWal.WalMirrorsIff | cmd/node/main.go:231-234 | over every run and node, WAL offset i holds the data of Raft entry i + 1, for everything applied, exactly when every applied entry has data that the log stores and no snapshot moved lastApplied over an entry |
| NodeWal.LimitIsMaxPayload | network/binary_protocol.go:51-53 | which payloads those are, with segments that take any legal frame: the ones of at most 32 MiB |
| NodeWal.WalsComparable | cmd/node/main.go:231-234 | the logs of two nodes that no snapshot advanced are one a prefix of the other, whatever was dropped |
| NodeWal.AcknowledgedWriteReadable | tests/chaos_test.go:136-147 | what Propose acknowledged at k is at WAL offset k - 1 of every node that has applied it, that no snapshot advanced and that stores what it applies |
| RaftWitness.CommitsAndApplies | raft/consensus.go:283-926 | whatever the payload, a run of two fresh nodes that elects a leader, acknowledges the payload and applies it |
| RaftWitness.FollowerApplies | raft/consensus.go:629-922 | the run goes on: the follower is told, commits and applies the very entry |
| RaftWitness.HeldOnlyIfStorable | cmd/node/main.go:231-234 | in that run the leader's WAL holds the entry exactly when the payload is one it stores |
| RaftWitness.UnheldEntries | cmd/node/main.go:231-234 | concrete runs in which a committed and applied entry is missing: one with a nil payload, one over the limit |
| RaftWitness.SnapshotUnheld | raft/consensus.go:867-901 | a concrete run in which a committed, storable entry never reaches the WAL, because a snapshot took it before the applier did |
| RaftIsolation.MinorityStaysCalm | raft/consensus.go:313-391 | fewer than a quorum, cut off with no outsider already counted: the largest term never rises and nobody newly leads |
| RaftIsolation.RunPolls | raft/consensus.go:336-390 | a pre-vote's integer tally is the poller and the distinct peers counted, in every run |
| RaftCatchUp.AppendVerdict | raft/consensus.go:597-607 | a leader's round with a peer succeeds exactly when the peer's log agrees at the probed index or its snapshot covers it, and then matches the leader's whole log |
| RaftCatchUp.RoundProgress | raft/consensus.go:513-607 | a round levels the pair or comes strictly closer, by back-off or by snapshot |
| RaftCatchUp.CallVerdict | raft/consensus.go:736-803 | the same for any call of the leader that probes where it would probe now, whenever it reaches the peer |
| RaftCatchUpRuns.CatchUpOverRuns | raft/consensus.go:513-607 | in any part of any run in which a leader and a peer stay in its term with no new proposals or leader snapshots, whatever all others do between, all but lastLogIndex - lastIncludedIndex + 2 of the pair's complete rounds, and one more per late answer the leader reads, leave it level; without late answers the pair stays level once lastLogIndex - lastIncludedIndex + 3 rounds are complete |
| RaftCatchUpRuns.MoveOnCourse | raft/consensus.go:513-864 | what each step keeps: beside a round the measure does not rise, a complete round lowers it, a late answer raises it by at most one |
| RaftCatchUpRuns.DoneIsLevel | raft/consensus.go:597-600 | a round that ends so leaves the leader with its whole log recorded as matched, and the peer agrees with all of it |
| RaftCatchUp.CatchUpBound | raft/consensus.go:513-607 | from any reachable state, at most so many rounds run back to back level the pair |
| RaftCatchUp.RoundsExtendRun | raft/consensus.go:508-610 | those rounds are steps of the machine: they extend any run |
| RaftTypes.MajoritiesMeet | raft/consensus.go:404-406 | two quorums share a member |
| RaftEngine.RaftNode.constructor | raft/consensus.go:176-193 | a fresh node |
| RaftEngine.RaftNode.GetLogTerm | raft/consensus.go:241-254 | the method reads the term the specification reads, in every branch |
| RaftEngine.RaftNode.GetLogSlice | raft/consensus.go:257-268 | likewise the entries from an index on |
| RaftEngine.RaftNode.StepDown | raft/consensus.go:480-486 | the fields after stepping down |
| RaftEngine.RaftNode.HandleRequestVote | raft/consensus.go:686-733 | fields and reply are OnRequestVote's |
| RaftEngine.RaftNode.HandleAppendEntries | raft/consensus.go:736-803 | fields and reply are OnAppendEntries's, trimming included |
| RaftEngine.RaftNode.ReplayEntries | raft/consensus.go:778-789 | the loop's truncations and appends amount to one splice after the entries that stand |
| RaftEngine.RaftNode.HandleInstallSnapshot | raft/consensus.go:806-864 | fields and reply are OnInstallSnapshot's |
| RaftEngine.RaftNode.TakeSnapshot | raft/consensus.go:867-901 | fields are OnTakeSnapshot's, and which error each refusal gives |
| RaftEngine.RaftNode.StartPreVote | raft/consensus.go:315-329 | the question a pre-vote asks, with no field changed |
| RaftEngine.RaftNode.ReadPreVote | raft/consensus.go:358-371 | a pre-vote answer's term is observed and its grant counted |
| RaftEngine.RaftNode.StartElection | raft/consensus.go:393-411 | term, self-vote and request of a new candidacy, or leadership at once when alone |
| RaftEngine.RaftNode.ReadVote | raft/consensus.go:442-459 | an answer steps down, counts, or is ignored; the vote that completes the quorum makes the reader leader |
| RaftEngine.RaftNode.BecomeLeader | raft/consensus.go:466-478 | the peer maps reset by the loop, and what is broadcast |
| RaftEngine.RaftNode.BroadcastAppendEntries | raft/consensus.go:508-610 | what every peer is sent, entries or snapshot |
| RaftEngine.RaftNode.CheckAndUpdateCommitIndex | raft/consensus.go:612-640 | the scan stops at the greatest current-term index a majority matches |
| RaftEngine.RaftNode.ReadAppendReply | raft/consensus.go:585-607 | how an AppendEntries answer moves the leader's indices |
| RaftEngine.RaftNode.ReadInstallReply | raft/consensus.go:543-558 | how an InstallSnapshot answer does |
| RaftEngine.RaftNode.Propose | raft/consensus.go:643-660 | refused unless leader; otherwise the appended entry and its index |
| RaftEngine.RaftNode.PollProposal | raft/consensus.go:670-680 | when a waiting proposal succeeds, fails or waits on |
| RaftEngine.RaftNode.ApplyCommitted | raft/consensus.go:910-922 | the applier's loop hands over exactly the committed entries with data not yet applied |
| Bytes.PutBig | network/binary_protocol.go:63-70 | the in-place big-endian writes |
| Bytes.BigOfValue | network/binary_protocol.go:90-96 | big-endian reading is inverse to writing |
| Frames.EncodeFrame | network/binary_protocol.go:49-75 | the bytes written into the buffer are the frame's, or the payload is refused |
| Frames.DecodeFrame | network/binary_protocol.go:79-117 | outcome and bytes consumed depend on the stream's bytes alone, not on how they arrive |
| Frames.DecodeEncode | network/binary_protocol.go:49-117 | an encoded frame of at most 32 MiB decodes to itself and takes exactly its bytes, whatever follows |
| Frames.RoundTripIff | network/binary_protocol.go:49-117 | a payload comes back from its encoding exactly when it is at most 32 MiB |
| Frames.FrameLayout | network/binary_protocol.go:12-75 | the frame byte by byte: 0x4B, length, offset, checksum, payload, each number most significant byte first |
| Frames.FourGigabytesAccepted | network/binary_protocol.go:50-53 | a payload of 4 GiB is accepted and written as an empty one |
| Frames.DecodedIsWire | network/binary_protocol.go:79-117 | whatever decodes is its own encoding, byte for byte |
| Frames.CutFrame | network/binary_protocol.go:80-105 | no proper prefix of a frame decodes as a frame, and when it reads as a clean end of stream |
| Frames.DamageCaught | network/binary_protocol.go:105-108 | a damaged payload is refused exactly when its checksum differs |
| Frames.ParseWire | network/binary_protocol.go:79-117 | a concatenation of frames reads back as the same frames in order, then whatever follows |
| Frames.WireInjective | network/binary_protocol.go:46-75 | different lists of frames have different bytes |
| Frames.Receive | cmd/node/main.go:335-339 | the connection loop reads the frames the bytes hold, however they are cut into packets |
| Frames.Exchange | tests/binary_protocol_test.go:63-86 | everything written frame by frame is received in order, ending cleanly, for every packet plan |
| Frames.Writer.WriteFrame | network/binary_protocol.go:120-127 | what reaches the stream, or nothing |
| SparseIndex.SparseIndex.Open | storage/index.go:27-67 | the file mapped at full size, every slot it has room for counted |
| SparseIndex.SlotLayout | storage/index.go:12-80 | a slot byte by byte: relative offset, then position, most significant byte first |
| SparseIndex.SparseIndex.Append | storage/index.go:70-84 | one slot more and nothing else changed, or full |
| SparseIndex.SparseIndex.Lookup | storage/index.go:88-115 | the answer is a slot at or below the target whose successor is above it, in whatever order the slots are |
| SparseIndex.LookupGreatest | storage/index.go:88-115 | over ascending slots that is the greatest at or below the target |
| SegmentLog.IndexedRead | storage/wal_segment.go:183-219 | an indexed read equals a scan from byte 0 and finds the payload, given only truthful slots |
| SegmentLog.ScanReads | storage/wal_segment.go:194-218 | a linear scan finds exactly the payload of the offset, or that there is none |
| SegmentLog.ScanFindsLog | storage/wal_segment.go:125-145 | the recovery scan of a log and its blank tail finds its frames and nothing else |
| SegmentLog.LogSplit | storage/wal_segment.go:191-216 | from the start of any frame on, the log is the log of the remaining payloads |
| SegmentLog.CheckpointsOrdered | storage/wal_segment.go:168-173 | the slots written since creation are truthful, ascending, and begin with the first frame |
| SegmentLog.IndexNeverFills | storage/wal_segment.go:94-168 | at most 1 + (maxBytes - 17) / interval slots, fewer than the index has room for |
| SegmentLog.SeekIsClose | storage/wal_segment.go:191-195 | a read starts at or before its frame and fewer than interval bytes away |
| WalSegment.RecoveryExact | storage/wal_segment.go:125-145 | on any clean log recovery gives the position, frames and next offset of the log |
| WalSegment.Segment.Open | storage/wal_segment.go:60-122 | opening files that hold ps, new or not, gives a valid segment that holds ps |
| WalSegment.Segment.Recover | storage/wal_segment.go:125-145 | write position and next offset after whatever frames the bytes hold |
| WalSegment.Segment.Append | storage/wal_segment.go:148-180 | the payload list grows by one, or the error and nothing changed; the frame gets an index slot exactly when it is first or interval bytes past the last one and the index has room |
| WalSegment.Segment.RelativeFits | storage/wal_segment.go:168-173 | relative offsets and position differences never lose bits; an index kept since creation has room |
| WalSegment.Segment.Seek | storage/wal_segment.go:191-195 | the start of a read: a frame at or before the target, close to it when the index is as old as the segment |
| WalSegment.Segment.ReadAt | storage/wal_segment.go:183-219 | exactly the payload at the offset, or not found |
| WalSegment.Segment.FilesHold | storage/index.go:118-143 | the files a segment leaves hold its payloads, whether or not the index file was cut on closing |
| Wal.Wal.Append | storage/wal_segment.go:325-355 | consecutive offsets, contents grown by exactly the payload; a new segment, based at the next offset, exactly when the frame does not fit; a payload over 32 MiB or whose frame fits in no segment is refused and leaves the contents alone |
| Wal.Wal.RollActiveSegment | storage/wal_segment.go:358-370 | rolling changes no contents, an empty segment rolled onto its own files included |
| Wal.Wal.ReadAt | storage/wal_segment.go:373-393 | the i-th payload for every offset below the next one, across segments, and not found otherwise |
| Wal.Wal.Close | storage/wal_segment.go:413-433 | closing seals every segment and leaves the contents as they are |
| Wal.OpenWAL | storage/wal_segment.go:271-322 | opening a directory in any listing order gives the contents its files hold |
| Wal.Restart | storage/wal_segment.go:271-322 | restart is the identity: same contents, next offset and write position |
| Wal.Replay | storage/wal_segment.go:325-393 | over any run of appends and restarts, reading any offset finds exactly the payload stored there |
| Sorting.SortOfSame | storage/wal_segment.go:291-293 | sorting gives the same list whatever order the elements came in |
| Rebalance.RankOfSorted | consumer/group_coordinator.go:265-270 | a member's place in the sorted ids depends on the member set alone |
| Rebalance.BeforeIff | consumer/group_coordinator.go:270 | the order of ids is the lexicographic one, stated by index: a prefix, or smaller at the first difference |
| Rebalance.ShareByOrder | consumer/group_coordinator.go:260-276 | the member with exactly k ids lexicographically below its own gets the list's positions k, k + n, k + 2n and so on to its end |
| Rebalance.ShareIs | consumer/group_coordinator.go:272-275 | which partitions a member gets, one by one, and how many |
| Rebalance.OwnsIff | consumer/group_coordinator.go:272-275 | a member owns exactly the partitions whose positions fall to its rank |
| Rebalance.EveryPartitionOwned | consumer/group_coordinator.go:260-276 | every listed partition has an owner |
| Rebalance.OneOwnerIff | consumer/group_coordinator.go:260-276 | no partition has two owners exactly when equal list entries fall to one member |
| Rebalance.RepeatedPartition | consumer/group_coordinator.go:272-275 | a list with a repeated partition that gives it two owners |
| Rebalance.Fair | consumer/group_coordinator.go:272-275 | loads differ by at most one |
| Rebalance.AllDealt | consumer/group_coordinator.go:260-276 | the shares together are the list: nothing lost, nothing handed out twice |
| Rebalance.RunKeepsDeal | consumer/group_coordinator.go:288-304 | in every run, whoever is left holds what the last rebalance gave it |
| Rebalance.RunHasOneOwner | consumer/group_coordinator.go:125-170 | over every run of joins, leaves, heartbeats and evictions with repetition-free lists, no partition has two owners |
| Rebalance.RunIsLevel | consumer/group_coordinator.go:125-304 | and loads differ by at most one, whatever the lists |
| Rebalance.OnlyEvictionOrphans | consumer/group_coordinator.go:288-304 | the partition at position i of the last list is owned by the member whose rank it falls to while that member stays; if it is gone, an eviction after the last rebalance took it; with a repetition-free list it is owned exactly while that member stays |
| Rebalance.MissingWasEvicted | consumer/group_coordinator.go:288-304 | whoever was in the last rebalance and is missing was stale at an eviction after it |
| Rebalance.HeardLast | consumer/group_coordinator.go:141-190 | over every run, what is recorded of a member is the time of its last join or heartbeat |
| Rebalance.EvictsIff | consumer/group_coordinator.go:291-300 | over every run, a pass takes a member out exactly when more than the timeout has gone by since it was last heard |
| Rebalance.GenerationCounts | consumer/group_coordinator.go:145-301 | over every run, the generation counts the joins, the leaves and the passes that evicted somebody |
| GroupCoordinator.ConsumerGroup.Rebalance | consumer/group_coordinator.go:260-276 | the in-place clearing and dealing gives the balanced assignment of the member set, whatever order the map is walked in |
| GroupCoordinator.ConsumerGroup.DropStale | consumer/group_coordinator.go:292-301 | deleting while walking the map removes exactly the members not heard in time |
| GroupCoordinator.ConsumerGroup.SoundAssignment | consumer/group_coordinator.go:125-304 | a group object is always in a state its steps lead to, so one owner per partition and level loads |
| GroupCoordinator.Coordinator.SoundAssignments | consumer/group_coordinator.go:125-304 | the same for every group the coordinator holds |
| GroupCoordinator.Coordinator.constructor | consumer/group_coordinator.go:57-77 | an empty coordinator, with the default timeout for 0 |
| GroupCoordinator.Coordinator.JoinGroup | consumer/group_coordinator.go:125-150 | the group made if missing, rebalanced with the member in it; other groups unchanged; the member's share returned |
| GroupCoordinator.Coordinator.LeaveGroup | consumer/group_coordinator.go:153-170 | the group rebalanced without the member, or the error and nothing changed |
| GroupCoordinator.Coordinator.Heartbeat | consumer/group_coordinator.go:173-192 | the member's time moved, or which error |
| GroupCoordinator.Coordinator.EvictionPass | consumer/group_coordinator.go:288-304 | every group loses exactly its stale members, with no rebalance |

## Left out

- Restart of a Raft node and unequal or positive `InitialCommitIndex`: term, vote and log are not kept on disk, so the
  election and commit theorems are only meant for nodes that stop for good.
- Timers, random timeouts, goroutine scheduling and liveness of elections: a timeout may fire at any time, and nothing is
  claimed about when.
- RaftEngine.RaftNode.HandleAppendEntries: asks that the entries of one call carry consecutive indices, which every call in flight does (RaftReplication.CallContiguous); the handler itself does not look.
- RaftEngine.RaftNode.ReplayEntries: the same.
- RaftEngine.RaftNode.constructor: `InitialCommitIndex` above 0, which fills the log with entries of term 0, is not modelled.
- The notification channel of the applier: its wake-up is a step that may happen at any time.
- Progress of a single-node cluster: its commit index is only evaluated on peer replies, so none follows from the code.
- Wrap-around of uint64 terms, indices and generations: they are unbounded; file offsets are bounded by 2^64 in the storage part.
- Contents of snapshots: payloads are opaque, so agreement is proved on indices, terms and entries, not on restored application state.
- Overlapping runs of the same node's applier callback and snapshot callback: deliveries are recorded in the order the lock gives them.
- TCP, JSON and TLS transport, HTTP and WebSocket server, fault injection, benchmarks and dashboard: plumbing.
- Win32 mapping, flushing and file handles (`storage/mmap_windows.go`): a mapped file is a fixed-size byte array, and I/O errors do not occur.
- The checksum algorithm: any function of the payload.
- Torn or damaged segment tails followed by new appends: restart is proved for files that a run left.
- Wal.Wal.Append: payloads of 4 GiB or more that the encoder would cut short are shut out; so are they in Wal.Replay and NodeWal.
- Wal.Wal.RollActiveSegment: when an empty segment is rolled, the old and the new mapping of its files are two arrays here; the old one is never read or written again.
- WalSegment.Segment.Append: payloads of 4 GiB or more that the encoder would cut short are shut out; Frames.RoundTripIff shows they do not round trip.
- WalSegment.Segment.Open: files longer than the configured size, as after lowering MaxSegmentBytes, are shut out.
- SparseIndex.SparseIndex.Open: index files longer than the configured size are shut out likewise.
- GroupCoordinator.Coordinator.constructor: groups restored from the offsets file, which have no members, are not modelled.
- SegmentLog.SeekIsClose: the scan bound is for an index as old as its segment; a reopened index may have stopped taking slots.
- Segment reads after closing: the code would touch unmapped memory; the WAL's own closed flag is modelled.
- Offset checkpoints (`CommitOffset`, `FetchOffset`, `recoverOffsets`): a last-write-wins replay of JSON lines.
- `LatencyTracker`: an insertion sort over floats.
- Concurrency inside the storage and coordinator locks: each method is one critical section.
