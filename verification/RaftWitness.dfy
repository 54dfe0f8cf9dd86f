/** The machine does commit: a run of two nodes from their fresh start to the delivery of a proposed entry, one step
    to a lemma. It shows that the runs the theorems speak of get somewhere, and it is the concrete input that makes a
    node's log miss an entry the cluster has committed. */
module RaftWitness {
  import opened RaftTypes
  import opened RaftHandlers
  import opened RaftLedger
  import opened RaftCluster
  import opened RaftInvariant
  import opened RaftReplication
  import opened RaftSafety
  import opened Frames
  import opened Wal
  import opened NodeWal

  const A := NodeId("a")
  const B := NodeId("b")

  const POLL := RequestVoteArgs(1, A, 0, 0, true)
  const VOTE := RequestVoteArgs(1, A, 0, 0, false)

  function Asked(round: nat, args: RequestVoteArgs): Call {
    Call(A, B, round, Vote(args))
  }

  function Quoted(e: Entry): Call {
    Call(A, B, 0, Append(AppendEntriesArgs(1, A, 0, 0, [e], 0)))
  }

  /** What a tells b once the entry at index 1 is committed: nothing new but the commit index. */
  function Told(): Call {
    Call(A, B, 0, Append(AppendEntriesArgs(1, A, 1, 1, [], 1)))
  }

  /** Node a as it stands for term 1, leads it, proposes, commits; node b as it votes and as it accepts. */
  function Standing(): Node {
    Stand(Fresh(A, [B]))
  }

  function Leading(): Node {
    Standing().(role := Leader, leaderID := A, nextIndex := map[B := 1], matchIndex := map[B := 0])
  }

  function Proposing(e: Entry): Node {
    Leading().(log := [ORIGIN, e])
  }

  function Committing(e: Entry): Node {
    Proposing(e).(nextIndex := map[B := 2], matchIndex := map[B := 1], commitIndex := 1)
  }

  function Voting(): Node {
    StepDown(Fresh(B, [A]), 1).(votedFor := A)
  }

  function Accepting(e: Entry): Node {
    Voting().(leaderID := A, log := [ORIGIN, e])
  }

  /** Where the two nodes stand, with nothing delivered yet and nothing skipped. */
  ghost predicate Stands(c: Cluster, a: Node, b: Node) {
    && c.nodes == map[A := a, B := b] && A in c.loops && B in c.loops && A in c.rounds && B in c.rounds
    && A in c.delivered && B in c.delivered && c.delivered[A] == [] && c.delivered[B] == []
    && A in c.skipped && B in c.skipped && c.skipped[A] == {} && c.skipped[B] == {}
  }

  lemma Start() returns (c: Cluster)
    ensures Init(c) && Stands(c, Fresh(A, [B]), Fresh(B, [A])) && c.loops[A] == Waiting && c.rounds[A] == 0
  {
    var ids := {A, B};
    c := Cluster(map[A := Fresh(A, [B]), B := Fresh(B, [A])], {}, {}, map[], map[], map[A := Waiting, B := Waiting],
                 map[A := 0, B := 0], map[A := [], B := []], map[A := {}, B := {}],
                 Ledger(ids, map n | n in ids :: Member(0, [ORIGIN]), map[], map[], map[], map[]));
    assert (set p | p in [B]) == ids - {A} && (set p | p in [A]) == ids - {B};
  }

  lemma PollOpens(c: Cluster) returns (c': Cluster)
    requires Stands(c, Fresh(A, [B]), Fresh(B, [A])) && c.loops[A] == Waiting && c.rounds[A] == 0
    ensures Next(c, c') && Stands(c', Fresh(A, [B]), Fresh(B, [A])) && c'.loops[A] == Polling(1)
    ensures Slot(A, 1) in c'.polls && c'.polls[Slot(A, 1)] == Poll(1, {}, {}, {}) && Asked(1, POLL) in c'.calls
  {
    assert Enabled(c, StartPreVote(A));
    c' := After(c, StartPreVote(A));
    assert B in c.nodes[A].peers;
  }

  lemma PollAnswered(c: Cluster) returns (c': Cluster)
    requires Stands(c, Fresh(A, [B]), Fresh(B, [A])) && c.loops[A] == Polling(1)
    requires Slot(A, 1) in c.polls && c.polls[Slot(A, 1)] == Poll(1, {}, {}, {}) && Asked(1, POLL) in c.calls
    ensures Next(c, c') && Stands(c', Fresh(A, [B]), Fresh(B, [A])) && c'.loops[A] == Polling(1)
    ensures Slot(A, 1) in c'.polls && c'.polls[Slot(A, 1)] == Poll(1, {}, {}, {})
    ensures Answer(Asked(1, POLL), Voted(RequestVoteReply(0, true))) in c'.answers
  {
    assert Enabled(c, AnswerVote(Asked(1, POLL), false));
    c' := After(c, AnswerVote(Asked(1, POLL), false));
  }

  lemma PollCarried(c: Cluster) returns (c': Cluster, c'': Cluster)
    requires Stands(c, Fresh(A, [B]), Fresh(B, [A])) && c.loops[A] == Polling(1)
    requires Slot(A, 1) in c.polls && c.polls[Slot(A, 1)] == Poll(1, {}, {}, {})
    requires Answer(Asked(1, POLL), Voted(RequestVoteReply(0, true))) in c.answers
    ensures Next(c, c') && Next(c', c'') && Stands(c'', Fresh(A, [B]), Fresh(B, [A])) && c''.loops[A] == Polling(1)
    ensures Slot(A, 1) in c''.polls && c''.polls[Slot(A, 1)].votes == 2
  {
    var a := Answer(Asked(1, POLL), Voted(RequestVoteReply(0, true)));
    assert Enabled(c, HearPreVote(a));
    c' := After(c, HearPreVote(a));
    assert Enabled(c', CountPreVote(A, 1, B));
    c'' := After(c', CountPreVote(A, 1, B));
  }

  lemma Stood(c: Cluster) returns (c': Cluster)
    requires Stands(c, Fresh(A, [B]), Fresh(B, [A])) && c.loops[A] == Polling(1)
    requires Slot(A, 1) in c.polls && c.polls[Slot(A, 1)].votes == 2
    ensures Next(c, c') && Stands(c', Standing(), Fresh(B, [A])) && Asked(0, VOTE) in c'.calls
    ensures Slot(A, 1) in c'.elections && c'.elections[Slot(A, 1)] == Tally(1, {}, {})
  {
    assert Enabled(c, FinishPreVote(A));
    c' := After(c, FinishPreVote(A));
    assert B in c.nodes[A].peers;
  }

  lemma Granted(c: Cluster) returns (c': Cluster)
    requires Stands(c, Standing(), Fresh(B, [A])) && Asked(0, VOTE) in c.calls
    requires Slot(A, 1) in c.elections && c.elections[Slot(A, 1)] == Tally(1, {}, {})
    ensures Next(c, c') && Stands(c', Standing(), Voting())
    ensures Slot(A, 1) in c'.elections && c'.elections[Slot(A, 1)] == Tally(1, {}, {})
    ensures Answer(Asked(0, VOTE), Voted(RequestVoteReply(1, true))) in c'.answers
  {
    assert Enabled(c, AnswerVote(Asked(0, VOTE), false));
    c' := After(c, AnswerVote(Asked(0, VOTE), false));
  }

  lemma Elected(c: Cluster) returns (c': Cluster)
    requires Stands(c, Standing(), Voting())
    requires Slot(A, 1) in c.elections && c.elections[Slot(A, 1)] == Tally(1, {}, {})
    requires Answer(Asked(0, VOTE), Voted(RequestVoteReply(1, true))) in c.answers
    ensures Next(c, c') && Stands(c', Leading(), Voting())
  {
    hide Lead, Broadcast, Sent, Won, Raised;
    LeadIsLeading();
    var a := Answer(Asked(0, VOTE), Voted(RequestVoteReply(1, true)));
    assert Enabled(c, HearVote(a));
    c' := After(c, HearVote(a));
  }

  lemma LeadIsLeading()
    ensures Lead(Standing()) == Leading()
  {
    assert Filled(map[], [B], 1) == map[B := 1] && Filled(map[], [B], 0) == map[B := 0];
  }

  lemma ProposedHere(c: Cluster, payload: Payload) returns (c': Cluster)
    requires Stands(c, Leading(), Voting())
    ensures var e := Entry(1, 1, payload);
      Enabled(c, ProposeEntry(A, payload)) && c' == After(c, ProposeEntry(A, payload))
      && Stands(c', Proposing(e), Voting()) && Quoted(e) in c'.calls
  {
    hide Proposed, Broadcast, Sent, Extended;
    ProposalSent(payload);
    assert Enabled(c, ProposeEntry(A, payload));
    c' := After(c, ProposeEntry(A, payload));
  }

  lemma ProposalSent(payload: Payload)
    ensures var e := Entry(1, 1, payload);
      Proposed(Leading(), payload) == Proposing(e) && Quoted(e) in Sent(A, Broadcast(Proposing(e)))
  {
    var e := Entry(1, 1, payload);
    assert Sends(Proposing(e), B) == Entries(B, Quoted(e).request.append);
    assert Broadcast(Proposing(e))[0] == Sends(Proposing(e), B);
    assert Calling(A, Sends(Proposing(e), B)) in Sent(A, Broadcast(Proposing(e)));
  }

  lemma AcceptedThere(c: Cluster, e: Entry) returns (c': Cluster)
    requires e.index == 1 && e.term == 1 && Stands(c, Proposing(e), Voting()) && Quoted(e) in c.calls
    ensures Next(c, c') && Stands(c', Proposing(e), Accepting(e))
    ensures Answer(Quoted(e), Appended(AppendEntriesReply(1, true, 1))) in c'.answers
  {
    hide OnAppendEntries, Raised, Accepted;
    AcceptsQuoted(e);
    assert Enabled(c, AnswerAppend(Quoted(e)));
    c' := After(c, AnswerAppend(Quoted(e)));
  }

  lemma AcceptsQuoted(e: Entry)
    requires e.index == 1 && e.term == 1
    ensures OnAppendEntries(Voting(), Quoted(e).request.append) == (Accepting(e), AppendEntriesReply(1, true, 1))
  {
    assert RaftHandlers.Standing([ORIGIN], 1, [e]) == 0;
    assert [ORIGIN][..1] + [e][0..] == [ORIGIN, e];
  }

  lemma CommittedHere(c: Cluster, e: Entry) returns (c': Cluster)
    requires e.index == 1 && e.term == 1 && Stands(c, Proposing(e), Accepting(e))
    requires Answer(Quoted(e), Appended(AppendEntriesReply(1, true, 1))) in c.answers
    ensures Next(c, c') && Stands(c', Committing(e), Accepting(e)) && Told() in c'.calls
  {
    var a := Answer(Quoted(e), Appended(AppendEntriesReply(1, true, 1)));
    hide OnAppendReply, Sent, Raised;
    ReplyCommits(e);
    CommitTold(e);
    assert Enabled(c, HearAppend(a));
    c' := After(c, HearAppend(a));
  }

  lemma ReplyCommits(e: Entry)
    requires e.index == 1 && e.term == 1
    ensures OnAppendReply(Proposing(e), B, 1, AppendEntriesReply(1, true, 1))
      == (Committing(e), Broadcast(Committing(e)))
  {
    hide Broadcast;
    var v := Proposing(e).(nextIndex := map[B := 2], matchIndex := map[B := 1]);
    assert map[B := 1][B := 2] == map[B := 2] && map[B := 0][B := 1] == map[B := 1];
    assert Matching(v, [B], 1) == Matching(v, [], 1) + 1;
    assert Electable(v, 1);
    assert QuorumIndex(v, 1) == 1;
  }

  lemma CommitTold(e: Entry)
    requires e.index == 1 && e.term == 1
    ensures Told() in Sent(A, Broadcast(Committing(e)))
  {
    assert Committing(e).LogFrom(2) == [] && Committing(e).LogTerm(1) == 1;
    var o := Sends(Committing(e), B);
    assert o == Entries(B, Told().request.append);
    assert Broadcast(Committing(e))[0] == o;
    assert o in Broadcast(Committing(e)) && Calling(A, o) == Told();
  }

  lemma DeliveredHere(c: Cluster, e: Entry) returns (c': Cluster)
    requires e.index == 1 && e.term == 1 && Stands(c, Committing(e), Accepting(e))
    ensures Next(c, c') && A in c'.nodes && c'.nodes[A] == Committing(e).(lastApplied := 1)
    ensures A in c'.delivered && c'.delivered[A] == (if e.data == Nil then [] else [e]) && A in c'.skipped
    ensures c'.skipped[A] == {} && Follows(c', Accepting(e)) && c'.calls == c.calls
  {
    assert Enabled(c, Deliver(A));
    c' := After(c, Deliver(A));
    assert Deliveries(Committing(e), 0, 0) == [];
  }

  /** Where node b stands, with nothing delivered yet. */
  ghost predicate Follows(c: Cluster, b: Node) {
    B in c.nodes && c.nodes[B] == b && B in c.loops && B in c.rounds && B in c.delivered && c.delivered[B] == []
    && B in c.skipped && c.skipped[B] == {}
  }

  lemma CommittedThere(c: Cluster, e: Entry) returns (c': Cluster)
    requires e.index == 1 && e.term == 1 && Follows(c, Accepting(e)) && Told() in c.calls
    ensures Next(c, c') && Follows(c', Accepting(e).(commitIndex := 1))
  {
    hide Raised, Accepted;
    assert RaftHandlers.Standing([ORIGIN, e], 2, []) == 0;
    assert Enabled(c, AnswerAppend(Told()));
    c' := After(c, AnswerAppend(Told()));
  }

  lemma DeliveredThere(c: Cluster, e: Entry) returns (c': Cluster)
    requires e.index == 1 && e.term == 1 && Follows(c, Accepting(e).(commitIndex := 1))
    ensures Next(c, c') && B in c'.nodes && c'.nodes[B] == Accepting(e).(commitIndex := 1, lastApplied := 1)
    ensures B in c'.delivered && c'.delivered[B] == (if e.data == Nil then [] else [e])
  {
    assert Enabled(c, Deliver(B));
    c' := After(c, Deliver(B));
    assert Deliveries(Accepting(e).(commitIndex := 1), 0, 0) == [];
  }

  /** Whatever the payload, there is a run in which node a proposes it, has it acknowledged and applies it. */
  lemma CommitsAndApplies(payload: Payload) returns (cs: seq<Cluster>)
    ensures |cs| == 12 && Run(cs) && A in cs[7].nodes && |cs[7].nodes[A].log| > 0 && Acknowledged(cs, 7, 10, A, payload)
    ensures A in cs[11].nodes && cs[11].nodes[A].lastApplied == 1 && A in cs[11].skipped && cs[11].skipped[A] == {}
    ensures FullLog(cs[11], A) == [ORIGIN, Entry(1, 1, payload)]
    ensures Follows(cs[11], Accepting(Entry(1, 1, payload))) && Told() in cs[11].calls
  {
    hide Run, Init, Next, Enabled, After, Stands, Proposing, Accepting, Committing;
    var e := Entry(1, 1, payload);
    cs := Elects();
    var c8 := ProposedHere(cs[7], payload);
    assert Enabled(cs[7], ProposeEntry(A, payload));
    StepIsNext(cs[7], c8, ProposeEntry(A, payload));
    var c9 := AcceptedThere(c8, e);
    var c10 := CommittedHere(c9, e);
    var c11 := DeliveredHere(c10, e);
    LeaderNow(cs[7], Leading(), Voting());
    LeaderNow(c10, Committing(e), Accepting(e));
    CommittingIs(e);
    cs := Longer(cs, c8);
    cs := Longer(cs, c9);
    cs := Longer(cs, c10);
    cs := Longer(cs, c11);
    WholeLog(cs, 11, e);
  }

  /** And it goes on: told of the commit index, node b commits and applies the very entry a has applied. */
  lemma FollowerApplies(payload: Payload) returns (cs: seq<Cluster>)
    ensures |cs| == 14 && Run(cs) && A in cs[7].nodes && |cs[7].nodes[A].log| > 0 && Acknowledged(cs, 7, 10, A, payload)
    ensures var e := Entry(1, 1, payload);
      && B in cs[11].nodes && cs[11].nodes[B].log == [ORIGIN, e] && cs[11].nodes[B].commitIndex == 0
      && B in cs[13].nodes && cs[13].nodes[B].log == [ORIGIN, e]
      && cs[13].nodes[B].commitIndex == 1 && cs[13].nodes[B].lastApplied == 1
      && B in cs[13].delivered && cs[13].delivered[B] == (if payload == Nil then [] else [e])
  {
    hide Run, Next, Acknowledged;
    var e := Entry(1, 1, payload);
    var prefix := CommitsAndApplies(payload);
    var c12 := CommittedThere(prefix[11], e);
    var c13 := DeliveredThere(c12, e);
    cs := Longer(prefix, c12);
    cs := Longer(cs, c13);
    AcknowledgedPrefix(prefix, cs, payload);
  }

  lemma AcknowledgedPrefix(cs: seq<Cluster>, ds: seq<Cluster>, payload: Payload)
    requires |cs| == 12 && Run(cs) && Run(ds) && cs <= ds && A in cs[7].nodes && |cs[7].nodes[A].log| > 0
    requires Acknowledged(cs, 7, 10, A, payload)
    ensures Acknowledged(ds, 7, 10, A, payload)
  {
    hide Run, Enabled, After;
  }

  lemma Longer(cs: seq<Cluster>, c: Cluster) returns (ds: seq<Cluster>)
    requires Run(cs) && Next(cs[|cs| - 1], c)
    ensures ds == cs + [c] && Run(ds)
  {
    hide Next, Init;
    ds := cs + [c];
  }

  lemma LeaderNow(c: Cluster, a: Node, b: Node)
    requires Stands(c, a, b)
    ensures A in c.nodes && c.nodes[A] == a
  {
  }

  lemma CommittingIs(e: Entry)
    ensures var a := Committing(e); a.role == Leader && a.currentTerm == Leading().currentTerm && a.commitIndex == 1
    ensures Committing(e).log == [ORIGIN, e] && Committing(e).lastIncludedIndex == 0
    ensures Leading().log == [ORIGIN]
  {
  }

  /** The first seven steps: a is elected on b's pre-vote and vote. */
  lemma Elects() returns (cs: seq<Cluster>)
    ensures |cs| == 8 && Run(cs) && Stands(cs[7], Leading(), Voting())
  {
    hide Run, Init, Next, Stands;
    var c0 := Start();
    var c1 := PollOpens(c0);
    var c2 := PollAnswered(c1);
    var c3, c4 := PollCarried(c2);
    var c5 := Stood(c4);
    var c6 := Granted(c5);
    var c7 := Elected(c6);
    cs := Alone(c0);
    cs := Longer(cs, c1);
    cs := Longer(cs, c2);
    cs := Longer(cs, c3);
    cs := Longer(cs, c4);
    cs := Longer(cs, c5);
    cs := Longer(cs, c6);
    cs := Longer(cs, c7);
  }

  lemma Alone(c: Cluster) returns (cs: seq<Cluster>)
    requires Init(c)
    ensures cs == [c] && Run(cs)
  {
    hide Init;
    cs := [c];
  }

  lemma StepIsNext(c: Cluster, c': Cluster, step: Step)
    requires Enabled(c, step) && c' == After(c, step)
    ensures Next(c, c')
  {
  }

  lemma WholeLog(cs: seq<Cluster>, i: nat, e: Entry)
    requires Run(cs) && i < |cs| && A in cs[i].nodes
    requires cs[i].nodes[A].log == [ORIGIN, e] && cs[i].nodes[A].lastIncludedIndex == 0
    ensures FullLog(cs[i], A) == [ORIGIN, e]
  {
    hide Run, SystemInv, Inv, NodeOk;
    InMemoryLog(cs, i, A, 1);
    RunNode(cs, i, A);
    NodeParts(cs[i].ledger, A, cs[i].nodes[A]);
  }

  /** An acknowledged and applied entry that its node's log does not hold: in this run offset 0 holds it exactly when
      its payload is one the log stores. */
  lemma HeldOnlyIfStorable(payload: Payload, maxBytes: nat) returns (cs: seq<Cluster>)
    ensures |cs| == 12 && Run(cs) && A in cs[7].nodes && |cs[7].nodes[A].log| > 0 && Acknowledged(cs, 7, 10, A, payload)
    ensures A in cs[11].nodes && cs[11].nodes[A].lastApplied == 1 && |FullLog(cs[11], A)| == 2
    ensures Mirrors(WalOf(cs[11], A, maxBytes), FullLog(cs[11], A), 1)
      <==> payload.Data? && Storable(payload.bytes, maxBytes)
  {
    hide Run, Acknowledged, WalOf, Mirrors;
    cs := CommitsAndApplies(payload);
    WalMirrorsIff(cs, 11, A, maxBytes);
    assert FullLog(cs[11], A)[1].data == payload;
  }

  /** The two kinds of entry that shift a log: one without data, and one over the limit. */
  lemma UnheldEntries(maxBytes: nat) returns (nil: seq<Cluster>, oversized: seq<Cluster>, payload: Payload)
    ensures payload.Data? && |payload.bytes| == MAX_PAYLOAD + 1
    ensures |nil| == 12 && Run(nil) && |FullLog(nil[11], A)| == 2
    ensures !Mirrors(WalOf(nil[11], A, maxBytes), FullLog(nil[11], A), 1)
    ensures |oversized| == 12 && Run(oversized) && |FullLog(oversized[11], A)| == 2
    ensures !Mirrors(WalOf(oversized[11], A, maxBytes), FullLog(oversized[11], A), 1)
  {
    hide Run, WalOf, Mirrors;
    nil := HeldOnlyIfStorable(Nil, maxBytes);
    payload := Data(seq(MAX_PAYLOAD + 1, _ => 0));
    oversized := HeldOnlyIfStorable(payload, maxBytes);
  }

  lemma SnapshotHere(c: Cluster, e: Entry) returns (c': Cluster)
    requires e.index == 1 && e.term == 1 && Stands(c, Committing(e), Accepting(e))
    ensures Next(c, c') && A in c'.nodes && c'.nodes[A].lastApplied == 1 && FullLog(c', A) == FullLog(c, A)
    ensures A in c'.delivered && c'.delivered[A] == [] && A in c'.skipped && 1 in c'.skipped[A]
  {
    hide CutAt;
    assert Enabled(c, Compaction(A, 1, []));
    c' := After(c, Compaction(A, 1, []));
    assert 1 in Jumped(c.nodes[A], c'.nodes[A]);
  }

  /** The third: a committed entry, stored like any other, that a snapshot takes away before the applier gets to it. */
  lemma SnapshotUnheld(payload: Payload, maxBytes: nat) returns (cs: seq<Cluster>)
    requires payload.Data? && Storable(payload.bytes, maxBytes)
    ensures |cs| == 12 && Run(cs) && A in cs[11].nodes && cs[11].nodes[A].lastApplied == 1
    ensures |FullLog(cs[11], A)| == 2 && AllStorable(FullLog(cs[11], A), 1, maxBytes)
    ensures WalOf(cs[11], A, maxBytes) == [] && !Mirrors(WalOf(cs[11], A, maxBytes), FullLog(cs[11], A), 1)
  {
    hide Run, Init, Next, Stands, Proposing, Accepting, Committing;
    var e := Entry(1, 1, payload);
    cs := Elects();
    var c8 := ProposedHere(cs[7], payload);
    StepIsNext(cs[7], c8, ProposeEntry(A, payload));
    var c9 := AcceptedThere(c8, e);
    var c10 := CommittedHere(c9, e);
    var c11 := SnapshotHere(c10, e);
    LeaderNow(c10, Committing(e), Accepting(e));
    CommittingIs(e);
    cs := Longer(cs, c8);
    cs := Longer(cs, c9);
    cs := Longer(cs, c10);
    WholeLog(cs, 10, e);
    cs := Longer(cs, c11);
  }
}
