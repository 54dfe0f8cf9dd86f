/** Where things come from: every snapshot from a node that took it, every candidacy from a majority that yielded. */
module RaftProvenance {
  import opened RaftTypes
  import opened RaftLedger
  import opened RaftLedgerActions
  import opened RaftHandlers
  import opened RaftCluster
  import opened RaftInvariant
  import opened RaftRuns
  import opened RaftSafety
  import opened RaftIsolation
  import opened RaftConduct
  import opened RaftConductRuns

  // ----- snapshots --------------------------------------------------------

  /** The step takes a snapshot at index idx with that data at node m, and m's bounds admit it. */
  ghost predicate TakenAt(cs: seq<Cluster>, j: nat, m: NodeId, idx: nat, data: State)
    requires j + 1 < |cs|
  {
    && Enabled(cs[j], Compaction(m, idx, data)) && cs[j + 1] == After(cs[j], Compaction(m, idx, data))
    && cs[j].nodes[m].lastIncludedIndex < idx <= cs[j].nodes[m].commitIndex
  }

  ghost predicate SameSnapshot(v: Node, w: Node) {
    v.lastIncludedIndex == w.lastIncludedIndex && v.lastSnapshotData == w.lastSnapshotData
  }

  lemma AnswersKeepSnapshot(v: Node, vote: RequestVoteArgs, heardLately: bool, append: AppendEntriesArgs)
    requires v.Valid()
    ensures SameSnapshot(v, OnRequestVote(v, vote, heardLately).0) && SameSnapshot(v, OnAppendEntries(v, append).0)
    ensures OnRequestVote(v, vote, heardLately).0.id == v.id && OnAppendEntries(v, append).0.id == v.id
  {
    hide Merged, Trimmed;
    var f := Follow(Observe(v, append.term), append.leaderID);
    if append.prevLogIndex < f.lastIncludedIndex ==> |append.entries| > f.lastIncludedIndex - append.prevLogIndex {
      TrimmedReach(f, append);
    }
  }

  lemma RepliesKeepSnapshot(v: Node, p: NodeId, term: nat, r: AppendEntriesReply, sent: nat, s: InstallSnapshotReply)
    requires |v.log| > 0
    ensures SameSnapshot(v, OnAppendReply(v, p, term, r).0) && SameSnapshot(v, OnInstallReply(v, p, term, sent, s))
    ensures OnAppendReply(v, p, term, r).0.id == v.id && OnInstallReply(v, p, term, sent, s).id == v.id
  {
    hide Broadcast, QuorumIndex;
  }

  lemma CampaignKeepsSnapshots(c: Cluster, n: NodeId, m: NodeId)
    requires Known(c, n) && m in c.nodes
    ensures m in Campaign(c, n).nodes && SameSnapshot(c.nodes[m], Campaign(c, n).nodes[m])
  {
    hide Broadcast, Sent, Canvass, Nominated, Won;
  }

  /** The snapshot of node m came with this step: it took it, or it accepted one sent to it. */
  ghost predicate BringsSnapshot(step: Step, m: NodeId, w: Node) {
    match step
    case Compaction(n, idx, data) => n == m && w.lastIncludedIndex == idx && w.lastSnapshotData == data
    case AnswerInstall(call) =>
      call.to == m && call.request.Install? && w.lastIncludedIndex == call.request.install.lastIncludedIndex
      && w.lastSnapshotData == call.request.install.data
    case _ => false
  }

  lemma VoteKeepsSnapshots(c: Cluster, a: Answer, m: NodeId)
    requires Enabled(c, HearVote(a)) && m in c.nodes
    ensures m in HeardVote(c, a).nodes && SameSnapshot(c.nodes[m], HeardVote(c, a).nodes[m])
  {
    hide BecomeLeader, Lead, Raised, Node.Quorum;
    var s := Slot(a.call.from, a.call.request.vote.term);
    var v, t := c.nodes[a.call.from], c.elections[s];
    var t' := Tally(t.votes + 1, t.heard + {a.call.to}, t.granted + {a.call.to});
    LeadKeepsSnapshot(c.(elections := c.elections[s := t']), v, t'.granted + {a.call.from}, c.ledger);
  }

  lemma LeadKeepsSnapshot(c: Cluster, v: Node, voters: set<NodeId>, l: Ledger)
    requires |v.log| > 0
    ensures BecomeLeader(c, v, voters, l).nodes == c.nodes[v.id := Lead(v)] && SameSnapshot(v, Lead(v))
    ensures Lead(v).id == v.id
  {
    hide Broadcast, Sent, Won, Filled;
  }

  lemma ElectionSnapshot(c: Cluster, step: Step, m: NodeId)
    requires Enabled(c, step) && m in c.nodes
    requires step.StartPreVote? || step.HearPreVote? || step.CountPreVote? || step.FinishPreVote? || step.AnswerVote?
      || step.HearVote?
    ensures m in After(c, step).nodes && SameSnapshot(c.nodes[m], After(c, step).nodes[m])
  {
    hide Campaign, OnRequestVote, Broadcast, Sent, Canvass, Raised, Won, Balloted, HeardVote;
    match step
    case StartPreVote(n) => CampaignKeepsSnapshots(c, n, m);
    case HearVote(a) => VoteKeepsSnapshots(c, a, m);
    case FinishPreVote(n) => CampaignKeepsSnapshots(c.(loops := c.loops[n := Waiting]), n, m);
    case AnswerVote(call, heardLately) =>
      AnswersKeepSnapshot(c.nodes[call.to], call.request.vote, heardLately, AppendEntriesArgs(0, NOBODY, 0, 0, [], 0));
    case _ =>
  }

  lemma ReplicationSnapshot(c: Cluster, step: Step, m: NodeId)
    requires Enabled(c, step) && m in c.nodes
    requires step.AnswerAppend? || step.HearAppend? || step.HearInstall?
    ensures m in After(c, step).nodes && SameSnapshot(c.nodes[m], After(c, step).nodes[m])
  {
    hide OnAppendEntries, OnAppendReply, OnInstallReply, Broadcast, Sent, Raised, Accepted;
    var noReply, noSnapshot := AppendEntriesReply(0, false, 0), InstallSnapshotReply(0);
    match step
    case AnswerAppend(call) =>
      AnswersKeepSnapshot(c.nodes[call.to], RequestVoteArgs(0, NOBODY, 0, 0, false), false, call.request.append);
    case HearAppend(a) =>
      RepliesKeepSnapshot(c.nodes[a.call.from], a.call.to, a.call.request.append.term, a.reply.append, 0, noSnapshot);
    case HearInstall(a) =>
      RepliesKeepSnapshot(c.nodes[a.call.from], a.call.to, a.call.request.install.term, noReply,
                          a.call.request.install.lastIncludedIndex, a.reply.install);
  }

  lemma LocalSnapshot(c: Cluster, step: Step, m: NodeId)
    requires Enabled(c, step) && m in c.nodes && (step.Heartbeat? || step.ProposeEntry? || step.Deliver?)
    ensures m in After(c, step).nodes && SameSnapshot(c.nodes[m], After(c, step).nodes[m])
  {
    hide Broadcast, Sent, Extended, Deliveries;
  }

  lemma InstallationSnapshot(c: Cluster, step: Step, m: NodeId)
    requires Enabled(c, step) && m in c.nodes && (step.AnswerInstall? || step.Compaction?)
    ensures m in After(c, step).nodes && (SameSnapshot(c.nodes[m], After(c, step).nodes[m])
                                          || BringsSnapshot(step, m, After(c, step).nodes[m]))
  {
    hide Raised, Accepted, Jumped, CutAt;
  }

  lemma StepSnapshot(c: Cluster, step: Step, m: NodeId)
    requires Enabled(c, step) && m in c.nodes
    ensures m in After(c, step).nodes && (SameSnapshot(c.nodes[m], After(c, step).nodes[m])
                                          || BringsSnapshot(step, m, After(c, step).nodes[m]))
  {
    hide Enabled, After, SameSnapshot;
    if step.AnswerInstall? || step.Compaction? {
      InstallationSnapshot(c, step, m);
    } else if step.AnswerAppend? || step.HearAppend? || step.HearInstall? {
      ReplicationSnapshot(c, step, m);
    } else if step.Heartbeat? || step.ProposeEntry? || step.Deliver? {
      LocalSnapshot(c, step, m);
    } else {
      ElectionSnapshot(c, step, m);
    }
  }

  lemma TakesOnlyCommitted(c: Cluster, n: NodeId, idx: nat, data: State)
    requires Known(c, n) && !SameSnapshot(c.nodes[n], Compacted(c, n, idx, data).nodes[n])
    ensures c.nodes[n].lastIncludedIndex < idx <= c.nodes[n].commitIndex
  {
    hide CutAt;
  }

  /** Every snapshot a node holds was once taken by a node, at that very index and with that very data, when the taker
      had committed it: installing one on other nodes alters neither. */
  lemma {:induction false} SnapshotTaken(cs: seq<Cluster>, i: nat, n: NodeId) returns (j: nat, m: NodeId)
    requires Run(cs) && i < |cs| && n in cs[i].nodes && cs[i].nodes[n].lastIncludedIndex > 0
    ensures j < i && TakenAt(cs, j, m, cs[i].nodes[n].lastIncludedIndex, cs[i].nodes[n].lastSnapshotData)
    decreases i
  {
    hide SystemInv, After, Enabled, FullLog;
    assert i > 0 by {
      if i == 0 { FreshHasNone(cs[0], n); }
    }
    var k := i - 1;
    assert Next(cs[k], cs[k + 1]);
    var step :| Enabled(cs[k], step) && cs[i] == After(cs[k], step);
    SameNodes(cs, k, n);
    StepSnapshot(cs[k], step, n);
    if SameSnapshot(cs[k].nodes[n], cs[i].nodes[n]) {
      j, m := SnapshotTaken(cs, k, n);
    } else if step.Compaction? {
      EnabledKnown(cs[k], step);
      TakesOnlyCommitted(cs[k], n, step.idx, step.data);
      j, m := k, n;
    } else {
      EnabledKnown(cs[k], step);
      var s := WritesQuote(cs, k, step.call);
      j, m := SnapshotTaken(cs, s, step.call.from);
    }
  }

  lemma FreshHasNone(c: Cluster, n: NodeId)
    requires Init(c) && n in c.nodes
    ensures c.nodes[n].lastIncludedIndex == 0
  {
  }

  lemma SameNodes(cs: seq<Cluster>, k: nat, n: NodeId)
    requires Run(cs) && k + 1 < |cs| && n in cs[k + 1].nodes
    ensures n in cs[k].nodes
  {
    hide Run, SystemInv, Grows;
    RunHolds(cs, k);
    RunHolds(cs, k + 1);
    RunGrows(cs, k, k + 1);
    NodesAre(cs[k], cs[k + 1]);
  }

  lemma NodesAre(c: Cluster, c': Cluster)
    requires SystemInv(c) && SystemInv(c') && Grows(c.ledger, c'.ledger)
    ensures c.nodes.Keys == c'.nodes.Keys
  {
  }

  lemma EnabledKnown(c: Cluster, step: Step)
    requires Enabled(c, step)
    ensures match step
      case Compaction(n, idx, data) => Known(c, n) && After(c, step) == Compacted(c, n, idx, data)
      case AnswerInstall(call) => call in c.calls && call.request.Install?
      case _ => true
  {
  }

  // ----- what a candidacy rests on ----------------------------------------

  /** The answer is a grant of s.node's poll of that number, given by p. */
  ghost predicate GrantOf(a: Answer, s: Slot, p: NodeId) {
    && a.call.from == s.node && a.call.round == s.term && a.call.to == p
    && a.call.request.Vote? && a.call.request.vote.isPreVote && a.reply.Voted? && a.reply.vote.voteGranted
  }

  /** Every peer the poll counts, or is about to count, has granted it. */
  ghost predicate Backed(answers: set<Answer>, s: Slot, t: Poll) {
    forall p {:trigger GrantRead(answers, s, p)} :: p in t.granted || p in t.due ==> GrantRead(answers, s, p)
  }

  ghost predicate GrantRead(answers: set<Answer>, s: Slot, p: NodeId) {
    exists a :: a in answers && GrantOf(a, s, p)
  }

  ghost predicate AllBacked(c: Cluster) {
    forall s {:trigger s in c.polls} :: s in c.polls ==> Backed(c.answers, s, c.polls[s])
  }

  lemma BackedStill(c: Cluster, c': Cluster)
    requires AllBacked(c) && c.answers <= c'.answers && c'.polls == c.polls
    ensures AllBacked(c')
  {
    forall s | s in c'.polls
      ensures Backed(c'.answers, s, c'.polls[s])
    {
      assert Backed(c.answers, s, c.polls[s]);
      BackedMore(c.answers, c'.answers, s, c.polls[s]);
    }
  }

  lemma BackedMore(answers: set<Answer>, more: set<Answer>, s: Slot, t: Poll)
    requires Backed(answers, s, t) && answers <= more
    ensures Backed(more, s, t)
  {
    forall p | p in t.granted || p in t.due
      ensures GrantRead(more, s, p)
    {
      assert GrantRead(answers, s, p);
    }
  }

  lemma StartKeepsBacked(c: Cluster, n: NodeId)
    requires AllBacked(c) && Enabled(c, StartPreVote(n))
    ensures AllBacked(StartedPreVote(c, n)) && StartedPreVote(c, n).answers == c.answers
  {
    hide Campaign, Canvass;
    CampaignPolls(c, n);
    CampaignAnswers(c, n);
  }

  lemma CampaignAnswers(c: Cluster, n: NodeId)
    requires Known(c, n)
    ensures Campaign(c, n).answers == c.answers
  {
    hide Broadcast, Sent, Canvass, Nominated, Won;
  }

  lemma HearKeepsBacked(c: Cluster, a: Answer)
    requires AllBacked(c) && Enabled(c, HearPreVote(a))
    ensures AllBacked(HeardPreVote(c, a)) && HeardPreVote(c, a).answers == c.answers
  {
    hide Raised, GrantRead;
    var s := Slot(a.call.from, a.call.round);
    assert Backed(c.answers, s, c.polls[s]);
    if a.reply.vote.voteGranted {
      GrantIsRead(c.answers, a);
    }
    assert HeardPreVote(c, a).answers == c.answers;
    assert Backed(c.answers, s, HeardPreVote(c, a).polls[s]);
  }

  lemma GrantIsRead(answers: set<Answer>, a: Answer)
    requires a in answers && a.call.request.Vote? && a.call.request.vote.isPreVote && a.reply.Voted?
    requires a.reply.vote.voteGranted
    ensures GrantRead(answers, Slot(a.call.from, a.call.round), a.call.to)
  {
    assert GrantOf(a, Slot(a.call.from, a.call.round), a.call.to);
  }

  lemma CountKeepsBacked(c: Cluster, s: Slot, p: NodeId)
    requires AllBacked(c) && s in c.polls && p in c.polls[s].due
    ensures AllBacked(CountedPreVote(c, s, p)) && CountedPreVote(c, s, p).answers == c.answers
  {
    assert Backed(c.answers, s, c.polls[s]);
  }

  lemma ElectionAnswers(c: Cluster, step: Step)
    requires Enabled(c, step) && (step.FinishPreVote? || step.HearVote? || step.Heartbeat? || step.ProposeEntry?)
    ensures After(c, step).answers == c.answers
  {
    hide Campaign, Broadcast, Sent, Raised, Won, Extended, Lead, Node.Quorum;
    match step
    case FinishPreVote(n) => CampaignAnswers(c.(loops := c.loops[n := Waiting]), n);
    case _ =>
  }

  lemma OtherAnswers(c: Cluster, step: Step)
    requires Enabled(c, step)
    requires step.HearAppend? || step.HearInstall? || step.Compaction? || step.Deliver? || step.AnswerAppend?
      || step.AnswerInstall?
    ensures c.answers <= After(c, step).answers
    ensures forall a :: a in After(c, step).answers && a !in c.answers ==> !a.reply.Voted?
  {
    hide OnAppendEntries, OnInstallSnapshot, OnAppendReply, OnInstallReply, OnTakeSnapshot, Applied, Raised, Accepted,
         Jumped, Sent;
  }

  lemma VoteAnswers(c: Cluster, call: Call, heardLately: bool)
    requires Enabled(c, AnswerVote(call, heardLately))
    ensures AnsweredVote(c, call, heardLately).answers
      == c.answers + {Answer(call, Voted(OnRequestVote(c.nodes[call.to], call.request.vote, heardLately).1))}
  {
    hide OnRequestVote, Raised, Balloted;
  }

  /** A step loses no answer, and a vote answer that is new is the handler's, to that very call. */
  lemma StepAnswers(c: Cluster, step: Step, a: Answer)
    requires Enabled(c, step)
    ensures c.answers <= After(c, step).answers
    ensures a in After(c, step).answers && a !in c.answers && a.reply.Voted? ==>
      && step.AnswerVote? && step.call == a.call && Enabled(c, AnswerVote(a.call, step.heardLately))
      && a.reply.vote == OnRequestVote(c.nodes[a.call.to], a.call.request.vote, step.heardLately).1
  {
    hide OnRequestVote, StartedPreVote, HeardPreVote, FinishedPreVote, AnsweredVote, HeardVote, Beaten, AnsweredAppend,
         HeardAppend, AnsweredInstall, HeardInstall, ProposedEntry, Compacted, Delivered;
    match step
    case StartPreVote(n) => StartAnswers(c, n);
    case HearPreVote(b) => PreVoteAnswers(c, b);
    case CountPreVote(n, round, p) =>
    case AnswerVote(call, heardLately) => VoteAnswers(c, call, heardLately);
    case FinishPreVote(_) => ElectionAnswers(c, step);
    case HearVote(_) => ElectionAnswers(c, step);
    case Heartbeat(_) => ElectionAnswers(c, step);
    case ProposeEntry(_, _) => ElectionAnswers(c, step);
    case _ => OtherAnswers(c, step);
  }

  lemma StartAnswers(c: Cluster, n: NodeId)
    requires Known(c, n)
    ensures StartedPreVote(c, n).answers == c.answers
  {
    hide Campaign, Canvass;
    CampaignAnswers(c, n);
  }

  lemma PreVoteAnswers(c: Cluster, a: Answer)
    requires Enabled(c, HearPreVote(a))
    ensures HeardPreVote(c, a).answers == c.answers
  {
    hide Raised;
  }

  lemma StepBacked(c: Cluster, step: Step)
    requires AllBacked(c) && Enabled(c, step)
    ensures AllBacked(After(c, step))
  {
    hide AllBacked, StartedPreVote, HeardPreVote, CountedPreVote, Known, HearsVote;
    match step
    case StartPreVote(n) => StartKeepsBacked(c, n);
    case HearPreVote(a) => HearKeepsBacked(c, a);
    case CountPreVote(n, round, p) => CountKeepsBacked(c, Slot(n, round), p);
    case _ =>
      PollsUntouched(c, step);
      StepAnswers(c, step, Answer(Call(NOBODY, NOBODY, 0, Vote(VoteRequest(Fresh(NOBODY, [])))),
                                  Voted(RequestVoteReply(0, false))));
      BackedStill(c, After(c, step));
  }

  lemma {:induction false} RunBacked(cs: seq<Cluster>, i: nat)
    requires Run(cs) && i < |cs|
    ensures AllBacked(cs[i])
  {
    hide AllBacked, After, Enabled;
    if i == 0 {
      assert AllBacked(cs[0]) by { NoPolls(cs[0]); }
    } else {
      var j := i - 1;
      RunBacked(cs, j);
      assert Next(cs[j], cs[j + 1]);
      var step :| Enabled(cs[j], step) && cs[i] == After(cs[j], step);
      StepBacked(cs[j], step);
    }
  }

  lemma NoPolls(c: Cluster)
    requires Init(c)
    ensures AllBacked(c)
  {
  }

  /** Every vote answer was given by its call's receiver at a step of the run. */
  lemma {:induction false} AnswerOrigin(cs: seq<Cluster>, i: nat, a: Answer) returns (k: nat, heardLately: bool)
    requires Run(cs) && i < |cs| && a in cs[i].answers && a.reply.Voted?
    ensures k < i && Enabled(cs[k], AnswerVote(a.call, heardLately))
    ensures a.reply.vote == OnRequestVote(cs[k].nodes[a.call.to], a.call.request.vote, heardLately).1
    decreases i
  {
    hide After, Enabled, OnRequestVote;
    assert i > 0;
    if a in cs[i - 1].answers {
      k, heardLately := AnswerOrigin(cs, i - 1, a);
    } else {
      k := i - 1;
      assert Next(cs[k], cs[k + 1]);
      var step :| Enabled(cs[k], step) && cs[i] == After(cs[k], step);
      StepAnswers(cs[k], step, a);
      heardLately := step.heardLately;
    }
  }

  /** At step k the peer's log was no more up to date than the one n had when it opened the poll at step j. */
  ghost predicate Yielded(cs: seq<Cluster>, j: nat, k: nat, n: NodeId, p: NodeId) {
    && j < k < |cs| && n in cs[j].nodes && p in cs[k].nodes
    && |FullLog(cs[j], n)| > 0 && |FullLog(cs[k], p)| > 0 && UpToDate(FullLog(cs[j], n), FullLog(cs[k], p))
  }

  /** What a poll has counted: each peer, when asked, had a log no more up to date than the opener's. */
  lemma CountedYielded(cs: seq<Cluster>, i: nat, s: Slot, p: NodeId) returns (j: nat, k: nat)
    requires Run(cs) && i < |cs| && s in cs[i].polls && p in cs[i].polls[s].granted
    ensures k < i && Yielded(cs, j, k, s.node, p)
  {
    hide Run, After, AllBacked, OnRequestVote, UpToDate;
    RunBacked(cs, i);
    BackedAt(cs[i], s);
    assert GrantRead(cs[i].answers, s, p);
    var a :| a in cs[i].answers && GrantOf(a, s, p);
    var heardLately;
    k, heardLately := AnswerOrigin(cs, i, a);
    j := RequestGranted(cs, k, a.call, heardLately);
  }

  lemma BackedAt(c: Cluster, s: Slot)
    requires AllBacked(c) && s in c.polls
    ensures Backed(c.answers, s, c.polls[s])
  {
  }

  /** Who stands is ahead: whenever a poll leads to a candidacy, a majority of the cluster, the candidate among them,
      had logs no more up to date, when each was asked, than the candidate's when it asked. */
  lemma CandidatesAhead(cs: seq<Cluster>, i: nat, n: NodeId) returns (q: set<NodeId>)
    requires Run(cs) && i < |cs| && Enabled(cs[i], FinishPreVote(n))
    requires After(cs[i], FinishPreVote(n)).nodes[n] != cs[i].nodes[n]
    ensures n in q && Majority(q, cs[i].ledger.ids)
    ensures forall p :: p in q && p != n ==> exists j: nat, k: nat :: k < i && Yielded(cs, j, k, n, p)
  {
    hide Run, After, Yielded, Majority;
    var s := Slot(n, cs[i].loops[n].round);
    StandsIff(cs, i, n);
    q := {n} + cs[i].polls[s].granted;
    forall p | p in q && p != n
      ensures exists j: nat, k: nat :: k < i && Yielded(cs, j, k, n, p)
    {
      var j, k := CountedYielded(cs, i, s, p);
    }
  }
}
