/** Catch-up over runs: the bound on replication rounds while the rest of the cluster goes on. */
module RaftCatchUpRuns {
  import opened RaftTypes
  import opened RaftLedger
  import opened RaftLedgerActions
  import opened RaftHandlers
  import opened RaftCompaction
  import opened RaftCluster
  import opened RaftInvariant
  import opened RaftRuns
  import opened RaftSafety
  import opened RaftCatchUp

  /** What has come of the pair's rounds: how many are complete, how many of them left the pair short of level, and how
      many late answers of the peer the leader has read. */
  datatype Score = Score(rounds: nat, short: nat, late: nat)

  /** The score, and where the current round stands. */
  datatype Phase = Idle(score: Score) | Called(score: Score, call: Call) | Replied(score: Score, answer: Answer)

  ghost function Replying(call: Call): Step {
    if call.request.Append? then AnswerAppend(call) else AnswerInstall(call)
  }

  ghost function Hearing(a: Answer): Step {
    if a.call.request.Append? then HearAppend(a) else HearInstall(a)
  }

  /** What p answers to a call in a state. */
  ghost function Reply(c: Cluster, call: Call): Answer
    requires call.to in c.nodes && c.nodes[call.to].Valid() && !call.request.Vote?
  {
    if call.request.Append? then Answer(call, Appended(OnAppendEntries(c.nodes[call.to], call.request.append).1))
    else Answer(call, Installed(OnInstallSnapshot(c.nodes[call.to], call.request.install).1))
  }

  /** n reads an answer of p. */
  ghost predicate Hears(step: Step, n: NodeId, p: NodeId) {
    match step
    case HearAppend(a) => a.call.from == n && a.call.to == p
    case HearInstall(a) => a.call.from == n && a.call.to == p
    case _ => false
  }

  /** A step beside the rounds: anything at all but a proposal to n, a snapshot n takes, n reading an answer of p. */
  ghost predicate Beside(step: Step, n: NodeId, p: NodeId) {
    match step
    case ProposeEntry(m, _) => m != n
    case Compaction(m, _, _) => m != n
    case _ => !Hears(step, n, p)
  }

  /** n leads its term on, and p does not leave that term behind. */
  ghost predicate Stays(c: Cluster, c': Cluster, n: NodeId, p: NodeId)
    requires n in c.nodes
  {
    Paired(c', n, p) && c'.nodes[n].currentTerm == c.nodes[n].currentTerm
  }

  /** One step of a run, and what it means for the pair's round: nothing, or giving it up; n's broadcast opening one; p
      answering the round's call; n reading that answer, which completes the round; or n reading any answer of p out of
      turn, which gives the round up. */
  ghost predicate Moves(c: Cluster, ph: Phase, c': Cluster, ph': Phase, step: Step, n: NodeId, p: NodeId)
    requires n in c.nodes
  {
    && Enabled(c, step) && c' == After(c, step) && Stays(c, c', n, p) && |c'.nodes[n].log| > 0
    && ( || ((ph' == ph || ph' == Idle(ph.score)) && Beside(step, n, p))
         || (ph.Idle? && step == Heartbeat(n) && ph' == Called(ph.score, RoundCall(c, n, p)))
         || (ph.Called? && !ph.call.request.Vote? && ph.call.to == p && p in c.nodes && c.nodes[p].Valid()
             && step == Replying(ph.call) && ph' == Replied(ph.score, Reply(c, ph.call)))
         || (ph.Replied? && step == Hearing(ph.answer) && ph' == Idle(Scored(ph.score, Done(c'.nodes[n], p))))
         || (Hears(step, n, p) && ph' == Idle(ph.score.(late := ph.score.late + 1))))
  }

  function Scored(score: Score, done: bool): Score {
    score.(rounds := score.rounds + 1, short := if done then score.short else score.short + 1)
  }

  // ----- the measure ------------------------------------------------------

  /** p is known for good to hold n's log up to i: it acknowledged i to n's term. */
  ghost predicate Holds(l: Ledger, p: NodeId, t: nat, i: nat) {
    i == 0 || AckedTo(l, p, t, i)
  }

  /** n has recorded its whole log as matched by p. */
  ghost predicate Done(v: Node, p: NodeId)
    requires |v.log| > 0
  {
    At(v.matchIndex, p) == v.LastLogIndex() && Probe(v, p) == v.LastLogIndex() + 1
  }

  /** n will probe p at an index that p is known to hold. */
  ghost predicate Certain(l: Ledger, v: Node, p: NodeId) {
    Probe(v, p) > v.lastIncludedIndex && Holds(l, p, v.currentTerm, Probe(v, p) - 1)
  }

  ghost function Worst(v: Node, p: NodeId): nat {
    if Probe(v, p) <= v.lastIncludedIndex then 2 else Probe(v, p) - v.lastIncludedIndex + 2
  }

  /** Rounds still needed, at most, whatever the cluster does beside them. */
  ghost function Sure(l: Ledger, v: Node, p: NodeId): nat
    requires |v.log| > 0
  {
    if Done(v, p) then 0
    else if Certain(l, v, p) then 1
    else Worst(v, p)
  }

  /** What is known of the pair at a score, with an allowance of w rounds. */
  ghost predicate OnCourse(c: Cluster, ph: Phase, n: NodeId, p: NodeId, w: nat) {
    && Paired(c, n, p) && |c.nodes[n].log| > 0 && c.nodes[n].id == n
    && Within(Sure(c.ledger, c.nodes[n], p), ph.score, w)
    && match ph
       case Idle(_) => true
       case Called(_, call) => call in c.calls && Probes(c.nodes[n], p, call)
       case Replied(score, a) =>
         && a in c.answers && Probes(c.nodes[n], p, a.call)
         && match a.reply
            case Voted(_) => false
            case Appended(r) =>
              && a.call.request.Append?
              && (r.success ==> r.matchIndex == c.nodes[n].LastLogIndex())
              && (!r.success ==> !Done(c.nodes[n], p) && Probe(c.nodes[n], p) > 1
                                 && Worst(c.nodes[n], p) + score.short <= w + score.late)
            case Installed(_) => a.call.request.Install? && !Done(c.nodes[n], p) && 2 + score.short <= w + score.late
  }

  /** Rounds still needed and rounds already spent stay within the allowance, which each late answer raises by one; and
      once a round has left the pair level, only a late answer can change that. */
  ghost predicate Within(sure: nat, score: Score, w: nat) {
    && Max(sure, 1) + score.short <= w + score.late
    && (score.late == 0 && score.short < score.rounds ==> sure == 0)
  }

  // ----- steps beside the rounds --------------------------------------------

  /** What a step beside the rounds leaves of the leader's picture of p. */
  ghost predicate SamePicture(v: Node, v': Node, p: NodeId) {
    && v'.id == v.id && v'.log == v.log && v'.lastIncludedIndex == v.lastIncludedIndex
    && v'.currentTerm == v.currentTerm
    && At(v'.nextIndex, p) == At(v.nextIndex, p) && At(v'.matchIndex, p) == At(v.matchIndex, p)
  }

  /** The same in a cluster, if the leader is still leader of its term. */
  ghost predicate PictureKept(c: Cluster, c': Cluster, n: NodeId, p: NodeId)
    requires n in c.nodes
  {
    && n in c'.nodes
    && (c'.nodes[n].role == Leader && c'.nodes[n].currentTerm == c.nodes[n].currentTerm ==>
         SamePicture(c.nodes[n], c'.nodes[n], p))
  }

  lemma OtherAppendReply(v: Node, q: NodeId, p: NodeId, term: nat, reply: AppendEntriesReply)
    requires |v.log| > 0 && q != p
    ensures var v' := OnAppendReply(v, q, term, reply).0; v'.currentTerm == v.currentTerm ==> SamePicture(v, v', p)
  {
    hide Broadcast;
  }

  lemma AppendReplyId(v: Node, q: NodeId, term: nat, reply: AppendEntriesReply)
    requires |v.log| > 0
    ensures OnAppendReply(v, q, term, reply).0.id == v.id
  {
    hide Broadcast;
  }

  lemma OtherInstallReply(v: Node, q: NodeId, p: NodeId, term: nat, sent: nat, reply: InstallSnapshotReply)
    requires q != p
    ensures var v' := OnInstallReply(v, q, term, sent, reply); v'.currentTerm == v.currentTerm ==> SamePicture(v, v', p)
  {
  }

  lemma InstallReplyId(v: Node, q: NodeId, term: nat, sent: nat, reply: InstallSnapshotReply)
    ensures OnInstallReply(v, q, term, sent, reply).id == v.id
  {
  }

  /** A leader that stays leader of its term has refused whatever it was asked. */
  lemma RefusedVote(v: Node, p: NodeId, args: RequestVoteArgs, heardLately: bool)
    requires |v.log| > 0
    ensures var v' := OnRequestVote(v, args, heardLately).0;
      v'.id == v.id && (v'.currentTerm == v.currentTerm ==> SamePicture(v, v', p))
  {
  }

  lemma RefusedAppend(v: Node, p: NodeId, args: AppendEntriesArgs)
    requires v.Valid()
    ensures var v' := OnAppendEntries(v, args).0;
      v'.id == v.id && (v'.role == Leader && v'.currentTerm == v.currentTerm ==> SamePicture(v, v', p))
  {
    hide Merged;
  }

  lemma RefusedInstall(v: Node, p: NodeId, args: InstallSnapshotArgs)
    requires v.Valid()
    ensures var v' := OnInstallSnapshot(v, args).0;
      v'.id == v.id && (v'.role == Leader && v'.currentTerm == v.currentTerm ==> SamePicture(v, v', p))
  {
    hide CutAt;
  }

  /** Messages stay in flight for good. */
  lemma MessagesStay(c: Cluster, step: Step)
    requires Enabled(c, step)
    ensures c.calls <= After(c, step).calls && c.answers <= After(c, step).answers
  {
    hide OnAppendEntries, OnInstallSnapshot, OnRequestVote, OnAppendReply, OnInstallReply, Broadcast, Sent, Raised,
         Accepted, Balloted, Extended, Applied, OnTakeSnapshot, Proposed, Observe,
         StartedPreVote, FinishedPreVote, HeardVote;
    match step
    case StartPreVote(n) => PollMessagesStay(c, n);
    case FinishPreVote(n) => CampaignMessagesStay(c.(loops := c.loops[n := Waiting]), n); FinishMessagesStay(c, n);
    case HearVote(a) => HeardMessagesStay(c, a);
    case _ =>
  }

  lemma CampaignMessagesStay(c: Cluster, n: NodeId)
    requires Known(c, n)
    ensures c.calls <= Campaign(c, n).calls && c.answers <= Campaign(c, n).answers
  {
    hide Broadcast, Sent, Canvass, Nominated, Won, Lead;
  }

  lemma PollMessagesStay(c: Cluster, n: NodeId)
    requires Known(c, n)
    ensures c.calls <= StartedPreVote(c, n).calls && c.answers <= StartedPreVote(c, n).answers
  {
    hide Campaign, Canvass;
    CampaignMessagesStay(c, n);
  }

  lemma FinishMessagesStay(c: Cluster, n: NodeId)
    requires Known(c, n) && c.loops[n].Polling? && Slot(n, c.loops[n].round) in c.polls
    ensures c.calls <= FinishedPreVote(c, n).calls && c.answers <= FinishedPreVote(c, n).answers
  {
    hide Campaign;
    CampaignMessagesStay(c.(loops := c.loops[n := Waiting]), n);
  }

  lemma HeardMessagesStay(c: Cluster, a: Answer)
    requires HearsVote(c, a, false) && Slot(a.call.from, a.call.request.vote.term) in c.elections
    ensures c.calls <= HeardVote(c, a).calls && c.answers <= HeardVote(c, a).answers
  {
    hide Broadcast, Sent, Won, Lead, Raised;
  }

  lemma ElectionKeepsPicture(c: Cluster, step: Step, n: NodeId, p: NodeId)
    requires Enabled(c, step) && Known(c, n) && c.nodes[n].role == Leader
    requires step.StartPreVote? || step.HearPreVote? || step.CountPreVote? || step.FinishPreVote? || step.AnswerVote?
      || step.HearVote?
    ensures PictureKept(c, After(c, step), n, p)
  {
    hide StartedPreVote, FinishedPreVote, HeardVote, Balloted, Raised, OnRequestVote;
    match step
    case StartPreVote(m) => PollKeepsPicture(c, m, n, p);
    case HearPreVote(a) =>
    case CountPreVote(m, round, q) =>
    case FinishPreVote(m) => FinishKeepsPicture(c, m, n, p);
    case AnswerVote(call, heardLately) => RefusedVote(c.nodes[call.to], p, call.request.vote, heardLately);
    case HearVote(a) => HeardKeepsPicture(c, a, n, p);
  }

  lemma PollKeepsPicture(c: Cluster, m: NodeId, n: NodeId, p: NodeId)
    requires Known(c, m) && c.nodes[m].role != Leader && Known(c, n) && c.nodes[n].role == Leader
    ensures PictureKept(c, StartedPreVote(c, m), n, p)
  {
    hide Campaign, Canvass;
    CampaignElsewhere(c, m, n);
  }

  lemma FinishKeepsPicture(c: Cluster, m: NodeId, n: NodeId, p: NodeId)
    requires Enabled(c, FinishPreVote(m)) && Known(c, n) && c.nodes[n].role == Leader
    ensures PictureKept(c, FinishedPreVote(c, m), n, p)
  {
    hide Campaign;
    CampaignElsewhere(c.(loops := c.loops[m := Waiting]), m, n);
  }

  lemma HeardKeepsPicture(c: Cluster, a: Answer, n: NodeId, p: NodeId)
    requires Enabled(c, HearVote(a)) && Known(c, n) && c.nodes[n].role == Leader
    ensures PictureKept(c, HeardVote(c, a), n, p)
  {
    hide Broadcast, Sent, Won, Raised, Lead;
    KeepsId(c.nodes[a.call.from]);
  }

  lemma CampaignElsewhere(c: Cluster, m: NodeId, n: NodeId)
    requires Known(c, m) && n in c.nodes
    ensures n in Campaign(c, m).nodes && (m != n ==> Campaign(c, m).nodes[n] == c.nodes[n])
  {
    hide Broadcast, Sent, Canvass, Nominated, Won;
    KeepsId(c.nodes[m]);
  }

  lemma KeepsId(v: Node)
    requires |v.log| > 0
    ensures Stand(v).id == v.id && Lead(v).id == Lead(Stand(v)).id == v.id
  {
  }

  lemma ReplicationKeepsPicture(c: Cluster, step: Step, n: NodeId, p: NodeId)
    requires Enabled(c, step) && Known(c, n) && c.nodes[n].role == Leader && Beside(step, n, p)
    requires step.AnswerAppend? || step.HearAppend? || step.AnswerInstall? || step.HearInstall?
    ensures PictureKept(c, After(c, step), n, p)
  {
    hide Sent, Accepted, Raised, OnAppendEntries, OnAppendReply, OnInstallSnapshot, OnInstallReply;
    match step
    case AnswerAppend(call) => RefusedAppend(c.nodes[call.to], p, call.request.append);
    case HearAppend(a) =>
      AppendReplyId(c.nodes[a.call.from], a.call.to, a.call.request.append.term, a.reply.append);
      if a.call.from == n { OtherAppendReply(c.nodes[n], a.call.to, p, a.call.request.append.term, a.reply.append); }
    case AnswerInstall(call) => RefusedInstall(c.nodes[call.to], p, call.request.install);
    case HearInstall(a) =>
      var args := a.call.request.install;
      InstallReplyId(c.nodes[a.call.from], a.call.to, args.term, args.lastIncludedIndex, a.reply.install);
      if a.call.from == n {
        OtherInstallReply(c.nodes[n], a.call.to, p, args.term, args.lastIncludedIndex, a.reply.install);
      }
  }

  lemma LocalKeepsPicture(c: Cluster, step: Step, n: NodeId, p: NodeId)
    requires Enabled(c, step) && Known(c, n) && Beside(step, n, p)
    requires step.Heartbeat? || step.ProposeEntry? || step.Compaction? || step.Deliver?
    ensures n in After(c, step).nodes && SamePicture(c.nodes[n], After(c, step).nodes[n], p)
  {
    hide Broadcast, Sent, Extended, CutAt, Deliveries;
  }

  lemma BesideKeepsPicture(c: Cluster, step: Step, n: NodeId, p: NodeId)
    requires Enabled(c, step) && Known(c, n) && c.nodes[n].role == Leader && Beside(step, n, p)
    requires Stays(c, After(c, step), n, p)
    ensures SamePicture(c.nodes[n], After(c, step).nodes[n], p)
  {
    hide Enabled, After, Known, SamePicture, Beside;
    if step.AnswerAppend? || step.HearAppend? || step.AnswerInstall? || step.HearInstall? {
      ReplicationKeepsPicture(c, step, n, p);
    } else if step.Heartbeat? || step.ProposeEntry? || step.Compaction? || step.Deliver? {
      LocalKeepsPicture(c, step, n, p);
    } else {
      ElectionKeepsPicture(c, step, n, p);
    }
  }

  // ----- every move stays on course -----------------------------------------

  lemma SureStays(l: Ledger, l': Ledger, v: Node, v': Node, p: NodeId)
    requires Grows(l, l') && |v.log| > 0 && SamePicture(v, v', p)
    ensures Sure(l', v', p) <= Sure(l, v, p) && Done(v', p) == Done(v, p) && Worst(v', p) == Worst(v, p)
  {
  }

  lemma ProbesStays(v: Node, v': Node, p: NodeId, call: Call)
    requires SamePicture(v, v', p) && Probes(v, p, call)
    ensures Probes(v', p, call)
  {
  }

  lemma BesideOnCourse(c: Cluster, ph: Phase, step: Step, n: NodeId, p: NodeId, w: nat)
    requires SystemInv(c) && OnCourse(c, ph, n, p, w) && Enabled(c, step) && Beside(step, n, p)
    requires Stays(c, After(c, step), n, p)
    ensures OnCourse(After(c, step), ph, n, p, w) && OnCourse(After(c, step), Idle(ph.score), n, p, w)
    ensures SamePicture(c.nodes[n], After(c, step).nodes[n], p)
  {
    hide SystemInv, Enabled, After, Known, Beside, Grows, Sure, Done, Worst, Probes;
    var c' := After(c, step);
    PairKnownAt(c, n);
    StepPreserves(c, step);
    MessagesStay(c, step);
    BesideKeepsPicture(c, step, n, p);
    SureStays(c.ledger, c'.ledger, c.nodes[n], c'.nodes[n], p);
    match ph
    case Idle(_) =>
    case Called(_, call) => ProbesStays(c.nodes[n], c'.nodes[n], p, call);
    case Replied(_, a) => ProbesStays(c.nodes[n], c'.nodes[n], p, a.call);
  }

  lemma RoundProbes(c: Cluster, n: NodeId, p: NodeId)
    requires SystemInv(c) && Paired(c, n, p) && Known(c, n)
    ensures Probes(c.nodes[n], p, RoundCall(c, n, p))
  {
    hide SystemInv;
    if Probe(c.nodes[n], p) > c.nodes[n].lastIncludedIndex {
      RoundReach(c, n, p);
    }
  }

  lemma CallsOnCourse(c: Cluster, score: Score, n: NodeId, p: NodeId, w: nat)
    requires SystemInv(c) && OnCourse(c, Idle(score), n, p, w) && Enabled(c, Heartbeat(n))
    ensures var c' := After(c, Heartbeat(n));
      OnCourse(c', Called(score, RoundCall(c, n, p)), n, p, w) && c'.nodes == c.nodes
  {
    hide SystemInv, Sure, Probes, Sends, Broadcast;
    PairKnownAt(c, n);
    FirstStep(c, n, p);
    RoundProbes(c, n, p);
  }

  /** What p is known to hold agrees with n's log. */
  lemma HeldAgrees(c: Cluster, n: NodeId, p: NodeId, i: nat)
    requires SystemInv(c) && Paired(c, n, p) && Holds(c.ledger, p, c.nodes[n].currentTerm, i)
    ensures Agree(FullLog(c, p), FullLog(c, n), i)
  {
    hide SystemInv, Inv, Safe, Compacts;
    PairKnown(c, n, p);
    PairLogs(c, n, p);
    if i == 0 {
      OriginsAgree(c, n, p);
    } else {
      AckTerm(c.ledger, p, c.nodes[n].currentTerm, i);
      AckHolds(c.ledger, p, c.nodes[n].currentTerm, i);
    }
  }

  lemma AckTerm(l: Ledger, p: NodeId, t: nat, i: nat)
    requires Inv(l) && AckedTo(l, p, t, i)
    ensures p in l.members && t <= l.members[p].term
  {
    assert AckOk(l, Slot(p, t));
  }

  /** A record of a whole match is right. */
  lemma DoneHolds(c: Cluster, n: NodeId, p: NodeId)
    requires SystemInv(c) && Paired(c, n, p) && |c.nodes[n].log| > 0 && Done(c.nodes[n], p)
    ensures Holds(c.ledger, p, c.nodes[n].currentTerm, c.nodes[n].LastLogIndex())
  {
    hide Inv, SystemInv, Compacts, Safe;
    PairKnown(c, n, p);
    PairLogs(c, n, p);
    assert PeerOk(c.ledger, c.nodes[n], p, |FullLog(c, n)|);
  }

  /** A pair that is done, or sure of the index it probes, is ready. */
  lemma SureIsReady(c: Cluster, n: NodeId, p: NodeId)
    requires SystemInv(c) && Paired(c, n, p) && |c.nodes[n].log| > 0
    requires Done(c.nodes[n], p) || Certain(c.ledger, c.nodes[n], p)
    ensures Probe(c.nodes[n], p) > c.nodes[n].lastIncludedIndex && Ready(c, n, p)
  {
    hide SystemInv, Inv, Agree;
    PairLogs(c, n, p);
    PairKnown(c, n, p);
    NextBound(c, n, p);
    if Done(c.nodes[n], p) {
      DoneHolds(c, n, p);
    }
    HeldAgrees(c, n, p, Probe(c.nodes[n], p) - 1);
  }

  lemma RepliesOnCourse(c: Cluster, score: Score, call: Call, n: NodeId, p: NodeId, w: nat)
    requires SystemInv(c) && OnCourse(c, Called(score, call), n, p, w) && Known(c, p) && Enabled(c, Replying(call))
    requires Stays(c, After(c, Replying(call)), n, p)
    ensures var c' := After(c, Replying(call));
      OnCourse(c', Replied(score, Reply(c, call)), n, p, w) && c'.nodes[n] == c.nodes[n]
  {
    hide SystemInv, OnAppendEntries, OnInstallSnapshot, Known, Ready, CallOk, Enabled, After, Grows;
    PairKnownAt(c, n);
    CallIsOk(c, call);
    var v := c.nodes[n];
    ReplyMoves(c, call, n, p);
    NextBound(c, n, p);
    StepPreserves(c, Replying(call));
    SureStays(c.ledger, After(c, Replying(call)).ledger, v, v, p);
    if call.request.Append? {
      CallVerdict(c, n, p, call);
      if Done(v, p) || Certain(c.ledger, v, p) {
        SureIsReady(c, n, p);
      }
    }
  }

  lemma CallIsOk(c: Cluster, call: Call)
    requires SystemInv(c) && call in c.calls
    ensures CallOk(c.ledger, call)
  {
  }

  lemma ReplyMoves(c: Cluster, call: Call, n: NodeId, p: NodeId)
    requires call in c.calls && call.to == p && p != n && n in c.nodes && Known(c, p) && !call.request.Vote?
    ensures Enabled(c, Replying(call))
    ensures var c' := After(c, Replying(call));
      n in c'.nodes && c'.nodes[n] == c.nodes[n] && Reply(c, call) in c'.answers
  {
    hide OnAppendEntries, OnInstallSnapshot, Raised, Accepted;
    match call.request
    case Append(args) => RefusedAppend(c.nodes[p], p, args);
    case Install(args) => RefusedInstall(c.nodes[p], p, args);
    case Vote(_) =>
  }

  /** What n makes of p's answer to its probe. */
  lemma AppendHeard(v: Node, p: NodeId, call: Call, r: AppendEntriesReply)
    requires v.Valid() && v.role == Leader && Probes(v, p, call) && call.request.Append? && r.term <= v.currentTerm
    requires r.success ==> r.matchIndex == v.LastLogIndex()
    requires !r.success ==> Probe(v, p) > 1
    ensures var v' := OnAppendReply(v, p, call.request.append.term, r).0;
      && v'.id == v.id && v'.log == v.log && v'.lastIncludedIndex == v.lastIncludedIndex
      && v'.currentTerm == v.currentTerm
      && (r.success ==> Done(v', p)) && (!r.success ==> Worst(v', p) < Worst(v, p))
  {
    hide Broadcast;
  }

  lemma InstallHeard(l: Ledger, v: Node, p: NodeId, call: Call, r: InstallSnapshotReply)
    requires v.Valid() && v.role == Leader && Probes(v, p, call) && call.request.Install? && r.term <= v.currentTerm
    requires Holds(l, p, v.currentTerm, v.lastIncludedIndex)
    ensures var v' := OnInstallReply(v, p, call.request.install.term, call.request.install.lastIncludedIndex, r);
      && v'.id == v.id && v'.log == v.log && v'.lastIncludedIndex == v.lastIncludedIndex
      && v'.currentTerm == v.currentTerm
      && Certain(l, v', p)
  {
  }

  lemma SureIsSmall(l: Ledger, v: Node, p: NodeId)
    requires |v.log| > 0
    ensures Done(v, p) ==> Sure(l, v, p) == 0
    ensures Certain(l, v, p) ==> Sure(l, v, p) <= 1
    ensures Sure(l, v, p) <= Worst(v, p) && Worst(v, p) >= 2
    ensures Sure(l, v, p) == 0 ==> Done(v, p)
  {
  }

  lemma CertainStays(l: Ledger, l': Ledger, v: Node, p: NodeId)
    requires Grows(l, l') && Certain(l, v, p)
    ensures Certain(l', v, p)
  {
  }

  /** The answers of a peer that has not left the leader's term. */
  lemma AnswerTruth(c: Cluster, a: Answer, n: NodeId, p: NodeId)
    requires SystemInv(c) && Paired(c, n, p) && a in c.answers && a.call.to == p && Probes(c.nodes[n], p, a.call)
    ensures a.reply.Appended? ==> a.call.request.Append? && a.reply.append.term <= c.nodes[n].currentTerm
    ensures a.reply.Installed? ==> a.call.request.Install? && a.reply.install.term <= c.nodes[n].currentTerm
    ensures a.reply.Installed? ==> Holds(c.ledger, p, c.nodes[n].currentTerm, c.nodes[n].lastIncludedIndex)
  {
    hide Inv;
    assert AnswerOk(c.ledger, a);
    PairKnown(c, n, p);
    NodeTermOf(c, p);
  }

  lemma NodeTermOf(c: Cluster, p: NodeId)
    requires SystemInv(c) && p in c.nodes
    ensures p in c.ledger.members && c.ledger.members[p].term == c.nodes[p].currentTerm
  {
    assert NodeHolds(c, p);
  }

  lemma HearMoves(c: Cluster, a: Answer, n: NodeId, p: NodeId)
    requires Known(c, n) && a in c.answers && a.call.from == n && a.call.to == p && !a.call.request.Vote?
    requires a.reply.Appended? <==> a.call.request.Append?
    requires a.reply.Installed? <==> a.call.request.Install?
    ensures Enabled(c, Hearing(a))
    ensures n in After(c, Hearing(a)).nodes
    ensures a.reply.Appended? ==>
      After(c, Hearing(a)).nodes[n] == OnAppendReply(c.nodes[n], p, a.call.request.append.term, a.reply.append).0
    ensures a.reply.Installed? ==>
      After(c, Hearing(a)).nodes[n]
        == OnInstallReply(c.nodes[n], p, a.call.request.install.term, a.call.request.install.lastIncludedIndex,
                          a.reply.install)
  {
    hide OnAppendReply, OnInstallReply, Raised, Sent;
    match a.call.request
    case Append(args) => AppendReplyId(c.nodes[n], p, args.term, a.reply.append);
    case Install(args) => InstallReplyId(c.nodes[n], p, args.term, args.lastIncludedIndex, a.reply.install);
    case Vote(_) =>
  }

  lemma HearsOnCourse(c: Cluster, score: Score, a: Answer, n: NodeId, p: NodeId, w: nat)
    requires SystemInv(c) && OnCourse(c, Replied(score, a), n, p, w) && Enabled(c, Hearing(a))
    requires Stays(c, After(c, Hearing(a)), n, p)
    ensures var c' := After(c, Hearing(a));
      && OnCourse(c', Idle(Scored(score, Done(c'.nodes[n], p))), n, p, w)
      && c'.nodes[n].log == c.nodes[n].log && c'.nodes[n].lastIncludedIndex == c.nodes[n].lastIncludedIndex
  {
    hide SystemInv, OnAppendReply, OnInstallReply, Enabled, After, Known, Grows, Sure, Done, Certain, Worst, Probes;
    PairKnownAt(c, n);
    KnownValid(c, n);
    var v, c' := c.nodes[n], After(c, Hearing(a));
    ProbesParts(v, p, a.call);
    SureIsSmall(c.ledger, v, p);
    StepPreserves(c, Hearing(a));
    AnswerTruth(c, a, n, p);
    HearMoves(c, a, n, p);
    match a.reply
    case Voted(_) =>
    case Appended(r) =>
      AppendHeard(v, p, a.call, r);
      SureIsSmall(c'.ledger, c'.nodes[n], p);
    case Installed(r) =>
      InstallHeard(c.ledger, v, p, a.call, r);
      CertainStays(c.ledger, c'.ledger, c'.nodes[n], p);
      SureIsSmall(c'.ledger, c'.nodes[n], p);
  }

  lemma ProbesParts(v: Node, p: NodeId, call: Call)
    requires Probes(v, p, call)
    ensures call.from == v.id && call.to == p && !call.request.Vote? && |v.log| > 0
  {
  }

  // ----- late answers -------------------------------------------------------

  /** An answer read out of turn may put n's index for p back, but not far: what p has acknowledged it still holds. */
  lemma LateAppend(l: Ledger, v: Node, p: NodeId, term: nat, r: AppendEntriesReply)
    requires |v.log| > 0 && OnAppendReply(v, p, term, r).0.currentTerm == v.currentTerm
    requires r.success && term == v.currentTerm ==> Holds(l, p, v.currentTerm, r.matchIndex)
    requires Done(v, p) ==> Holds(l, p, v.currentTerm, v.LastLogIndex())
    ensures var v' := OnAppendReply(v, p, term, r).0;
      && v'.id == v.id && v'.log == v.log && v'.lastIncludedIndex == v.lastIncludedIndex
      && Sure(l, v', p) <= Max(Sure(l, v, p), 2)
  {
    hide Broadcast;
    if !r.success && Certain(l, v, p) {
      HoldsBelow(l, p, v.currentTerm, Probe(v, p) - 1, if Probe(v, p) > 1 then Probe(v, p) - 2 else 0);
    }
    if !r.success && Done(v, p) {
      HoldsBelow(l, p, v.currentTerm, v.LastLogIndex(), if v.LastLogIndex() > 0 then v.LastLogIndex() - 1 else 0);
    }
  }

  lemma HoldsBelow(l: Ledger, p: NodeId, t: nat, i: nat, j: nat)
    requires Holds(l, p, t, i) && j <= i
    ensures Holds(l, p, t, j)
  {
  }

  lemma LateInstall(l: Ledger, v: Node, p: NodeId, term: nat, sent: nat, r: InstallSnapshotReply)
    requires |v.log| > 0 && OnInstallReply(v, p, term, sent, r).currentTerm == v.currentTerm
    requires term == v.currentTerm ==> Holds(l, p, v.currentTerm, sent)
    ensures var v' := OnInstallReply(v, p, term, sent, r);
      && v'.id == v.id && v'.log == v.log && v'.lastIncludedIndex == v.lastIncludedIndex
      && Sure(l, v', p) <= Max(Sure(l, v, p), 2)
  {
  }

  /** The answers of the peer to calls of the leader's term are backed by its acknowledgements, late or not. */
  lemma LateTruth(c: Cluster, a: Answer, n: NodeId, p: NodeId)
    requires SystemInv(c) && Paired(c, n, p) && a in c.answers && a.call.to == p
    ensures a.reply.Appended? ==> a.call.request.Append?
    ensures a.reply.Appended? && a.call.request.append.term == c.nodes[n].currentTerm && a.reply.append.success ==>
      Holds(c.ledger, p, c.nodes[n].currentTerm, a.reply.append.matchIndex)
    ensures a.reply.Installed? ==> a.call.request.Install?
    ensures a.reply.Installed? && a.call.request.install.term == c.nodes[n].currentTerm ==>
      Holds(c.ledger, p, c.nodes[n].currentTerm, a.call.request.install.lastIncludedIndex)
  {
    hide Inv;
    assert AnswerOk(c.ledger, a);
    NodeTermOf(c, p);
  }

  lemma LateOnCourse(c: Cluster, ph: Phase, step: Step, n: NodeId, p: NodeId, w: nat)
    requires SystemInv(c) && OnCourse(c, ph, n, p, w) && Enabled(c, step) && Hears(step, n, p)
    requires Stays(c, After(c, step), n, p)
    ensures var c' := After(c, step);
      && OnCourse(c', Idle(ph.score.(late := ph.score.late + 1)), n, p, w)
      && c'.nodes[n].log == c.nodes[n].log && c'.nodes[n].lastIncludedIndex == c.nodes[n].lastIncludedIndex
  {
    hide SystemInv, OnAppendReply, OnInstallReply, After, Known, Grows, Sure, Done, Holds;
    PairKnownAt(c, n);
    var v, c', a := c.nodes[n], After(c, step), step.a;
    StepPreserves(c, step);
    LateTruth(c, a, n, p);
    assert step == Hearing(a);
    HearMoves(c, a, n, p);
    if Done(v, p) {
      DoneHolds(c, n, p);
    }
    if step.HearAppend? {
      LateAppend(c.ledger, v, p, a.call.request.append.term, a.reply.append);
    } else {
      var args := a.call.request.install;
      LateInstall(c.ledger, v, p, args.term, args.lastIncludedIndex, a.reply.install);
    }
    SureGrows(c.ledger, c'.ledger, c'.nodes[n], p);
  }

  lemma SureGrows(l: Ledger, l': Ledger, v: Node, p: NodeId)
    requires Grows(l, l') && |v.log| > 0
    ensures Sure(l', v, p) <= Sure(l, v, p)
  {
  }

  // ----- the bound ----------------------------------------------------------

  /** The part of a run from state i on, with the phase of the pair's round at every state: each step is a move. */
  ghost predicate Interleaved(cs: seq<Cluster>, i: nat, phs: seq<Phase>, n: NodeId, p: NodeId) {
    && i < |cs| && |phs| > 0 && i + |phs| <= |cs| && phs[0] == Idle(Score(0, 0, 0)) && Paired(cs[i], n, p)
    && forall j {:trigger MovesAt(cs, i, phs, n, p, j)} :: 0 <= j < |phs| - 1 ==> MovesAt(cs, i, phs, n, p, j)
  }

  ghost predicate MovesAt(cs: seq<Cluster>, i: nat, phs: seq<Phase>, n: NodeId, p: NodeId, j: nat)
    requires j + 1 < |phs| && i + |phs| <= |cs|
  {
    n in cs[i + j].nodes && MovesSomehow(cs[i + j], phs[j], cs[i + j + 1], phs[j + 1], n, p)
  }

  ghost predicate MovesSomehow(c: Cluster, ph: Phase, c': Cluster, ph': Phase, n: NodeId, p: NodeId)
    requires n in c.nodes
  {
    exists step :: Moves(c, ph, c', ph', step, n, p)
  }

  lemma MoveOnCourse(c: Cluster, ph: Phase, c': Cluster, ph': Phase, step: Step, n: NodeId, p: NodeId, w: nat)
    requires SystemInv(c) && OnCourse(c, ph, n, p, w) && Moves(c, ph, c', ph', step, n, p)
    ensures OnCourse(c', ph', n, p, w)
    ensures c'.nodes[n].log == c.nodes[n].log && c'.nodes[n].lastIncludedIndex == c.nodes[n].lastIncludedIndex
  {
    hide SystemInv, OnCourse, Enabled, After;
    CourseParts(c, ph, n, p, w);
    if (ph' == ph || ph' == Idle(ph.score)) && Beside(step, n, p) {
      BesideOnCourse(c, ph, step, n, p, w);
    } else if Hears(step, n, p) && ph' == Idle(ph.score.(late := ph.score.late + 1)) {
      LateOnCourse(c, ph, step, n, p, w);
    } else {
      PairKnownAt(c, p);
      match ph
      case Idle(score) => CallsOnCourse(c, score, n, p, w);
      case Called(score, call) => RepliesOnCourse(c, score, call, n, p, w);
      case Replied(score, a) => HearsOnCourse(c, score, a, n, p, w);
    }
  }

  lemma CourseParts(c: Cluster, ph: Phase, n: NodeId, p: NodeId, w: nat)
    requires OnCourse(c, ph, n, p, w)
    ensures Paired(c, n, p) && |c.nodes[n].log| > 0
    ensures ph.score.short < w + ph.score.late
    ensures ph.score.late == 0 && ph.score.rounds >= w ==> Done(c.nodes[n], p)
  {
    SureIsSmall(c.ledger, c.nodes[n], p);
  }

  /** A pair that is done is level: the leader knows that the peer holds its whole log. */
  lemma DoneIsLevel(c: Cluster, n: NodeId, p: NodeId)
    requires SystemInv(c) && Paired(c, n, p) && |c.nodes[n].log| > 0 && Done(c.nodes[n], p)
    ensures c.nodes[n].Valid() && Level(c, n, p) && |FullLog(c, n)| - 1 == c.nodes[n].LastLogIndex()
    ensures Agree(FullLog(c, p), FullLog(c, n), |FullLog(c, n)| - 1)
  {
    hide SystemInv, Agree;
    PairLogs(c, n, p);
    DoneHolds(c, n, p);
    HeldAgrees(c, n, p, c.nodes[n].LastLogIndex());
  }

  lemma {:induction false} StaysOnCourse(cs: seq<Cluster>, i: nat, phs: seq<Phase>, n: NodeId, p: NodeId, w: nat)
    requires Run(cs) && Interleaved(cs, i, phs, n, p) && OnCourse(cs[i], Idle(Score(0, 0, 0)), n, p, w)
    ensures var last := |phs| - 1; var d := cs[i + last];
      && OnCourse(d, phs[last], n, p, w)
      && d.nodes[n].log == cs[i].nodes[n].log && d.nodes[n].lastIncludedIndex == cs[i].nodes[n].lastIncludedIndex
    decreases |phs|
  {
    hide Run, OnCourse, Moves, SystemInv;
    if |phs| > 1 {
      var k := |phs| - 1;
      var front := phs[..k];
      assert Interleaved(cs, i, front, n, p) by {
        forall j | 0 <= j < |front| - 1
          ensures MovesAt(cs, i, front, n, p, j)
        {
          assert MovesAt(cs, i, phs, n, p, j);
        }
      }
      StaysOnCourse(cs, i, front, n, p, w);
      assert MovesAt(cs, i, phs, n, p, k - 1);
      var step :| Moves(cs[i + k - 1], phs[k - 1], cs[i + k], phs[k], step, n, p);
      RunHolds(cs, i + k - 1);
      MoveOnCourse(cs[i + k - 1], phs[k - 1], cs[i + k], phs[k], step, n, p, w);
    }
  }

  /** The bound, whatever else the cluster does meanwhile: in any part of a run in which a leader and a peer stay in the
      leader's term with no new proposals and no new leader snapshots, all but lastLogIndex - lastIncludedIndex + 2 of
      the pair's complete rounds leave it level, and one more for every answer of the peer the leader reads out of turn.
      Without such answers it stays level once lastLogIndex - lastIncludedIndex + 3 rounds are complete. */
  lemma CatchUpOverRuns(cs: seq<Cluster>, i: nat, phs: seq<Phase>, n: NodeId, p: NodeId)
    requires Run(cs) && Interleaved(cs, i, phs, n, p)
    ensures n in cs[i].nodes && cs[i].nodes[n].Valid()
    ensures var score := phs[|phs| - 1].score; var v := cs[i].nodes[n];
      score.short + v.lastIncludedIndex <= v.LastLogIndex() + 2 + score.late
    ensures var score := phs[|phs| - 1].score; var v := cs[i].nodes[n]; var d := cs[i + |phs| - 1];
      score.late == 0 && score.rounds + v.lastIncludedIndex >= v.LastLogIndex() + 3 ==>
        && n in d.nodes && d.nodes[n].log == v.log && d.nodes[n].Valid() && Level(d, n, p)
        && Agree(FullLog(d, p), FullLog(d, n), |FullLog(d, n)| - 1)
        && |FullLog(d, n)| - 1 == d.nodes[n].LastLogIndex()
  {
    hide Run, OnCourse, MovesAt, SystemInv, Agree;
    var c, d, score := cs[i], cs[i + |phs| - 1], phs[|phs| - 1].score;
    RunHolds(cs, i);
    RunHolds(cs, i + |phs| - 1);
    PairLogs(c, n, p);
    NextBound(c, n, p);
    var w := c.nodes[n].LastLogIndex() + 3 - c.nodes[n].lastIncludedIndex;
    StartsOnCourse(c, n, p, w);
    StaysOnCourse(cs, i, phs, n, p, w);
    CourseParts(d, phs[|phs| - 1], n, p, w);
    if score.late == 0 && score.rounds >= w {
      DoneIsLevel(d, n, p);
    }
  }

  lemma StartsOnCourse(c: Cluster, n: NodeId, p: NodeId, w: nat)
    requires SystemInv(c) && Paired(c, n, p) && c.nodes[n].Valid() && Worst(c.nodes[n], p) <= w
    ensures OnCourse(c, Idle(Score(0, 0, 0)), n, p, w)
  {
    hide SystemInv;
    PairKnownAt(c, n);
    SureIsSmall(c.ledger, c.nodes[n], p);
  }
}
