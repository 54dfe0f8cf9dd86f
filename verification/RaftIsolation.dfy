/** Pre-vote isolation (section 9.6 of Ongaro's dissertation): a minority cut off from the rest neither raises its terms
    nor makes a leader, however long it stays cut off. */
module RaftIsolation {
  import opened RaftTypes
  import opened RaftLedger
  import opened RaftHandlers
  import opened RaftCluster
  import opened RaftInvariant
  import opened RaftElections
  import opened RaftRuns
  import opened RaftSafety

  // ----- polls count what they should -------------------------------------

  /** A poll's integer tally is the poller plus the peers counted; each peer is heard once. */
  ghost predicate PollOk(ids: set<NodeId>, s: Slot, t: Poll) {
    && t.votes == 1 + |t.granted| && t.granted !! t.due && t.granted + t.due <= t.heard <= ids && s.node !in t.heard
  }

  ghost predicate PollsOk(c: Cluster) {
    forall s {:trigger s in c.polls} :: s in c.polls ==> PollOk(c.ledger.ids, s, c.polls[s])
  }

  lemma CampaignPolls(c: Cluster, n: NodeId)
    requires Known(c, n)
    ensures Campaign(c, n).polls == c.polls && Campaign(c, n).loops == c.loops
  {
  }

  lemma PollsUntouched(c: Cluster, step: Step)
    requires Enabled(c, step) && !step.StartPreVote? && !step.HearPreVote? && !step.CountPreVote?
    ensures After(c, step).polls == c.polls
    ensures !step.FinishPreVote? ==> After(c, step).loops == c.loops
  {
    hide FinishedPreVote, HeardVote, AnsweredAppend, AnsweredInstall, HeardAppend, HeardInstall, OnRequestVote,
         Broadcast, Sent, Raised, Balloted, Extended, Applied, OnTakeSnapshot, Proposed;
    match step
    case FinishPreVote(n) => FinishUntouched(c, n);
    case HearVote(a) => HeardUntouched(c, a);
    case AnswerAppend(call) => AppendUntouched(c, call);
    case AnswerInstall(call) => InstallUntouched(c, call);
    case HearAppend(a) => HeardAppendUntouched(c, a);
    case HearInstall(a) => HeardInstallUntouched(c, a);
    case _ =>
  }

  lemma FinishUntouched(c: Cluster, n: NodeId)
    requires Known(c, n) && c.loops[n].Polling? && Slot(n, c.loops[n].round) in c.polls
    ensures FinishedPreVote(c, n).polls == c.polls
  {
    hide Campaign;
    CampaignPolls(c.(loops := c.loops[n := Waiting]), n);
  }

  lemma HeardUntouched(c: Cluster, a: Answer)
    requires HearsVote(c, a, false) && Slot(a.call.from, a.call.request.vote.term) in c.elections
    ensures HeardVote(c, a).polls == c.polls && HeardVote(c, a).loops == c.loops
  {
    hide Lead, Won, Sent, Raised;
  }

  lemma AppendUntouched(c: Cluster, call: Call)
    requires Receives(c, call) && call.request.Append?
    ensures AnsweredAppend(c, call).polls == c.polls && AnsweredAppend(c, call).loops == c.loops
  {
    hide OnAppendEntries, Raised, Accepted;
  }

  lemma InstallUntouched(c: Cluster, call: Call)
    requires Receives(c, call) && call.request.Install?
    ensures AnsweredInstall(c, call).polls == c.polls && AnsweredInstall(c, call).loops == c.loops
  {
    hide OnInstallSnapshot, Raised, Accepted;
  }

  lemma HeardAppendUntouched(c: Cluster, a: Answer)
    requires a in c.answers && a.call.request.Append? && a.reply.Appended? && Known(c, a.call.from)
    ensures HeardAppend(c, a).polls == c.polls && HeardAppend(c, a).loops == c.loops
  {
    hide OnAppendReply, Raised, Sent;
  }

  lemma HeardInstallUntouched(c: Cluster, a: Answer)
    requires a in c.answers && a.call.request.Install? && a.reply.Installed? && Known(c, a.call.from)
    ensures HeardInstall(c, a).polls == c.polls && HeardInstall(c, a).loops == c.loops
  {
    hide OnInstallReply, Raised;
  }

  lemma StartPolls(c: Cluster, n: NodeId)
    requires Known(c, n) && PollsOk(c) && StartedPreVote(c, n).ledger.ids == c.ledger.ids
    ensures PollsOk(StartedPreVote(c, n))
  {
    hide Campaign, Canvass;
    CampaignPolls(c, n);
  }

  lemma HeardPolls(c: Cluster, a: Answer)
    requires PollsOk(c) && Enabled(c, HearPreVote(a)) && a.call.from != a.call.to && a.call.to in c.ledger.ids
    requires HeardPreVote(c, a).ledger.ids == c.ledger.ids
    ensures PollsOk(HeardPreVote(c, a))
  {
    hide Raised;
  }

  lemma CountedPolls(c: Cluster, s: Slot, p: NodeId)
    requires PollsOk(c) && s in c.polls && p in c.polls[s].due
    ensures PollsOk(CountedPreVote(c, s, p))
  {
  }

  lemma SamePolls(c: Cluster, c': Cluster)
    requires PollsOk(c) && c'.polls == c.polls && c'.ledger.ids == c.ledger.ids
    ensures PollsOk(c')
  {
  }

  lemma StepPolls(c: Cluster, step: Step)
    requires SystemInv(c) && PollsOk(c) && Enabled(c, step)
    ensures PollsOk(After(c, step))
  {
    hide SystemInv, StartedPreVote, HeardPreVote, CountedPreVote, PollsOk;
    StepPreserves(c, step);
    match step
    case StartPreVote(n) => StartPolls(c, n);
    case HearPreVote(a) => FromIsNotTo(c, a); HeardPolls(c, a);
    case CountPreVote(n, round, p) => CountedPolls(c, Slot(n, round), p);
    case _ => PollsUntouched(c, step); SamePolls(c, After(c, step));
  }

  lemma FromIsNotTo(c: Cluster, a: Answer)
    requires SystemInv(c) && a in c.answers
    ensures a.call.from != a.call.to && a.call.to in c.ledger.ids && AnswerOk(c.ledger, a)
  {
    assert AnswerOk(c.ledger, a);
    AnswerParts(c.ledger, a);
  }

  lemma {:induction false} RunPolls(cs: seq<Cluster>, i: nat)
    requires Run(cs) && i < |cs|
    ensures PollsOk(cs[i])
  {
    hide SystemInv, PollsOk;
    if i == 0 {
      assert PollsOk(cs[0]) by { FreshPolls(cs[0]); }
    } else {
      var j := i - 1;
      RunPolls(cs, j);
      RunHolds(cs, j);
      assert Next(cs[j], cs[j + 1]);
      var step :| Enabled(cs[j], step) && cs[i] == After(cs[j], step);
      StepPolls(cs[j], step);
    }
  }

  lemma FreshPolls(c: Cluster)
    requires Init(c)
    ensures PollsOk(c)
  {
  }

  // ----- the cut ----------------------------------------------------------

  /** No message crosses the cut: local steps are free on both sides, a message moves within one side. */
  ghost predicate Within(inside: set<NodeId>, step: Step) {
    match step
    case HearPreVote(a) => a.call.from in inside <==> a.call.to in inside
    case AnswerVote(call, _) => call.from in inside <==> call.to in inside
    case HearVote(a) => a.call.from in inside <==> a.call.to in inside
    case AnswerAppend(call) => call.from in inside <==> call.to in inside
    case HearAppend(a) => a.call.from in inside <==> a.call.to in inside
    case AnswerInstall(call) => call.from in inside <==> call.to in inside
    case HearInstall(a) => a.call.from in inside <==> a.call.to in inside
    case _ => true
  }

  ghost predicate NextWithin(c: Cluster, c': Cluster, inside: set<NodeId>) {
    exists step :: Enabled(c, step) && Within(inside, step) && c' == After(c, step)
  }

  /** Neither the poll n awaits nor the election it stands in has counted anyone outside. */
  ghost predicate CountsInside(c: Cluster, inside: set<NodeId>, n: NodeId) {
    && n in c.nodes && n in c.loops
    && (c.loops[n].Polling? && Slot(n, c.loops[n].round) in c.polls ==>
         c.polls[Slot(n, c.loops[n].round)].granted + c.polls[Slot(n, c.loops[n].round)].due <= inside)
    && (c.nodes[n].role == Candidate && Slot(n, c.nodes[n].currentTerm) in c.elections ==>
         c.elections[Slot(n, c.nodes[n].currentTerm)].granted <= inside)
  }

  ghost predicate Cut(c: Cluster, inside: set<NodeId>, bound: nat) {
    forall n {:trigger n in inside} :: n in inside ==> CountsInside(c, inside, n) && c.nodes[n].currentTerm <= bound
  }

  /** A node that neither passes the bound nor rises to candidate or leader. */
  ghost predicate Calm(v: Node, v': Node, bound: nat) {
    && v'.currentTerm <= bound
    && (v'.role != Follower ==> v'.role == v.role && v'.currentTerm == v.currentTerm)
  }

  /** Handlers adopt no term but the caller's. */
  lemma VoteCalm(v: Node, vote: RequestVoteArgs, heardLately: bool, bound: nat)
    requires v.Valid() && v.currentTerm <= bound
    ensures vote.isPreVote || vote.term <= bound ==> Calm(v, OnRequestVote(v, vote, heardLately).0, bound)
    ensures OnRequestVote(v, vote, heardLately).0.id == v.id
  {
  }

  lemma AppendCalm(v: Node, append: AppendEntriesArgs, bound: nat)
    requires v.Valid() && v.currentTerm <= bound
    ensures append.term <= bound ==> Calm(v, OnAppendEntries(v, append).0, bound)
    ensures OnAppendEntries(v, append).0.id == v.id
  {
    hide Merged;
  }

  lemma InstallCalm(v: Node, install: InstallSnapshotArgs, bound: nat)
    requires v.Valid() && v.currentTerm <= bound
    ensures install.term <= bound ==> Calm(v, OnInstallSnapshot(v, install).0, bound)
    ensures OnInstallSnapshot(v, install).0.id == v.id
  {
    hide CutAt;
  }

  lemma RepliesCalm(v: Node, p: NodeId, term: nat, append: AppendEntriesReply, sent: nat,
                    install: InstallSnapshotReply, bound: nat)
    requires v.Valid() && v.currentTerm <= bound
    ensures append.term <= bound ==> Calm(v, OnAppendReply(v, p, term, append).0, bound)
    ensures install.term <= bound ==> Calm(v, OnInstallReply(v, p, term, sent, install), bound)
    ensures OnAppendReply(v, p, term, append).0.id == OnInstallReply(v, p, term, sent, install).id == v.id
  {
    hide Broadcast;
  }

  /** Messages carry no term above their sender's. */
  lemma CallBound(c: Cluster, call: Call, bound: nat)
    requires SystemInv(c) && call in c.calls && call.from in c.nodes && c.nodes[call.from].currentTerm <= bound
    ensures match call.request
      case Vote(args) => args.isPreVote || args.term <= bound
      case Append(args) => args.term <= bound
      case Install(args) => args.term <= bound
  {
    var l := c.ledger;
    assert CallOk(l, call) && NodeHolds(c, call.from);
    match call.request
    case Vote(args) =>
      if !args.isPreVote { assert CandidacyOk(l, Slot(call.from, args.term)); }
    case Append(args) =>
      assert MandateOk(l, args.term) && CandidacyOk(l, Slot(call.from, args.term));
    case Install(args) =>
      assert MandateOk(l, args.term) && CandidacyOk(l, Slot(call.from, args.term));
  }

  lemma AnswerBound(c: Cluster, a: Answer, bound: nat)
    requires SystemInv(c) && a in c.answers && a.call.to in c.nodes && c.nodes[a.call.to].currentTerm <= bound
    ensures match a.reply
      case Voted(reply) => reply.term <= bound
      case Appended(reply) => reply.term <= bound
      case Installed(reply) => reply.term <= bound
  {
    assert AnswerOk(c.ledger, a) && NodeHolds(c, a.call.to);
  }

  /** A minority's counts fall short of every quorum. */
  lemma ShortOfQuorum(c: Cluster, inside: set<NodeId>, n: NodeId, granted: set<NodeId>)
    requires SystemInv(c) && n in inside && n in c.nodes && n !in granted && granted <= inside
    requires |inside| <= |c.ledger.ids| / 2
    ensures 1 + |granted| < c.nodes[n].Quorum()
  {
    assert NodeHolds(c, n);
    ClusterSize(c.nodes[n].peers, n, c.ledger.ids);
    SubsetSize(granted + {n}, inside);
  }

  // ----- steps within the cut ---------------------------------------------

  ghost predicate AllCalm(c: Cluster, c': Cluster, inside: set<NodeId>, bound: nat) {
    forall n {:trigger n in inside} :: n in inside ==>
      n in c.nodes && n in c'.nodes && Calm(c.nodes[n], c'.nodes[n], bound)
  }

  lemma MessageStepCalm(c: Cluster, step: Step, inside: set<NodeId>, bound: nat)
    requires SystemInv(c) && Cut(c, inside, bound) && Enabled(c, step) && Within(inside, step)
    requires step.AnswerVote? || step.AnswerAppend? || step.AnswerInstall? || step.HearAppend? || step.HearInstall?
    ensures AllCalm(c, After(c, step), inside, bound)
    ensures After(c, step).elections == c.elections && After(c, step).loops == c.loops
    ensures After(c, step).polls == c.polls
  {
    hide SystemInv, Cut, Enabled, Within, After, AllCalm;
    if step.HearAppend? || step.HearInstall? {
      ReplyStepCalm(c, step, inside, bound);
    } else {
      RequestStepCalm(c, step, inside, bound);
    }
  }

  lemma RequestStepCalm(c: Cluster, step: Step, inside: set<NodeId>, bound: nat)
    requires SystemInv(c) && Cut(c, inside, bound) && Enabled(c, step) && Within(inside, step)
    requires step.AnswerVote? || step.AnswerAppend? || step.AnswerInstall?
    ensures AllCalm(c, After(c, step), inside, bound)
    ensures After(c, step).elections == c.elections && After(c, step).loops == c.loops
    ensures After(c, step).polls == c.polls
  {
    hide SystemInv, Cut, AllCalm, AnsweredVote, AnsweredAppend, AnsweredInstall;
    match step
    case AnswerVote(call, heardLately) => VoteStepCalm(c, call, heardLately, inside, bound);
    case AnswerAppend(call) => AppendStepCalm(c, call, inside, bound);
    case AnswerInstall(call) => InstallStepCalm(c, call, inside, bound);
  }

  lemma VoteStepCalm(c: Cluster, call: Call, heardLately: bool, inside: set<NodeId>, bound: nat)
    requires SystemInv(c) && Cut(c, inside, bound) && Receives(c, call) && call.request.Vote?
    requires call.from in inside <==> call.to in inside
    ensures var c' := AnsweredVote(c, call, heardLately);
      AllCalm(c, c', inside, bound) && c'.elections == c.elections && c'.loops == c.loops && c'.polls == c.polls
  {
    hide SystemInv, OnRequestVote, Raised, Balloted, Calm, Cut, AllCalm;
    var v := c.nodes[call.to];
    var top := if call.to in inside then bound else v.currentTerm;
    CutBounds(c, inside, bound);
    if call.to in inside {
      CallBound(c, call, bound);
    }
    VoteCalm(v, call.request.vote, heardLately, top);
    OneCalm(c, AnsweredVote(c, call, heardLately), OnRequestVote(v, call.request.vote, heardLately).0, inside, bound);
  }

  lemma AppendStepCalm(c: Cluster, call: Call, inside: set<NodeId>, bound: nat)
    requires SystemInv(c) && Cut(c, inside, bound) && Receives(c, call) && call.request.Append?
    requires call.from in inside <==> call.to in inside
    ensures var c' := AnsweredAppend(c, call);
      AllCalm(c, c', inside, bound) && c'.elections == c.elections && c'.loops == c.loops && c'.polls == c.polls
  {
    hide SystemInv, OnAppendEntries, Raised, Accepted, Calm, Cut, AllCalm;
    var v := c.nodes[call.to];
    var top := if call.to in inside then bound else v.currentTerm;
    CutBounds(c, inside, bound);
    if call.to in inside {
      CallBound(c, call, bound);
    }
    AppendCalm(v, call.request.append, top);
    OneCalm(c, AnsweredAppend(c, call), OnAppendEntries(v, call.request.append).0, inside, bound);
  }

  lemma InstallStepCalm(c: Cluster, call: Call, inside: set<NodeId>, bound: nat)
    requires SystemInv(c) && Cut(c, inside, bound) && Receives(c, call) && call.request.Install?
    requires call.from in inside <==> call.to in inside
    ensures var c' := AnsweredInstall(c, call);
      AllCalm(c, c', inside, bound) && c'.elections == c.elections && c'.loops == c.loops && c'.polls == c.polls
  {
    hide SystemInv, OnInstallSnapshot, Raised, Accepted, Calm, Cut, AllCalm;
    var v := c.nodes[call.to];
    var top := if call.to in inside then bound else v.currentTerm;
    CutBounds(c, inside, bound);
    if call.to in inside {
      CallBound(c, call, bound);
    }
    InstallCalm(v, call.request.install, top);
    OneCalm(c, AnsweredInstall(c, call), OnInstallSnapshot(v, call.request.install).0, inside, bound);
  }

  lemma CutBounds(c: Cluster, inside: set<NodeId>, bound: nat)
    requires Cut(c, inside, bound)
    ensures forall n :: n in inside ==> n in c.nodes && c.nodes[n].currentTerm <= bound
  {
    forall n | n in inside
      ensures n in c.nodes && c.nodes[n].currentTerm <= bound
    {
      assert CountsInside(c, inside, n);
    }
  }

  /** All stay calm when the one that moves does. */
  lemma OneCalm(c: Cluster, c': Cluster, v': Node, inside: set<NodeId>, bound: nat)
    requires Cut(c, inside, bound) && v'.id in c.nodes && c'.nodes == c.nodes[v'.id := v']
    requires v'.id in inside ==> Calm(c.nodes[v'.id], v', bound)
    ensures AllCalm(c, c', inside, bound)
  {
    CutBounds(c, inside, bound);
  }

  lemma ReplyStepCalm(c: Cluster, step: Step, inside: set<NodeId>, bound: nat)
    requires SystemInv(c) && Cut(c, inside, bound) && Enabled(c, step) && Within(inside, step)
    requires step.HearAppend? || step.HearInstall?
    ensures AllCalm(c, After(c, step), inside, bound)
    ensures After(c, step).elections == c.elections && After(c, step).loops == c.loops
    ensures After(c, step).polls == c.polls
  {
    hide SystemInv, OnAppendReply, OnInstallReply, Raised, Accepted, Balloted, Sent;
    match step
    case HearAppend(a) =>
      var v := c.nodes[a.call.from];
      if a.call.from in inside {
        AnswerBound(c, a, bound);
        RepliesCalm(v, a.call.to, a.call.request.append.term, a.reply.append, 0, InstallSnapshotReply(0), bound);
      } else {
        var term := a.call.request.append.term;
        RepliesCalm(v, a.call.to, term, a.reply.append, 0, InstallSnapshotReply(0), v.currentTerm);
      }
    case HearInstall(a) =>
      var v, args := c.nodes[a.call.from], a.call.request.install;
      if a.call.from in inside {
        AnswerBound(c, a, bound);
        RepliesCalm(v, a.call.to, args.term, AppendEntriesReply(0, false, 0), args.lastIncludedIndex, a.reply.install,
                    bound);
      } else {
        RepliesCalm(v, a.call.to, args.term, AppendEntriesReply(0, false, 0), args.lastIncludedIndex, a.reply.install,
                    v.currentTerm);
      }
  }

  lemma LocalStepCalm(c: Cluster, step: Step, inside: set<NodeId>, bound: nat)
    requires Cut(c, inside, bound) && Enabled(c, step)
    requires step.Heartbeat? || step.ProposeEntry? || step.Compaction? || step.Deliver? || step.CountPreVote?
    ensures AllCalm(c, After(c, step), inside, bound)
    ensures After(c, step).elections == c.elections && After(c, step).loops == c.loops
    ensures !step.CountPreVote? ==> After(c, step).polls == c.polls
  {
    hide Sent, Extended, CutAt, Deliveries, Broadcast;
  }

  lemma CalmStepKeepsCut(c: Cluster, c': Cluster, inside: set<NodeId>, bound: nat)
    requires Cut(c, inside, bound) && AllCalm(c, c', inside, bound)
    requires c'.elections == c.elections && c'.loops == c.loops && c'.polls == c.polls
    ensures Cut(c', inside, bound)
  {
    forall n | n in inside
      ensures CountsInside(c', inside, n) && c'.nodes[n].currentTerm <= bound
    {
      assert CountsInside(c, inside, n) && Calm(c.nodes[n], c'.nodes[n], bound);
    }
  }

  lemma CountKeepsCut(c: Cluster, s: Slot, p: NodeId, inside: set<NodeId>, bound: nat)
    requires Cut(c, inside, bound) && s in c.polls && p in c.polls[s].due
    ensures Cut(CountedPreVote(c, s, p), inside, bound)
  {
    var c' := CountedPreVote(c, s, p);
    forall n | n in inside
      ensures CountsInside(c', inside, n) && c'.nodes[n].currentTerm <= bound
    {
      assert CountsInside(c, inside, n);
    }
  }

  /** An insider's timer opens a poll of its own; an outsider's does not touch the inside. */
  lemma StartKeepsCut(c: Cluster, n: NodeId, inside: set<NodeId>, bound: nat)
    requires SystemInv(c) && Cut(c, inside, bound) && Enabled(c, StartPreVote(n)) && |inside| <= |c.ledger.ids| / 2
    ensures Cut(StartedPreVote(c, n), inside, bound) && AllCalm(c, StartedPreVote(c, n), inside, bound)
  {
    hide SystemInv, Cut, AllCalm, StartedPreVote, OnlyOutside;
    if n in inside {
      ShortOfQuorum(c, inside, n, {});
      PollKeepsCut(c, n, inside, bound);
    } else {
      StartedOutside(c, n, inside);
      OutsideKeepsCut(c, StartedPreVote(c, n), inside, bound);
    }
  }

  /** An insider's poll opens with nobody counted. */
  lemma PollKeepsCut(c: Cluster, n: NodeId, inside: set<NodeId>, bound: nat)
    requires Cut(c, inside, bound) && Known(c, n) && n in inside && 1 < c.nodes[n].Quorum()
    ensures Cut(StartedPreVote(c, n), inside, bound) && AllCalm(c, StartedPreVote(c, n), inside, bound)
  {
    hide Canvass;
    var c' := StartedPreVote(c, n);
    forall m | m in inside
      ensures CountsInside(c', inside, m) && c'.nodes[m].currentTerm <= bound && Calm(c.nodes[m], c'.nodes[m], bound)
    {
      assert CountsInside(c, inside, m);
    }
  }

  lemma StartedOutside(c: Cluster, n: NodeId, inside: set<NodeId>)
    requires Known(c, n) && n !in inside
    ensures OnlyOutside(c, StartedPreVote(c, n), inside)
  {
    hide Campaign, Canvass;
    CampaignOutside(c, n, inside);
  }

  /** Nothing of an insider's has changed. */
  ghost predicate OnlyOutside(c: Cluster, c': Cluster, inside: set<NodeId>) {
    && (forall m :: m in inside && m in c.nodes ==> m in c'.nodes && c'.nodes[m] == c.nodes[m])
    && (forall m :: m in inside && m in c.loops ==> m in c'.loops && c'.loops[m] == c.loops[m])
    && (forall s :: s in c'.polls && s.node in inside ==> s in c.polls && c'.polls[s] == c.polls[s])
    && (forall s :: s in c'.elections && s.node in inside ==> s in c.elections && c'.elections[s] == c.elections[s])
  }

  lemma CampaignOutside(c: Cluster, n: NodeId, inside: set<NodeId>)
    requires Known(c, n) && n !in inside
    ensures OnlyOutside(c, Campaign(c, n), inside)
  {
    hide Broadcast, Sent, Canvass, Nominated, Won;
  }

  /** A minority's poll never reaches the quorum, so its election never starts. */
  lemma FinishKeepsCut(c: Cluster, n: NodeId, inside: set<NodeId>, bound: nat)
    requires SystemInv(c) && PollsOk(c) && Cut(c, inside, bound) && Enabled(c, FinishPreVote(n))
    requires |inside| <= |c.ledger.ids| / 2
    ensures Cut(FinishedPreVote(c, n), inside, bound) && AllCalm(c, FinishedPreVote(c, n), inside, bound)
  {
    hide SystemInv, PollsOk, Cut, AllCalm, FinishedPreVote, OnlyOutside;
    if n in inside {
      FinishedInside(c, n, inside, bound);
      LoopsKeepCut(c, n, inside, bound);
    } else {
      FinishedOutside(c, n, inside);
      OutsideKeepsCut(c, FinishedPreVote(c, n), inside, bound);
    }
  }

  /** A minority's poll falls short: all that changes is that its node waits again. */
  lemma FinishedInside(c: Cluster, n: NodeId, inside: set<NodeId>, bound: nat)
    requires SystemInv(c) && PollsOk(c) && Cut(c, inside, bound) && Enabled(c, FinishPreVote(n))
    requires |inside| <= |c.ledger.ids| / 2 && n in inside
    ensures n in c.loops && FinishedPreVote(c, n) == c.(loops := c.loops[n := Waiting])
  {
    hide SystemInv, Campaign;
    assert CountsInside(c, inside, n);
    ShortOfQuorum(c, inside, n, c.polls[Slot(n, c.loops[n].round)].granted);
  }

  lemma LoopsKeepCut(c: Cluster, n: NodeId, inside: set<NodeId>, bound: nat)
    requires Cut(c, inside, bound)
    ensures var c' := c.(loops := c.loops[n := Waiting]); Cut(c', inside, bound) && AllCalm(c, c', inside, bound)
  {
    var c' := c.(loops := c.loops[n := Waiting]);
    forall m | m in inside
      ensures CountsInside(c', inside, m) && m in c.nodes && Calm(c.nodes[m], c.nodes[m], bound)
    {
      assert CountsInside(c, inside, m);
    }
  }

  lemma FinishedOutside(c: Cluster, n: NodeId, inside: set<NodeId>)
    requires Enabled(c, FinishPreVote(n)) && n !in inside
    ensures OnlyOutside(c, FinishedPreVote(c, n), inside)
  {
    hide Campaign;
    CampaignOutside(c.(loops := c.loops[n := Waiting]), n, inside);
  }

  /** Whatever an outsider does to itself. */
  lemma OutsideKeepsCut(c: Cluster, c': Cluster, inside: set<NodeId>, bound: nat)
    requires Cut(c, inside, bound) && OnlyOutside(c, c', inside)
    ensures Cut(c', inside, bound) && AllCalm(c, c', inside, bound)
  {
    forall m | m in inside
      ensures CountsInside(c', inside, m) && m in c.nodes && m in c'.nodes && Calm(c.nodes[m], c'.nodes[m], bound)
    {
      assert CountsInside(c, inside, m);
    }
  }

  lemma HearPreVoteKeepsCut(c: Cluster, a: Answer, inside: set<NodeId>, bound: nat)
    requires SystemInv(c) && Cut(c, inside, bound) && Enabled(c, HearPreVote(a)) && Within(inside, HearPreVote(a))
    ensures Cut(HeardPreVote(c, a), inside, bound) && AllCalm(c, HeardPreVote(c, a), inside, bound)
  {
    hide SystemInv, Raised;
    var c' := HeardPreVote(c, a);
    if a.call.from in inside { AnswerBound(c, a, bound); }
    forall m | m in inside
      ensures CountsInside(c', inside, m) && c'.nodes[m].currentTerm <= bound && Calm(c.nodes[m], c'.nodes[m], bound)
    {
      assert CountsInside(c, inside, m);
    }
  }

  /** A minority candidate never completes a quorum. */
  lemma HearVoteKeepsCut(c: Cluster, a: Answer, inside: set<NodeId>, bound: nat)
    requires SystemInv(c) && Cut(c, inside, bound) && Enabled(c, HearVote(a)) && Within(inside, HearVote(a))
    requires |inside| <= |c.ledger.ids| / 2
    ensures Cut(HeardVote(c, a), inside, bound) && AllCalm(c, HeardVote(c, a), inside, bound)
  {
    hide SystemInv, Cut, AllCalm, HeardVote, Within, OnlyOutside;
    if a.call.from in inside {
      HeardInside(c, a, inside, bound);
    } else {
      HeardOutside(c, a, inside);
      OutsideKeepsCut(c, HeardVote(c, a), inside, bound);
    }
  }

  lemma HeardOutside(c: Cluster, a: Answer, inside: set<NodeId>)
    requires Enabled(c, HearVote(a)) && a.call.from !in inside
    ensures OnlyOutside(c, HeardVote(c, a), inside)
  {
    hide Raised, Broadcast, Sent, Won, Lead;
    LeadKeepsId(c.nodes[a.call.from]);
  }

  /** A vote heard inside makes no leader. */
  lemma HeardInside(c: Cluster, a: Answer, inside: set<NodeId>, bound: nat)
    requires SystemInv(c) && Cut(c, inside, bound) && Enabled(c, HearVote(a)) && Within(inside, HearVote(a))
    requires |inside| <= |c.ledger.ids| / 2 && a.call.from in inside
    ensures Cut(HeardVote(c, a), inside, bound) && AllCalm(c, HeardVote(c, a), inside, bound)
  {
    hide SystemInv, Raised, BecomeLeader, AnswerOk;
    var n := a.call.from;
    var c' := HeardVote(c, a);
    AnswerBound(c, a, bound);
    if c.nodes[n].role == Candidate && c.nodes[n].currentTerm == a.call.request.vote.term && a.reply.vote.voteGranted {
      InsideVotesFall(c, a, inside, bound);
    }
    forall m | m in inside
      ensures CountsInside(c', inside, m) && c'.nodes[m].currentTerm <= bound && Calm(c.nodes[m], c'.nodes[m], bound)
    {
      assert CountsInside(c, inside, m);
    }
  }

  lemma InsideVotesFall(c: Cluster, a: Answer, inside: set<NodeId>, bound: nat)
    requires SystemInv(c) && Cut(c, inside, bound) && Enabled(c, HearVote(a)) && Within(inside, HearVote(a))
    requires |inside| <= |c.ledger.ids| / 2 && a.call.from in inside
    requires c.nodes[a.call.from].role == Candidate && c.nodes[a.call.from].currentTerm == a.call.request.vote.term
    requires a.reply.vote.voteGranted
    ensures c.elections[Slot(a.call.from, a.call.request.vote.term)].votes + 1 < c.nodes[a.call.from].Quorum()
  {
    hide SystemInv, AnswerOk;
    var n := a.call.from;
    var s := Slot(n, a.call.request.vote.term);
    assert CountsInside(c, inside, n);
    TallyOf(c, s);
    FromIsNotTo(c, a);
    ShortOfQuorum(c, inside, n, c.elections[s].granted + {a.call.to});
  }

  lemma LeadKeepsId(v: Node)
    requires |v.log| > 0
    ensures Lead(v).id == v.id
  {
  }

  lemma TallyOf(c: Cluster, s: Slot)
    requires SystemInv(c) && s in c.elections
    ensures TallyOk(c.ledger, s, c.elections[s])
  {
    assert ElectionHolds(c, s);
  }

  lemma StepKeepsCut(c: Cluster, step: Step, inside: set<NodeId>, bound: nat)
    requires SystemInv(c) && PollsOk(c) && Cut(c, inside, bound) && Enabled(c, step) && Within(inside, step)
    requires |inside| <= |c.ledger.ids| / 2
    ensures Cut(After(c, step), inside, bound) && AllCalm(c, After(c, step), inside, bound)
  {
    hide SystemInv, PollsOk, Cut, AllCalm;
    match step
    case StartPreVote(n) => StartKeepsCut(c, n, inside, bound);
    case HearPreVote(a) => HearPreVoteKeepsCut(c, a, inside, bound);
    case CountPreVote(n, round, p) =>
      LocalStepCalm(c, step, inside, bound);
      CountKeepsCut(c, Slot(n, round), p, inside, bound);
    case FinishPreVote(n) => FinishKeepsCut(c, n, inside, bound);
    case HearVote(a) => HearVoteKeepsCut(c, a, inside, bound);
    case AnswerVote(_, _) =>
      MessageStepCalm(c, step, inside, bound);
      CalmStepKeepsCut(c, After(c, step), inside, bound);
    case AnswerAppend(_) =>
      MessageStepCalm(c, step, inside, bound);
      CalmStepKeepsCut(c, After(c, step), inside, bound);
    case HearAppend(_) =>
      MessageStepCalm(c, step, inside, bound);
      CalmStepKeepsCut(c, After(c, step), inside, bound);
    case AnswerInstall(_) =>
      MessageStepCalm(c, step, inside, bound);
      CalmStepKeepsCut(c, After(c, step), inside, bound);
    case HearInstall(_) =>
      MessageStepCalm(c, step, inside, bound);
      CalmStepKeepsCut(c, After(c, step), inside, bound);
    case Heartbeat(_) =>
      LocalStepCalm(c, step, inside, bound);
      CalmStepKeepsCut(c, After(c, step), inside, bound);
    case ProposeEntry(_, _) =>
      LocalStepCalm(c, step, inside, bound);
      CalmStepKeepsCut(c, After(c, step), inside, bound);
    case Compaction(_, _, _) =>
      LocalStepCalm(c, step, inside, bound);
      CalmStepKeepsCut(c, After(c, step), inside, bound);
    case Deliver(_) =>
      LocalStepCalm(c, step, inside, bound);
      CalmStepKeepsCut(c, After(c, step), inside, bound);
  }

  /** Fewer than a quorum of nodes, cut off from state i on with no outsider already counted: no member's term ever
      passes the largest term among them at the cut, and whoever leads later already led that same term at the cut. */
  lemma {:induction false} MinorityStaysCalm(cs: seq<Cluster>, i: nat, j: nat, inside: set<NodeId>, bound: nat,
                                             n: NodeId)
    requires Run(cs) && i <= j < |cs|
    requires |inside| <= |cs[i].ledger.ids| / 2 && n in inside
    requires Cut(cs[i], inside, bound)
    requires forall k {:trigger NextWithin(cs[k], cs[k + 1], inside)} :: i <= k < j ==>
      NextWithin(cs[k], cs[k + 1], inside)
    ensures Cut(cs[j], inside, bound)
    ensures n in cs[i].nodes && n in cs[j].nodes && cs[j].nodes[n].currentTerm <= bound
    ensures cs[j].nodes[n].role == Leader ==>
      cs[i].nodes[n].role == Leader && cs[i].nodes[n].currentTerm == cs[j].nodes[n].currentTerm
    decreases j
  {
    hide SystemInv, PollsOk, After, Enabled, Within;
    assert CountsInside(cs[i], inside, n);
    if i < j {
      var k := j - 1;
      MinorityStaysCalm(cs, i, k, inside, bound, n);
      RunHolds(cs, k);
      RunPolls(cs, k);
      RunIds(cs, i, k);
      assert NextWithin(cs[k], cs[k + 1], inside);
      var step :| Enabled(cs[k], step) && Within(inside, step) && cs[j] == After(cs[k], step);
      StepKeepsCut(cs[k], step, inside, bound);
    }
  }

  lemma RunIds(cs: seq<Cluster>, i: nat, j: nat)
    requires Run(cs) && i <= j < |cs|
    ensures cs[j].ledger.ids == cs[i].ledger.ids
  {
    RunGrows(cs, i, j);
  }
}
