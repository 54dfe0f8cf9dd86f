/** A cluster of engines over an unreliable network, moving one lock-held region at a time. */
module RaftCluster {
  import opened RaftTypes
  import opened RaftLedger
  import opened RaftLedgerActions
  import opened RaftHandlers

  datatype Request =
    | Vote(vote: RequestVoteArgs)
    | Append(append: AppendEntriesArgs)
    | Install(install: InstallSnapshotArgs)

  /** A remote call: the goroutine's target, its poll number for a pre-vote, and the arguments it captured. */
  datatype Call = Call(from: NodeId, to: NodeId, round: nat, request: Request)

  datatype Reply =
    | Voted(vote: RequestVoteReply)
    | Appended(append: AppendEntriesReply)
    | Installed(install: InstallSnapshotReply)

  datatype Answer = Answer(call: Call, reply: Reply)

  /** The locals one election's goroutines share: the integer tally, and whose answers were read. granted is the ghost
      set of peers behind the tally. */
  datatype Tally = Tally(votes: nat, heard: set<NodeId>, granted: set<NodeId>)

  /** The same for a pre-vote poll, whose increments happen outside the node's lock: due are grants not yet counted. */
  datatype Poll = Poll(votes: nat, heard: set<NodeId>, due: set<NodeId>, granted: set<NodeId>)

  /** Where a node's election loop stands: waiting for its timer, or for the answers to a poll. */
  datatype Loop = Waiting | Polling(round: nat)

  /** A call or an answer once sent may be delivered at any later time, in any order, or never; a call may also reach
      its handler twice, but its caller reads at most one answer to each vote. The ledger is history: no step's guard
      reads it. */
  datatype Cluster = Cluster(
    nodes: map<NodeId, Node>,
    calls: set<Call>,
    answers: set<Answer>,
    elections: map<Slot, Tally>,
    polls: map<Slot, Poll>,
    loops: map<NodeId, Loop>,
    rounds: map<NodeId, nat>,
    delivered: map<NodeId, Log>,
    skipped: map<NodeId, set<nat>>,
    ledger: Ledger)

  datatype Step =
    | StartPreVote(n: NodeId)
    | HearPreVote(a: Answer)
    | CountPreVote(n: NodeId, round: nat, p: NodeId)
    | FinishPreVote(n: NodeId)
    | AnswerVote(call: Call, heardLately: bool)
    | HearVote(a: Answer)
    | Heartbeat(n: NodeId)
    | AnswerAppend(call: Call)
    | HearAppend(a: Answer)
    | AnswerInstall(call: Call)
    | HearInstall(a: Answer)
    | ProposeEntry(n: NodeId, payload: Payload)
    | Compaction(n: NodeId, idx: nat, data: State)
    | Deliver(n: NodeId)

  // ----- configuration and start ------------------------------------------

  ghost predicate PeersOk(peers: seq<NodeId>, n: NodeId, ids: set<NodeId>) {
    && (forall i, j :: 0 <= i < j < |peers| ==> peers[i] != peers[j])
    && (set p | p in peers) == ids - {n}
  }

  ghost predicate Init(c: Cluster) {
    && NOBODY !in c.ledger.ids
    && c.nodes.Keys == c.loops.Keys == c.rounds.Keys == c.delivered.Keys == c.skipped.Keys == c.ledger.ids
    && (forall n :: n in c.nodes ==>
         PeersOk(c.nodes[n].peers, n, c.ledger.ids) && c.nodes[n] == Fresh(n, c.nodes[n].peers))
    && (forall n :: n in c.nodes ==>
         c.loops[n] == Waiting && c.rounds[n] == 0 && c.delivered[n] == [] && c.skipped[n] == {})
    && c.calls == {} && c.answers == {} && c.elections == map[] && c.polls == map[]
    && c.ledger == Ledger(c.ledger.ids, map n | n in c.ledger.ids :: Member(0, [ORIGIN]), map[], map[], map[], map[])
  }

  // ----- sending ----------------------------------------------------------

  function Calling(n: NodeId, o: Outgoing): Call {
    match o
    case Entries(to, args) => Call(n, to, 0, Append(args))
    case Snapshot(to, args) => Call(n, to, 0, Install(args))
  }

  ghost function Sent(n: NodeId, out: seq<Outgoing>): set<Call> {
    set o | o in out :: Calling(n, o)
  }

  ghost function Canvass(v: Node, round: nat, args: RequestVoteArgs): set<Call> {
    set p | p in v.peers :: Call(v.id, p, round, Vote(args))
  }

  /** One node moves to v, sending calls and answers, with l the new history. */
  ghost function Moved(c: Cluster, v: Node, calls: set<Call>, answers: set<Answer>, l: Ledger): Cluster {
    c.(nodes := c.nodes[v.id := v], calls := c.calls + calls, answers := c.answers + answers, ledger := l)
  }

  // What each step adds to the history. Total, so that no guard depends on the history; the cluster invariant shows
  // that the conditions hold whenever a step gets here.

  ghost function Raised(l: Ledger, n: NodeId, t: nat): Ledger {
    if n in l.members && t > l.members[n].term then Raise(l, n, t) else l
  }

  ghost function Nominated(l: Ledger, n: NodeId): Ledger {
    if n in l.members then
      var r := Raise(l, n, l.members[n].term + 1);
      Cast(Nominate(r, n), n, n)
    else l
  }

  ghost function Balloted(l: Ledger, n: NodeId, candidate: NodeId): Ledger {
    if n in l.members && Slot(n, l.members[n].term) !in l.ballots then Cast(l, n, candidate) else l
  }

  ghost function Won(l: Ledger, n: NodeId, voters: set<NodeId>): Ledger {
    if CanElect(l, n, voters) && |l.members[n].log| > 0 then Elect(l, n, voters) else l
  }

  ghost function Extended(l: Ledger, n: NodeId, e: Entry): Ledger {
    if CanAppend(l, n, e) then RaftLedgerActions.Append(l, n, e) else l
  }

  ghost function Accepted(l: Ledger, n: NodeId, m: nat): Ledger {
    if CanAccept(l, n, m) then Accept(l, n, m) else l
  }

  // ----- steps: elections -------------------------------------------------

  ghost predicate Known(c: Cluster, n: NodeId) {
    && n in c.nodes && c.nodes[n].id == n && c.nodes[n].Valid()
    && n in c.loops && n in c.rounds && n in c.delivered && n in c.skipped
  }

  ghost function BecomeLeader(c: Cluster, v: Node, voters: set<NodeId>, l: Ledger): Cluster
    requires |v.log| > 0
  {
    Moved(c, Lead(v), Sent(v.id, Broadcast(Lead(v))), {}, Won(l, v.id, voters))
  }

  /** startElection: a new term, a self-vote, and either an immediate win or a call to every peer. */
  ghost function Campaign(c: Cluster, n: NodeId): Cluster
    requires Known(c, n)
  {
    var v := Stand(c.nodes[n]);
    var l := Nominated(c.ledger, n);
    var d := c.(elections := c.elections[Slot(n, v.currentTerm) := Tally(1, {}, {})]);
    if 1 >= v.Quorum() then BecomeLeader(d, v, {n}, l)
    else Moved(d, v, Canvass(v, 0, VoteRequest(v)), {}, l)
  }

  /** The election timer fired on a non-leader: open a poll, or stand at once in a cluster of one. */
  ghost function StartedPreVote(c: Cluster, n: NodeId): Cluster
    requires Known(c, n)
  {
    var v := c.nodes[n];
    if 1 >= v.Quorum() then Campaign(c, n)
    else
      var r := c.rounds[n] + 1;
      c.(loops := c.loops[n := Polling(r)], rounds := c.rounds[n := r],
         polls := c.polls[Slot(n, r) := Poll(1, {}, {}, {})],
         calls := c.calls + Canvass(v, r, PreVoteRequest(v)))
  }

  ghost predicate HearsVote(c: Cluster, a: Answer, pre: bool) {
    a in c.answers && a.call.request.Vote? && a.call.request.vote.isPreVote == pre && a.reply.Voted?
    && Known(c, a.call.from)
  }

  /** A pre-vote answer under the lock: adopt a later term, and remember a grant for counting. */
  ghost function HeardPreVote(c: Cluster, a: Answer): Cluster
    requires HearsVote(c, a, true) && Slot(a.call.from, a.call.round) in c.polls
  {
    var n, s := a.call.from, Slot(a.call.from, a.call.round);
    var t := c.polls[s];
    Moved(c, Observe(c.nodes[n], a.reply.vote.term), {}, {}, Raised(c.ledger, n, a.reply.vote.term))
      .(polls := c.polls[s := t.(heard := t.heard + {a.call.to},
                                 due := if a.reply.vote.voteGranted then t.due + {a.call.to} else t.due)])
  }

  ghost function CountedPreVote(c: Cluster, s: Slot, p: NodeId): Cluster
    requires s in c.polls
  {
    var t := c.polls[s];
    c.(polls := c.polls[s := t.(votes := t.votes + 1, due := t.due - {p}, granted := t.granted + {p})])
  }

  /** The poll's wait is over: stand if it reached a quorum and nobody made this node leader meanwhile. */
  ghost function FinishedPreVote(c: Cluster, n: NodeId): Cluster
    requires Known(c, n) && c.loops[n].Polling? && Slot(n, c.loops[n].round) in c.polls
  {
    var v := c.nodes[n];
    var d := c.(loops := c.loops[n := Waiting]);
    if v.role != Leader && c.polls[Slot(n, c.loops[n].round)].votes >= v.Quorum() then Campaign(d, n) else d
  }

  ghost predicate Receives(c: Cluster, call: Call) {
    call in c.calls && Known(c, call.to)
  }

  ghost function AnsweredVote(c: Cluster, call: Call, heardLately: bool): Cluster
    requires Receives(c, call) && call.request.Vote?
  {
    var args := call.request.vote;
    var (v, reply) := OnRequestVote(c.nodes[call.to], args, heardLately);
    var l := if args.isPreVote then c.ledger else Raised(c.ledger, call.to, args.term);
    Moved(c, v, {}, {Answer(call, Voted(reply))},
          if reply.voteGranted && !args.isPreVote then Balloted(l, call.to, args.candidateID) else l)
  }

  ghost function HeardVote(c: Cluster, a: Answer): Cluster
    requires HearsVote(c, a, false) && Slot(a.call.from, a.call.request.vote.term) in c.elections
  {
    var n, reply := a.call.from, a.reply.vote;
    var s := Slot(n, a.call.request.vote.term);
    var v, t := c.nodes[n], c.elections[s].(heard := c.elections[s].heard + {a.call.to});
    if reply.term > v.currentTerm then
      Moved(c, StepDown(v, reply.term), {}, {}, Raised(c.ledger, n, reply.term)).(elections := c.elections[s := t])
    else if v.role == Candidate && v.currentTerm == s.term && reply.voteGranted then
      var t' := t.(votes := t.votes + 1, granted := t.granted + {a.call.to});
      var d := c.(elections := c.elections[s := t']);
      if t'.votes >= v.Quorum() then BecomeLeader(d, v, t'.granted + {n}, c.ledger) else d
    else c.(elections := c.elections[s := t])
  }

  // ----- steps: replication -----------------------------------------------

  ghost function Beaten(c: Cluster, n: NodeId): Cluster
    requires Known(c, n)
  {
    Moved(c, c.nodes[n], Sent(n, Broadcast(c.nodes[n])), {}, c.ledger)
  }

  ghost function AnsweredAppend(c: Cluster, call: Call): Cluster
    requires Receives(c, call) && call.request.Append?
  {
    var args := call.request.append;
    var (v, reply) := OnAppendEntries(c.nodes[call.to], args);
    var l := Raised(c.ledger, call.to, args.term);
    Moved(c, v, {}, {Answer(call, Appended(reply))},
          if reply.success then Accepted(l, call.to, reply.matchIndex) else l)
  }

  ghost function HeardAppend(c: Cluster, a: Answer): Cluster
    requires a in c.answers && a.call.request.Append? && a.reply.Appended? && Known(c, a.call.from)
  {
    var (v, out) := OnAppendReply(c.nodes[a.call.from], a.call.to, a.call.request.append.term, a.reply.append);
    Moved(c, v, Sent(a.call.from, out), {}, Raised(c.ledger, a.call.from, a.reply.append.term))
  }

  function Span(from: nat, to: nat): (s: set<nat>)
    ensures forall i :: i in s <==> from < i <= to
  {
    if to <= from then {} else Span(from, to - 1) + {to}
  }

  /** The indices a snapshot moves lastApplied over. */
  function Jumped(v: Node, v': Node): set<nat> {
    Span(v.lastApplied, v'.lastApplied)
  }

  ghost function AnsweredInstall(c: Cluster, call: Call): Cluster
    requires Receives(c, call) && call.request.Install?
  {
    var n, args := call.to, call.request.install;
    var (v, reply) := OnInstallSnapshot(c.nodes[n], args);
    var l := Raised(c.ledger, n, args.term);
    Moved(c, v, {}, {Answer(call, Installed(reply))},
          if args.term >= c.nodes[n].currentTerm then Accepted(l, n, args.lastIncludedIndex) else l)
      .(skipped := c.skipped[n := c.skipped[n] + Jumped(c.nodes[n], v)])
  }

  ghost function HeardInstall(c: Cluster, a: Answer): Cluster
    requires a in c.answers && a.call.request.Install? && a.reply.Installed? && Known(c, a.call.from)
  {
    var args := a.call.request.install;
    var v := OnInstallReply(c.nodes[a.call.from], a.call.to, args.term, args.lastIncludedIndex, a.reply.install);
    Moved(c, v, {}, {}, Raised(c.ledger, a.call.from, a.reply.install.term))
  }

  ghost function ProposedEntry(c: Cluster, n: NodeId, payload: Payload): Cluster
    requires Known(c, n)
  {
    var v := Proposed(c.nodes[n], payload);
    Moved(c, v, Sent(n, Broadcast(v)), {}, Extended(c.ledger, n, v.log[|v.log| - 1]))
  }

  ghost function Compacted(c: Cluster, n: NodeId, idx: nat, data: State): Cluster
    requires Known(c, n)
  {
    var v := OnTakeSnapshot(c.nodes[n], idx, data);
    Moved(c, v, {}, {}, c.ledger).(skipped := c.skipped[n := c.skipped[n] + Jumped(c.nodes[n], v)])
  }

  ghost function Delivered(c: Cluster, n: NodeId): Cluster
    requires Known(c, n)
  {
    var (v, out) := Applied(c.nodes[n]);
    Moved(c, v, {}, {}, c.ledger).(delivered := c.delivered[n := c.delivered[n] + out])
  }

  // ----- the machine ------------------------------------------------------

  /** The code's own guards; in every reachable cluster the Known conjuncts hold of all nodes. */
  ghost predicate Enabled(c: Cluster, step: Step) {
    match step
    case StartPreVote(n) => Known(c, n) && c.nodes[n].role != Leader && c.loops[n] == Waiting
    case HearPreVote(a) =>
      && HearsVote(c, a, true)
      && Slot(a.call.from, a.call.round) in c.polls && a.call.to !in c.polls[Slot(a.call.from, a.call.round)].heard
    case CountPreVote(n, round, p) => Slot(n, round) in c.polls && p in c.polls[Slot(n, round)].due
    case FinishPreVote(n) => Known(c, n) && c.loops[n].Polling? && Slot(n, c.loops[n].round) in c.polls
    case AnswerVote(call, _) => Receives(c, call) && call.request.Vote?
    case HearVote(a) =>
      && HearsVote(c, a, false)
      && Slot(a.call.from, a.call.request.vote.term) in c.elections
      && a.call.to !in c.elections[Slot(a.call.from, a.call.request.vote.term)].heard
    case Heartbeat(n) => Known(c, n) && c.nodes[n].role == Leader
    case AnswerAppend(call) => Receives(c, call) && call.request.Append?
    case HearAppend(a) => a in c.answers && a.call.request.Append? && a.reply.Appended? && Known(c, a.call.from)
    case AnswerInstall(call) => Receives(c, call) && call.request.Install?
    case HearInstall(a) => a in c.answers && a.call.request.Install? && a.reply.Installed? && Known(c, a.call.from)
    case ProposeEntry(n, _) => Known(c, n) && c.nodes[n].role == Leader
    case Compaction(n, _, _) => Known(c, n)
    case Deliver(n) => Known(c, n)
  }

  ghost function After(c: Cluster, step: Step): Cluster
    requires Enabled(c, step)
  {
    match step
    case StartPreVote(n) => StartedPreVote(c, n)
    case HearPreVote(a) => HeardPreVote(c, a)
    case CountPreVote(n, round, p) => CountedPreVote(c, Slot(n, round), p)
    case FinishPreVote(n) => FinishedPreVote(c, n)
    case AnswerVote(call, heardLately) => AnsweredVote(c, call, heardLately)
    case HearVote(a) => HeardVote(c, a)
    case Heartbeat(n) => Beaten(c, n)
    case AnswerAppend(call) => AnsweredAppend(c, call)
    case HearAppend(a) => HeardAppend(c, a)
    case AnswerInstall(call) => AnsweredInstall(c, call)
    case HearInstall(a) => HeardInstall(c, a)
    case ProposeEntry(n, payload) => ProposedEntry(c, n, payload)
    case Compaction(n, idx, data) => Compacted(c, n, idx, data)
    case Deliver(n) => Delivered(c, n)
  }

  ghost predicate Next(c: Cluster, c': Cluster) {
    exists step :: Enabled(c, step) && c' == After(c, step)
  }

  /** A run: any finite sequence of steps from a fresh cluster. */
  ghost predicate Run(cs: seq<Cluster>) {
    && |cs| > 0 && Init(cs[0])
    && forall i {:trigger Next(cs[i], cs[i + 1])} :: 0 <= i < |cs| - 1 ==> Next(cs[i], cs[i + 1])
  }
}
