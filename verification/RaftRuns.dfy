/** The cluster invariant holds over every step and every run. */
module RaftRuns {
  import opened RaftTypes
  import opened RaftLedger
  import opened RaftLedgerActions
  import opened RaftHandlers
  import opened RaftCompaction
  import opened RaftCluster
  import opened RaftInvariant
  import opened RaftElections
  import opened RaftReplication

  lemma InitHolds(c: Cluster)
    requires Init(c)
    ensures SystemInv(c)
  {
    hide NodeOk, DeliveryOk, Inv;
    BlankLedger(c.ledger);
    forall n | n in c.ledger.ids ensures NodeHolds(c, n) {
      FreshNode(c.ledger, n, c.nodes[n]);
    }
  }

  lemma BlankLedger(l: Ledger)
    requires l == Ledger(l.ids, map n | n in l.ids :: Member(0, [ORIGIN]), map[], map[], map[], map[])
    ensures Inv(l)
  {
    forall n | n in l.ids ensures MemberOk(l, n) { }
  }

  lemma FreshNode(l: Ledger, n: NodeId, v: Node)
    requires n in l.ids && n in l.members && l.members[n] == Member(0, [ORIGIN])
    requires l.ballots == map[] && l.elected == map[] && PeersOk(v.peers, n, l.ids) && v == Fresh(n, v.peers)
    ensures NodeOk(l, n, v) && DeliveryOk(v, l.members[n].log, [], {})
  {
    assert Compact([ORIGIN], 0) == [ORIGIN];
  }

  lemma StepPreserves(c: Cluster, step: Step)
    requires SystemInv(c) && Enabled(c, step)
    ensures SystemInv(After(c, step)) && Grows(c.ledger, After(c, step).ledger)
  {
    hide SystemInv;
    match step
    case StartPreVote(n) => StartPreVotePreserves(c, n);
    case HearPreVote(a) => HearPreVotePreserves(c, a);
    case CountPreVote(n, round, p) => CountPreVotePreserves(c, Slot(n, round), p);
    case FinishPreVote(n) => FinishPreVotePreserves(c, n);
    case AnswerVote(call, heardLately) => AnswerVotePreserves(c, call, heardLately);
    case HearVote(a) => HearVotePreserves(c, a);
    case Heartbeat(n) => HeartbeatPreserves(c, n);
    case AnswerAppend(call) => AnswerAppendPreserves(c, call);
    case HearAppend(a) => HearAppendPreserves(c, a);
    case AnswerInstall(call) => AnswerInstallPreserves(c, call);
    case HearInstall(a) => HearInstallPreserves(c, a);
    case ProposeEntry(n, payload) => ProposePreserves(c, n, payload);
    case Compaction(n, idx, data) => CompactionPreserves(c, n, idx, data);
    case Deliver(n) => DeliverPreserves(c, n);
  }

  /** The invariant holds in every state of every run. */
  lemma {:induction false} RunHolds(cs: seq<Cluster>, i: nat)
    requires Run(cs) && i < |cs|
    ensures SystemInv(cs[i])
  {
    hide SystemInv;
    if i == 0 {
      InitHolds(cs[0]);
    } else {
      var j := i - 1;
      RunHolds(cs, j);
      assert Next(cs[j], cs[j + 1]);
      var step :| Enabled(cs[j], step) && cs[i] == After(cs[j], step);
      StepPreserves(cs[j], step);
    }
  }
}
