/** The history behind a cluster, and the safety argument of sections 5.2 to 5.4 of the Raft paper on it. */
module RaftLedger {
  import opened RaftTypes

  datatype Slot = Slot(node: NodeId, term: nat)

  /** A node's term and uncompacted log. */
  datatype Member = Member(term: nat, log: Log)

  /** A real vote: for whom, and the voter's log when it was cast. */
  datatype Ballot = Ballot(candidate: NodeId, log: Log)

  /** A term that was won: by whom, on whose votes, with which log, and that leader's log since. */
  datatype Mandate = Mandate(leader: NodeId, voters: set<NodeId>, base: Log, log: Log)

  /** Every node's uncompacted log, every ballot cast, every term won and every acknowledgement given: plain sequences,
      away from compaction, messages and index maps. */
  datatype Ledger = Ledger(
    ids: set<NodeId>,
    members: map<NodeId, Member>,
    candidacies: map<Slot, Log>,
    ballots: map<Slot, Ballot>,
    elected: map<nat, Mandate>,
    acked: map<Slot, nat>
  )

  ghost predicate Traced(elected: map<nat, Mandate>, log: Log) {
    forall i :: 0 < i < |log| ==> log[i].term in elected && Agree(log, elected[log[i].term].log, i)
  }

  // ----- invariants -------------------------------------------------------

  ghost predicate MemberOk(l: Ledger, n: NodeId) {
    n in l.members && Shaped(l.members[n].log, l.members[n].term) && Traced(l.elected, l.members[n].log)
  }

  ghost predicate CandidacyOk(l: Ledger, s: Slot) {
    && s in l.candidacies
    && s.node in l.members && 0 < s.term <= l.members[s.node].term
    && Shaped(l.candidacies[s], s.term - 1) && Traced(l.elected, l.candidacies[s])
  }

  ghost predicate BallotOk(l: Ledger, s: Slot) {
    && s in l.ballots
    && s.node in l.members && s.term <= l.members[s.node].term
    && Shaped(l.ballots[s].log, s.term) && Traced(l.elected, l.ballots[s].log)
    && var c := Slot(l.ballots[s].candidate, s.term);
       c in l.candidacies && |l.candidacies[c]| > 0 && UpToDate(l.candidacies[c], l.ballots[s].log)
  }

  ghost predicate VotedFor(l: Ledger, voters: set<NodeId>, t: nat, c: NodeId) {
    forall v :: v in voters ==> Slot(v, t) in l.ballots && l.ballots[Slot(v, t)].candidate == c
  }

  ghost predicate MandateOk(l: Ledger, t: nat) {
    && t in l.elected
    && var m := l.elected[t];
       && 0 < t
       && m.leader in l.members && Slot(m.leader, t) in l.candidacies && l.candidacies[Slot(m.leader, t)] == m.base
       && Shaped(m.log, t) && Traced(l.elected, m.log)
       && |m.base| > 0 && Agree(m.log, m.base, |m.base| - 1)
       && Majority(m.voters, l.ids) && VotedFor(l, m.voters, t, m.leader)
       // while the leader's term lasts, its own log is the log of the term
       && (l.members[m.leader].term == t ==> l.members[m.leader].log == m.log)
  }

  /** Some term strictly between t and hi was won on a log that departs from term t's log at or before i. */
  ghost predicate Broken(elected: map<nat, Mandate>, t: nat, i: nat, hi: nat)
    requires t in elected
  {
    exists u :: u in elected && t < u < hi && !Agree(elected[u].base, elected[t].log, i)
  }

  /** The log still holds what was acknowledged to term t up to i, unless a later term below hi broke it. */
  ghost predicate Kept(elected: map<nat, Mandate>, log: Log, t: nat, i: nat, hi: nat)
    requires t in elected
  {
    Agree(log, elected[t].log, i) || Broken(elected, t, i, hi)
  }

  ghost predicate KeptUpTo(elected: map<nat, Mandate>, log: Log, t: nat, m: nat, hi: nat)
    requires t in elected
  {
    forall i: nat {:trigger Kept(elected, log, t, i, hi)} :: i <= m ==> Kept(elected, log, t, i, hi)
  }

  /** An acknowledgement to term s.term never exceeds that term's log, and is kept. */
  ghost predicate AckOk(l: Ledger, s: Slot) {
    && s in l.acked && s.node in l.members && s.term <= l.members[s.node].term
    && s.term in l.elected && l.acked[s] < |l.elected[s.term].log|
    && KeptUpTo(l.elected, l.members[s.node].log, s.term, l.acked[s], l.members[s.node].term + 1)
  }

  /** A ballot may have counted towards an election: its term is unwon, or it is among the winning voters. */
  ghost predicate Countable(l: Ledger, u: Slot) {
    u.term in l.elected ==> u.node in l.elected[u.term].voters
  }

  /** What n acknowledged to term t was still in its log when it cast its countable ballot of term u. */
  ghost predicate BallotKeeps(l: Ledger, n: NodeId, t: nat, u: nat) {
    Slot(n, t) in l.acked && Slot(n, u) in l.ballots && t < u && Countable(l, Slot(n, u)) ==>
      t in l.elected && KeptUpTo(l.elected, l.ballots[Slot(n, u)].log, t, l.acked[Slot(n, t)], u)
  }

  ghost predicate Inv(l: Ledger) {
    && l.members.Keys == l.ids
    && (forall n {:trigger MemberOk(l, n)} :: n in l.ids ==> MemberOk(l, n))
    && (forall s {:trigger CandidacyOk(l, s)} :: s in l.candidacies ==> CandidacyOk(l, s))
    && (forall s {:trigger BallotOk(l, s)} :: s in l.ballots ==> BallotOk(l, s))
    && (forall t {:trigger MandateOk(l, t)} :: t in l.elected ==> MandateOk(l, t))
    && (forall s {:trigger AckOk(l, s)} :: s in l.acked ==> AckOk(l, s))
    && (forall n, t, u {:trigger BallotKeeps(l, n, t, u)} :: BallotKeeps(l, n, t, u))
  }

  // ----- consequences -----------------------------------------------------

  /** Log Matching (section 5.3): equal terms at a position mean equal logs up to it. */
  lemma LogMatching(elected: map<nat, Mandate>, a: Log, b: Log, i: nat)
    requires Traced(elected, a) && Traced(elected, b)
    requires 0 < i < |a| && i < |b| && a[i].term == b[i].term
    ensures Agree(a, b, i)
  {
    assert Agree(a, elected[a[i].term].log, i);
    assert Agree(b, elected[b[i].term].log, i);
  }

  ghost predicate AckQuorum(l: Ledger, q: set<NodeId>, t: nat, i: nat) {
    Majority(q, l.ids) && forall n :: n in q ==> Slot(n, t) in l.acked && l.acked[Slot(n, t)] >= i
  }

  /** The commit rule (section 5.4.2): a current-term entry acknowledged by a majority to that term's leader. */
  ghost predicate Committed(l: Ledger, t: nat, i: nat) {
    && t in l.elected && i < |l.elected[t].log| && l.elected[t].log[i].term == t
    && exists q :: AckQuorum(l, q, t, i)
  }

  /** Every term won strictly between t and u extends term t's log through i. */
  ghost predicate Inherited(elected: map<nat, Mandate>, t: nat, i: nat, u: nat)
    requires t in elected
  {
    forall w :: w in elected && t < w < u ==>
      Shaped(elected[w].log, w) && Agree(elected[w].base, elected[t].log, i) && Agree(elected[w].log, elected[t].log, i)
  }

  /** A candidate log at least as up-to-date as one that holds entry i of term t holds it too. */
  lemma UpToDateInherits(elected: map<nat, Mandate>, t: nat, i: nat, c: Log, v: Log, u: nat)
    requires t in elected && t < u
    requires Shaped(elected[t].log, t) && i < |elected[t].log| && elected[t].log[i].term == t
    requires Shaped(c, u - 1) && Traced(elected, c)
    requires Shaped(v, u) && Traced(elected, v)
    requires Agree(v, elected[t].log, i)
    requires UpToDate(c, v)
    requires Inherited(elected, t, i, u)
    ensures Agree(c, elected[t].log, i)
  {
    if i == 0 {
      assert c[0] == v[0];
    } else {
      var s := LastTerm(c);
      assert v[i].term == t;
      assert s >= LastTerm(v) >= t > 0;
      assert |c| > 1;
      assert Agree(c, elected[s].log, |c| - 1);
      if s == LastTerm(v) {
        assert |v| > 1;
        assert Agree(v, elected[s].log, |v| - 1);
      } else {
        assert t < s < u;
        assert elected[s].log[|c| - 1].term == s;
        assert |c| > i;
      }
    }
  }

  /** What a winning voter's ballot says about the log the term was won on. */
  lemma WinningBallot(l: Ledger, u: nat, n: NodeId)
    requires Inv(l) && u in l.elected && n in l.elected[u].voters
    ensures u > 0 && Slot(n, u) in l.ballots && Countable(l, Slot(n, u))
    ensures Shaped(l.elected[u].base, u - 1) && Traced(l.elected, l.elected[u].base)
    ensures Shaped(l.ballots[Slot(n, u)].log, u) && Traced(l.elected, l.ballots[Slot(n, u)].log)
    ensures UpToDate(l.elected[u].base, l.ballots[Slot(n, u)].log)
  {
    assert MandateOk(l, u);
    assert CandidacyOk(l, Slot(l.elected[u].leader, u));
    assert BallotOk(l, Slot(n, u));
  }

  lemma CompletenessStep(l: Ledger, t: nat, i: nat, u: nat, q: set<NodeId>)
    requires Inv(l) && u in l.elected && t < u
    requires t in l.elected && i < |l.elected[t].log| && l.elected[t].log[i].term == t
    requires AckQuorum(l, q, t, i)
    requires Inherited(l.elected, t, i, u)
    ensures Agree(l.elected[u].base, l.elected[t].log, i)
  {
    assert MandateOk(l, u) && MandateOk(l, t);
    var n := MajoritiesMeet(q, l.elected[u].voters, l.ids);
    WinningBallot(l, u, n);
    assert BallotKeeps(l, n, t, u);
    assert Kept(l.elected, l.ballots[Slot(n, u)].log, t, i, u);
    assert Agree(l.ballots[Slot(n, u)].log, l.elected[t].log, i);
    UpToDateInherits(l.elected, t, i, l.elected[u].base, l.ballots[Slot(n, u)].log, u);
  }

  /** Leader Completeness (section 5.4.3): whatever term t committed is in the log every later term was won on. */
  lemma {:induction false} LeaderCompleteness(l: Ledger, t: nat, i: nat, u: nat)
    requires Inv(l) && Committed(l, t, i) && u in l.elected && t < u
    ensures Agree(l.elected[u].base, l.elected[t].log, i)
    ensures Agree(l.elected[u].log, l.elected[t].log, i)
    decreases u
  {
    var q :| AckQuorum(l, q, t, i);
    forall w | w in l.elected && t < w < u
      ensures Agree(l.elected[w].base, l.elected[t].log, i)
      ensures Shaped(l.elected[w].log, w) && Agree(l.elected[w].log, l.elected[t].log, i)
    {
      LeaderCompleteness(l, t, i, w);
      assert MandateOk(l, w);
    }
    CompletenessStep(l, t, i, u, q);
    assert MandateOk(l, u);
  }

  /** Election Safety (section 5.2): one vote a term and meeting majorities leave a term at most one winner. */
  lemma ElectionSafety(l: Ledger, t: nat, n: NodeId, voters: set<NodeId>)
    requires Inv(l) && t in l.elected
    requires Majority(voters, l.ids) && VotedFor(l, voters, t, n)
    ensures l.elected[t].leader == n
  {
    assert MandateOk(l, t);
    var v := MajoritiesMeet(voters, l.elected[t].voters, l.ids);
    assert l.ballots[Slot(v, t)].candidate == n;
  }

  /** Entry i of term t is committed and vouches for the log up to c. */
  ghost predicate Vouches(l: Ledger, log: Log, c: nat, t: nat, i: nat) {
    Committed(l, t, i) && c <= i && Agree(log, l.elected[t].log, c)
  }

  /** The log is committed up to c, by a term no later than hi. */
  ghost predicate Safe(l: Ledger, log: Log, c: nat, hi: nat) {
    && c < |log| && log[0] == ORIGIN
    && (c == 0 || exists t: nat, i: nat :: t <= hi && Vouches(l, log, c, t, i))
  }

  lemma SafeElsewhere(l: Ledger, log: Log, other: Log, c: nat, d: nat, hi: nat, hi': nat)
    requires Safe(l, log, c, hi) && Agree(log, other, d) && d <= c && hi <= hi'
    ensures Safe(l, other, d, hi')
  {
    if d > 0 {
      var t: nat, i: nat :| t <= hi && Vouches(l, log, c, t, i);
      assert Vouches(l, other, d, t, i);
    }
  }

  /** A leader's log holds everything committed by its own or an earlier term. */
  lemma SafeInLeader(l: Ledger, log: Log, c: nat, hi: nat, u: nat)
    requires Inv(l) && Safe(l, log, c, hi) && u in l.elected && hi <= u
    ensures Agree(log, l.elected[u].log, c)
  {
    assert MandateOk(l, u);
    if c > 0 {
      var t: nat, i: nat :| t <= hi && Vouches(l, log, c, t, i);
      if t < u {
        LeaderCompleteness(l, t, i, u);
      }
    }
  }

  /** Two logs committed up to a and b agree up to the smaller of the two. */
  lemma CommittedLogsAgree(l: Ledger, x: Log, a: nat, hx: nat, y: Log, b: nat, hy: nat)
    requires Inv(l) && Safe(l, x, a, hx) && Safe(l, y, b, hy)
    ensures Agree(x, y, if a <= b then a else b)
  {
    if a > 0 && b > 0 {
      var t: nat, i: nat :| t <= hx && Vouches(l, x, a, t, i);
      var u: nat, j: nat :| u <= hy && Vouches(l, y, b, u, j);
      if t <= u {
        assert Safe(l, x, a, t);
        SafeInLeader(l, x, a, t, u);
      } else {
        assert Safe(l, y, b, u);
        SafeInLeader(l, y, b, u, t);
      }
    }
  }
}
