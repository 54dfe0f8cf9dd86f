/** The moves a cluster makes on its ledger, each shown to keep the ledger invariant and only to add history: reaching a
    term, standing for it, casting a ballot, winning, appending to the log of one's own term, and taking over that log
    from its leader. The last is where an acknowledgement of an earlier term could be lost, and is shown not to be. */
module RaftLedgerActions {
  import opened RaftTypes
  import opened RaftLedger

  // ----- growth -----------------------------------------------------------

  ghost predicate MandateGrows(m: Mandate, m': Mandate) {
    && m.leader == m'.leader && m.voters == m'.voters && m.base == m'.base
    && |m.log| <= |m'.log| && forall k :: 0 <= k < |m.log| ==> m.log[k] == m'.log[k]
  }

  ghost predicate ElectedGrows(e: map<nat, Mandate>, e': map<nat, Mandate>) {
    forall t {:trigger t in e} {:trigger t in e'} :: t in e ==> t in e' && MandateGrows(e[t], e'[t])
  }

  ghost predicate MembersGrow(l: Ledger, l': Ledger) {
    && l.ids == l'.ids && l.members.Keys == l'.members.Keys
    && forall n :: n in l.members ==> l.members[n].term <= l'.members[n].term
  }

  /** Nothing recorded is ever revoked: ballots and candidacies are final, won terms and acknowledgements
      only extend. */
  ghost predicate Grows(l: Ledger, l': Ledger) {
    && MembersGrow(l, l')
    && (forall s :: s in l.candidacies ==> s in l'.candidacies && l'.candidacies[s] == l.candidacies[s])
    && (forall s :: s in l.ballots ==> s in l'.ballots && l'.ballots[s] == l.ballots[s])
    && ElectedGrows(l.elected, l'.elected)
    && (forall s :: s in l.acked ==> s in l'.acked && l.acked[s] <= l'.acked[s])
  }

  lemma GrowsTransitive(a: Ledger, b: Ledger, c: Ledger)
    requires Grows(a, b) && Grows(b, c)
    ensures Grows(a, c)
  {
    forall t | t in a.elected
      ensures t in c.elected && MandateGrows(a.elected[t], c.elected[t])
    {
      assert t in b.elected;
    }
  }

  lemma TracedGrows(e: map<nat, Mandate>, e': map<nat, Mandate>, log: Log)
    requires ElectedGrows(e, e') && Traced(e, log)
    ensures Traced(e', log)
  {
    forall i | 0 < i < |log|
      ensures log[i].term in e' && Agree(log, e'[log[i].term].log, i)
    {
      assert Agree(log, e[log[i].term].log, i);
    }
  }

  lemma KeptGrows(e: map<nat, Mandate>, e': map<nat, Mandate>, log: Log, t: nat, m: nat, hi: nat, hi': nat)
    requires ElectedGrows(e, e') && t in e && m < |e[t].log| && hi <= hi'
    requires KeptUpTo(e, log, t, m, hi)
    ensures t in e' && KeptUpTo(e', log, t, m, hi')
  {
    forall i: nat | i <= m
      ensures Kept(e', log, t, i, hi')
    {
      assert Kept(e, log, t, i, hi);
      if !Agree(log, e[t].log, i) {
        var u :| u in e && t < u < hi && !Agree(e[u].base, e[t].log, i);
        assert u in e' && !Agree(e'[u].base, e'[t].log, i);
      }
    }
  }

  /** What was committed stays committed. */
  lemma CommittedGrows(l: Ledger, l': Ledger, t: nat, i: nat)
    requires Grows(l, l') && Committed(l, t, i)
    ensures Committed(l', t, i)
  {
    var q :| AckQuorum(l, q, t, i);
    assert AckQuorum(l', q, t, i);
  }

  lemma SafeGrows(l: Ledger, l': Ledger, log: Log, c: nat, hi: nat, hi': nat)
    requires Grows(l, l') && Safe(l, log, c, hi) && hi <= hi'
    ensures Safe(l', log, c, hi')
  {
    if c > 0 {
      var t: nat, i: nat :| t <= hi && Vouches(l, log, c, t, i);
      CommittedGrows(l, l', t, i);
      assert Vouches(l', log, c, t, i);
    }
  }

  // ----- actions ----------------------------------------------------------

  /** A node adopts a later term. */
  ghost function Raise(l: Ledger, n: NodeId, t: nat): Ledger
    requires n in l.members
  {
    l.(members := l.members[n := Member(t, l.members[n].log)])
  }

  /** A node stands for its current term on its current log. */
  ghost function Nominate(l: Ledger, n: NodeId): Ledger
    requires n in l.members
  {
    l.(candidacies := l.candidacies[Slot(n, l.members[n].term) := l.members[n].log])
  }

  /** A node casts its one real vote of its current term. */
  ghost function Cast(l: Ledger, n: NodeId, c: NodeId): Ledger
    requires n in l.members
  {
    l.(ballots := l.ballots[Slot(n, l.members[n].term) := Ballot(c, l.members[n].log)])
  }

  ghost function Ack(acked: map<Slot, nat>, s: Slot, m: nat): map<Slot, nat> {
    acked[s := if s in acked && acked[s] > m then acked[s] else m]
  }

  /** A candidate wins its current term; it holds its own log. */
  ghost function Elect(l: Ledger, n: NodeId, voters: set<NodeId>): Ledger
    requires n in l.members && |l.members[n].log| > 0
  {
    var me := l.members[n];
    l.(elected := l.elected[me.term := Mandate(n, voters, me.log, me.log)],
       acked := Ack(l.acked, Slot(n, me.term), |me.log| - 1))
  }

  /** A leader appends an entry of its own term. */
  ghost function Append(l: Ledger, n: NodeId, e: Entry): Ledger
    requires n in l.members && l.members[n].term in l.elected
  {
    var me := l.members[n];
    l.(members := l.members[n := Member(me.term, me.log + [e])],
       elected := l.elected[me.term := l.elected[me.term].(log := me.log + [e])],
       acked := Ack(l.acked, Slot(n, me.term), |me.log|))
  }

  /** What a log becomes when it takes over the leader's log up to m: unchanged if it already agrees, else that
      prefix. */
  ghost function Adopted(log: Log, leader: Log, m: nat): Log
    requires m < |leader|
  {
    if Agree(log, leader, m) then log else leader[..m + 1]
  }

  /** A node takes over, and acknowledges, its current term's log up to m. */
  ghost function Accept(l: Ledger, n: NodeId, m: nat): Ledger
    requires n in l.members && l.members[n].term in l.elected && m < |l.elected[l.members[n].term].log|
  {
    var me := l.members[n];
    l.(members := l.members[n := Member(me.term, Adopted(me.log, l.elected[me.term].log, m))],
       acked := Ack(l.acked, Slot(n, me.term), m))
  }

  // ----- preservation -----------------------------------------------------

  /** Slots nobody touched keep their invariants when the ledger grows and their member did not move. */
  lemma StableSlots(l: Ledger, l': Ledger, s: Slot)
    requires Inv(l) && Grows(l, l')
    ensures s in l.candidacies ==> CandidacyOk(l', s)
    ensures s in l.ballots ==> BallotOk(l', s)
  {
    if s in l.candidacies {
      assert CandidacyOk(l, s);
      TracedGrows(l.elected, l'.elected, l.candidacies[s]);
    }
    if s in l.ballots {
      assert BallotOk(l, s);
      TracedGrows(l.elected, l'.elected, l.ballots[s].log);
    }
  }

  lemma StableMember(l: Ledger, l': Ledger, n: NodeId)
    requires Inv(l) && Grows(l, l') && n in l.ids
    requires l'.members[n].log == l.members[n].log
    ensures MemberOk(l', n)
  {
    assert MemberOk(l, n);
    TracedGrows(l.elected, l'.elected, l.members[n].log);
  }

  lemma StableMandate(l: Ledger, l': Ledger, t: nat)
    requires Inv(l) && Grows(l, l') && t in l.elected
    requires l'.elected[t].log == l.elected[t].log
    requires var n := l.elected[t].leader;
      && n in l'.members
      && (l'.members[n].term == t ==>
           n in l.members && l.members[n].term == t && l'.members[n].log == l.members[n].log)
    ensures MandateOk(l', t)
  {
    assert MandateOk(l, t);
    TracedGrows(l.elected, l'.elected, l.elected[t].log);
  }

  lemma StableAck(l: Ledger, l': Ledger, s: Slot)
    requires Inv(l) && Grows(l, l') && s in l.acked && l'.acked[s] == l.acked[s]
    requires s.node in l.members ==> l'.members[s.node].log == l.members[s.node].log
    ensures AckOk(l', s)
  {
    assert AckOk(l, s);
    KeptGrows(l.elected, l'.elected, l.members[s.node].log, s.term, l.acked[s], l.members[s.node].term + 1,
              l'.members[s.node].term + 1);
  }

  lemma StableBallotKeeps(l: Ledger, l': Ledger, n: NodeId, t: nat, u: nat)
    requires Inv(l) && Grows(l, l')
    requires Slot(n, t) in l'.acked ==> Slot(n, t) in l.acked && l'.acked[Slot(n, t)] == l.acked[Slot(n, t)]
    requires Slot(n, u) in l'.ballots ==> Slot(n, u) in l.ballots
    requires Countable(l', Slot(n, u)) ==> Countable(l, Slot(n, u))
    ensures BallotKeeps(l', n, t, u)
  {
    if Slot(n, t) in l'.acked && Slot(n, u) in l'.ballots && t < u && Countable(l', Slot(n, u)) {
      assert BallotKeeps(l, n, t, u) && AckOk(l, Slot(n, t));
      KeptGrows(l.elected, l'.elected, l.ballots[Slot(n, u)].log, t, l.acked[Slot(n, t)], u, u);
    }
  }

  /** Everything a change of one member's term, of the candidacies or of the ballots leaves in place. */
  lemma StableRest(l: Ledger, l': Ledger)
    requires Inv(l) && Grows(l, l')
    requires l'.elected == l.elected && l'.acked == l.acked
    requires forall p :: p in l.members ==> l'.members[p].log == l.members[p].log
    ensures forall p :: p in l.ids ==> MemberOk(l', p)
    ensures forall s :: s in l.candidacies ==> CandidacyOk(l', s)
    ensures forall s :: s in l.ballots ==> BallotOk(l', s)
    ensures forall s :: s in l.acked ==> AckOk(l', s)
    ensures forall p, a, b :: (Slot(p, b) in l'.ballots ==> Slot(p, b) in l.ballots) ==> BallotKeeps(l', p, a, b)
  {
    hide MemberOk, CandidacyOk, BallotOk, AckOk, BallotKeeps, MandateOk;
    forall p | p in l.ids ensures MemberOk(l', p) { StableMember(l, l', p); }
    forall s | s in l.candidacies ensures CandidacyOk(l', s) { StableSlots(l, l', s); }
    forall s | s in l.ballots ensures BallotOk(l', s) { StableSlots(l, l', s); }
    forall s | s in l.acked ensures AckOk(l', s) { StableAck(l, l', s); }
    forall p, a, b | Slot(p, b) in l'.ballots ==> Slot(p, b) in l.ballots
      ensures BallotKeeps(l', p, a, b)
    {
      StableBallotKeeps(l, l', p, a, b);
    }
  }

  lemma RaisePreserves(l: Ledger, n: NodeId, t: nat)
    requires Inv(l) && n in l.ids && t >= l.members[n].term
    ensures Inv(Raise(l, n, t)) && Grows(l, Raise(l, n, t))
  {
    hide MemberOk, BallotOk, AckOk, BallotKeeps;
    var l' := Raise(l, n, t);
    StableRest(l, l');
    forall u | u in l.elected ensures MandateOk(l', u) {
      assert MandateOk(l, u) && CandidacyOk(l, Slot(l.elected[u].leader, u));
      StableMandate(l, l', u);
    }
  }

  lemma NominatePreserves(l: Ledger, n: NodeId)
    requires Inv(l) && n in l.ids && l.members[n].term > 0
    requires Slot(n, l.members[n].term) !in l.candidacies
    requires |l.members[n].log| > 0 && LastTerm(l.members[n].log) < l.members[n].term
    ensures Inv(Nominate(l, n)) && Grows(l, Nominate(l, n))
  {
    hide BallotOk, AckOk, BallotKeeps;
    var l' := Nominate(l, n);
    StableRest(l, l');
    assert MemberOk(l, n);
    assert CandidacyOk(l', Slot(n, l.members[n].term));
    forall u | u in l.elected ensures MandateOk(l', u) {
      assert MandateOk(l, u);
      StableMandate(l, l', u);
    }
  }

  lemma CastPreserves(l: Ledger, n: NodeId, c: NodeId)
    requires Inv(l) && n in l.ids
    requires Slot(n, l.members[n].term) !in l.ballots
    requires Slot(c, l.members[n].term) in l.candidacies
    requires var k := l.candidacies[Slot(c, l.members[n].term)];
      |k| > 0 && |l.members[n].log| > 0 && UpToDate(k, l.members[n].log)
    ensures Inv(Cast(l, n, c)) && Grows(l, Cast(l, n, c))
  {
    hide CandidacyOk, AckOk;
    var l' := Cast(l, n, c);
    var mine := Slot(n, l.members[n].term);
    StableRest(l, l');
    assert MemberOk(l, n);
    assert BallotOk(l', mine);
    forall u | u in l.elected ensures MandateOk(l', u) {
      assert MandateOk(l, u);
      StableMandate(l, l', u);
    }
    forall p, a, b ensures BallotKeeps(l', p, a, b) {
      if Slot(p, b) == mine && Slot(p, a) in l.acked && a < b && Countable(l, Slot(p, b)) {
        CastKeeps(l, n, a);
      }
    }
  }

  /** A vote cast in a term nobody won yet still holds everything acknowledged before. */
  lemma CastKeeps(l: Ledger, n: NodeId, a: nat)
    requires Inv(l) && n in l.ids
    requires Slot(n, l.members[n].term) !in l.ballots
    requires Slot(n, a) in l.acked && a < l.members[n].term
    requires Countable(l, Slot(n, l.members[n].term))
    ensures a in l.elected && KeptUpTo(l.elected, l.members[n].log, a, l.acked[Slot(n, a)], l.members[n].term)
  {
    var b := l.members[n].term;
    assert AckOk(l, Slot(n, a));
    assert b !in l.elected by {
      assert b in l.elected ==> MandateOk(l, b);
    }
    forall i: nat | i <= l.acked[Slot(n, a)]
      ensures Kept(l.elected, l.members[n].log, a, i, b)
    {
      assert Kept(l.elected, l.members[n].log, a, i, b + 1);
    }
  }

  // Winning a term

  ghost predicate CanElect(l: Ledger, n: NodeId, voters: set<NodeId>) {
    && n in l.ids && n in l.members
    && var t := l.members[n].term;
       && t > 0 && t !in l.elected
       && Slot(n, t) in l.candidacies && l.candidacies[Slot(n, t)] == l.members[n].log
       && Majority(voters, l.ids) && VotedFor(l, voters, t, n)
  }

  lemma ElectGrows(l: Ledger, n: NodeId, voters: set<NodeId>)
    requires Inv(l) && CanElect(l, n, voters)
    ensures |l.members[n].log| > 0 && Slot(n, l.members[n].term) !in l.acked
    ensures Grows(l, Elect(l, n, voters))
    ensures MandateOk(Elect(l, n, voters), l.members[n].term)
    ensures AckOk(Elect(l, n, voters), Slot(n, l.members[n].term))
  {
    var t := l.members[n].term;
    assert MemberOk(l, n);
    assert Slot(n, t) !in l.acked by { assert Slot(n, t) in l.acked ==> AckOk(l, Slot(n, t)); }
    var l' := Elect(l, n, voters);
    TracedGrows(l.elected, l'.elected, l.members[n].log);
  }

  lemma ElectKeeps(l: Ledger, n: NodeId, voters: set<NodeId>, t: nat, u: nat)
    requires Inv(l) && CanElect(l, n, voters) && |l.members[n].log| > 0 && Slot(n, l.members[n].term) !in l.acked
    requires Grows(l, Elect(l, n, voters))
    ensures BallotKeeps(Elect(l, n, voters), n, t, u)
  {
    var l' := Elect(l, n, voters);
    if t == l.members[n].term {
      assert Slot(n, u) in l.ballots ==> BallotOk(l, Slot(n, u));
    } else {
      StableBallotKeeps(l, l', n, t, u);
    }
  }

  lemma ElectPreserves(l: Ledger, n: NodeId, voters: set<NodeId>)
    requires Inv(l) && CanElect(l, n, voters)
    ensures |l.members[n].log| > 0 && Inv(Elect(l, n, voters)) && Grows(l, Elect(l, n, voters))
  {
    hide MemberOk, BallotOk, CandidacyOk, AckOk, BallotKeeps;
    var t := l.members[n].term;
    ElectGrows(l, n, voters);
    var l' := Elect(l, n, voters);
    forall p | p in l.ids ensures MemberOk(l', p) { StableMember(l, l', p); }
    forall s | s in l.candidacies ensures CandidacyOk(l', s) { StableSlots(l, l', s); }
    forall s | s in l.ballots ensures BallotOk(l', s) { StableSlots(l, l', s); }
    forall u | u in l'.elected ensures MandateOk(l', u) {
      if u != t { assert MandateOk(l, u); StableMandate(l, l', u); }
    }
    forall s | s in l'.acked ensures AckOk(l', s) {
      if s != Slot(n, t) { StableAck(l, l', s); }
    }
    forall p, a, b ensures BallotKeeps(l', p, a, b) {
      if p == n { ElectKeeps(l, n, voters, a, b); } else { StableBallotKeeps(l, l', p, a, b); }
    }
  }

  // Appending to the leader's own log

  ghost predicate CanAppend(l: Ledger, n: NodeId, e: Entry) {
    && n in l.ids && n in l.members
    && var t := l.members[n].term;
       && t in l.elected && l.elected[t].leader == n
       && e.term == t && e.index == |l.members[n].log|
  }

  lemma AppendGrows(l: Ledger, n: NodeId, e: Entry)
    requires Inv(l) && CanAppend(l, n, e)
    ensures Grows(l, Append(l, n, e))
    ensures Append(l, n, e).acked[Slot(n, l.members[n].term)] == |l.members[n].log|
  {
    hide Agree, Shaped, Traced;
    var t := l.members[n].term;
    assert MandateOk(l, t);
    assert Slot(n, t) in l.acked ==> AckOk(l, Slot(n, t));
  }

  lemma TracedExtends(elected: map<nat, Mandate>, log: Log, e: Entry)
    requires Traced(elected, log) && e.term in elected && elected[e.term].log == log + [e]
    ensures Traced(elected, log + [e])
  {
    var log' := log + [e];
    forall i | 0 < i < |log'|
      ensures log'[i].term in elected && Agree(log', elected[log'[i].term].log, i)
    {
      if i < |log| {
        assert Agree(log, elected[log[i].term].log, i);
      }
    }
  }

  lemma ShapedExtends(log: Log, e: Entry, t: nat)
    requires Shaped(log, t) && e.term == t && e.index == |log| && t > 0
    ensures Shaped(log + [e], t)
  {
  }

  lemma AppendShapes(l: Ledger, n: NodeId, e: Entry)
    requires Inv(l) && CanAppend(l, n, e) && Grows(l, Append(l, n, e))
    ensures Shaped(l.members[n].log + [e], l.members[n].term) && Traced(Append(l, n, e).elected, l.members[n].log + [e])
  {
    var t := l.members[n].term;
    var l' := Append(l, n, e);
    var log' := l.members[n].log + [e];
    hide Shaped, Traced, Agree;
    assert MandateOk(l, t);
    ShapedExtends(l.members[n].log, e, t);
    TracedGrows(l.elected, l'.elected, l.members[n].log);
    assert l'.elected[t].log == log';
    TracedExtends(l'.elected, l.members[n].log, e);
  }

  lemma AppendMandate(l: Ledger, n: NodeId, e: Entry)
    requires Inv(l) && CanAppend(l, n, e) && Grows(l, Append(l, n, e))
    ensures MemberOk(Append(l, n, e), n)
    ensures MandateOk(Append(l, n, e), l.members[n].term)
  {
    hide Shaped, Traced;
    AppendShapes(l, n, e);
    assert MandateOk(l, l.members[n].term);
  }

  /** Appending leaves everything the leader acknowledged in its log. */
  lemma AppendAck(l: Ledger, n: NodeId, e: Entry, s: Slot)
    requires Inv(l) && CanAppend(l, n, e) && Grows(l, Append(l, n, e))
    requires s in Append(l, n, e).acked && s.node == n
    ensures AckOk(Append(l, n, e), s)
  {
    var t := l.members[n].term;
    var l' := Append(l, n, e);
    if s.term == t {
      assert Slot(n, t) in l.acked ==> AckOk(l, Slot(n, t));
      assert MandateOk(l, t);
    } else {
      assert AckOk(l, s);
      KeptGrows(l.elected, l'.elected, l.members[n].log, s.term, l.acked[s], t + 1, t + 1);
      forall i: nat {:trigger Kept(l'.elected, l'.members[n].log, s.term, i, t + 1)} | i <= l.acked[s]
        ensures Kept(l'.elected, l'.members[n].log, s.term, i, t + 1)
      {
        assert Kept(l'.elected, l.members[n].log, s.term, i, t + 1);
      }
    }
  }

  lemma AppendKeeps(l: Ledger, n: NodeId, e: Entry, t: nat, u: nat)
    requires Inv(l) && CanAppend(l, n, e) && Grows(l, Append(l, n, e))
    ensures BallotKeeps(Append(l, n, e), n, t, u)
  {
    if t == l.members[n].term {
      assert Slot(n, u) in l.ballots ==> BallotOk(l, Slot(n, u));
    } else {
      StableBallotKeeps(l, Append(l, n, e), n, t, u);
    }
  }

  lemma AppendPreserves(l: Ledger, n: NodeId, e: Entry)
    requires Inv(l) && CanAppend(l, n, e)
    ensures Inv(Append(l, n, e)) && Grows(l, Append(l, n, e))
  {
    hide MemberOk, BallotOk, CandidacyOk, AckOk, BallotKeeps;
    var t := l.members[n].term;
    AppendGrows(l, n, e);
    AppendMandate(l, n, e);
    var l' := Append(l, n, e);
    forall p | p in l.ids ensures MemberOk(l', p) { if p != n { StableMember(l, l', p); } }
    forall s | s in l.candidacies ensures CandidacyOk(l', s) { StableSlots(l, l', s); }
    forall s | s in l.ballots ensures BallotOk(l', s) { StableSlots(l, l', s); }
    forall u | u in l'.elected ensures MandateOk(l', u) {
      if u != t { assert MandateOk(l, u); StableMandate(l, l', u); }
    }
    forall s | s in l'.acked ensures AckOk(l', s) {
      if s.node == n { AppendAck(l, n, e, s); } else { StableAck(l, l', s); }
    }
    forall p, a, b ensures BallotKeeps(l', p, a, b) {
      if p == n { AppendKeeps(l, n, e, a, b); } else { StableBallotKeeps(l, l', p, a, b); }
    }
  }

  // Taking over the leader's log

  ghost predicate CanAccept(l: Ledger, n: NodeId, m: nat) {
    && n in l.ids && n in l.members
    && l.members[n].term in l.elected && m < |l.elected[l.members[n].term].log|
  }

  lemma AcceptGrows(l: Ledger, n: NodeId, m: nat)
    requires Inv(l) && CanAccept(l, n, m)
    ensures Grows(l, Accept(l, n, m))
    ensures MemberOk(Accept(l, n, m), n)
    ensures MandateOk(Accept(l, n, m), l.members[n].term)
  {
    assert MandateOk(l, l.members[n].term);
    assert MemberOk(l, n);
  }

  /** Taking over the leader's log drops nothing acknowledged, unless that leader's own election already broke it. */
  lemma AcceptAck(l: Ledger, n: NodeId, m: nat, s: Slot)
    requires Inv(l) && CanAccept(l, n, m) && Grows(l, Accept(l, n, m))
    requires s in Accept(l, n, m).acked && s.node == n
    ensures AckOk(Accept(l, n, m), s)
  {
    var t := l.members[n].term;
    var l' := Accept(l, n, m);
    assert MandateOk(l, t);
    assert s in l.acked ==> AckOk(l, s);
    assert s.term in l.elected ==> MandateOk(l, s.term);
    forall i: nat {:trigger Kept(l'.elected, l'.members[n].log, s.term, i, t + 1)} | i <= l'.acked[s]
      ensures Kept(l'.elected, l'.members[n].log, s.term, i, t + 1)
    {
      if s.term == t {
        if s in l.acked && i <= l.acked[s] {
          assert Kept(l.elected, l.members[n].log, t, i, t + 1);
        }
      } else {
        assert Kept(l.elected, l.members[n].log, s.term, i, t + 1);
        AcceptKeepsOlder(l, n, m, s, i);
      }
    }
  }

  lemma AcceptKeepsOlder(l: Ledger, n: NodeId, m: nat, s: Slot, i: nat)
    requires CanAccept(l, n, m) && MandateOk(l, l.members[n].term)
    requires s.term in l.elected && s.term < l.members[n].term
    requires Kept(l.elected, l.members[n].log, s.term, i, l.members[n].term + 1)
    ensures Kept(l.elected, Accept(l, n, m).members[n].log, s.term, i, l.members[n].term + 1)
  {
    var t := l.members[n].term;
    if Agree(l.members[n].log, l.elected[s.term].log, i) && Agree(l.elected[t].base, l.elected[s.term].log, i) {
      assert Agree(l.elected[t].log, l.elected[s.term].log, i);
    }
  }

  lemma AcceptKeeps(l: Ledger, n: NodeId, m: nat, t: nat, u: nat)
    requires Inv(l) && CanAccept(l, n, m) && Grows(l, Accept(l, n, m))
    ensures BallotKeeps(Accept(l, n, m), n, t, u)
  {
    if t == l.members[n].term {
      assert Slot(n, u) in l.ballots ==> BallotOk(l, Slot(n, u));
    } else {
      StableBallotKeeps(l, Accept(l, n, m), n, t, u);
    }
  }

  lemma AcceptPreserves(l: Ledger, n: NodeId, m: nat)
    requires Inv(l) && CanAccept(l, n, m)
    ensures Inv(Accept(l, n, m)) && Grows(l, Accept(l, n, m))
  {
    hide MemberOk, BallotOk, CandidacyOk, AckOk, BallotKeeps;
    var t := l.members[n].term;
    AcceptGrows(l, n, m);
    var l' := Accept(l, n, m);
    forall p | p in l.ids ensures MemberOk(l', p) { if p != n { StableMember(l, l', p); } }
    forall s | s in l.candidacies ensures CandidacyOk(l', s) { StableSlots(l, l', s); }
    forall s | s in l.ballots ensures BallotOk(l', s) { StableSlots(l, l', s); }
    forall u | u in l'.elected ensures MandateOk(l', u) {
      if u != t { assert MandateOk(l, u); StableMandate(l, l', u); }
    }
    forall s | s in l'.acked ensures AckOk(l', s) {
      if s.node == n { AcceptAck(l, n, m, s); } else { StableAck(l, l', s); }
    }
    forall p, a, b ensures BallotKeeps(l', p, a, b) {
      if p == n { AcceptKeeps(l, n, m, a, b); } else { StableBallotKeeps(l, l', p, a, b); }
    }
  }
}
