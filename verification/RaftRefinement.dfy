/** Compaction is invisible (section 7 of the Raft paper): a node that has compacted its log does to its full history
    exactly what the same node would do had it never taken or received a snapshot. */
module RaftRefinement {
  import opened RaftTypes
  import opened RaftLedger
  import opened RaftLedgerActions
  import opened RaftHandlers
  import opened RaftCompaction
  import opened RaftCluster
  import opened RaftInvariant
  import opened RaftElections
  import opened RaftReplication

  /** The node as it would be had it never compacted. */
  function Uncompacted(v: Node, full: Log): Node {
    v.(log := full, lastIncludedIndex := 0, lastIncludedTerm := 0)
  }

  lemma CompactAtOrigin(full: Log)
    requires |full| > 0 && full[0] == ORIGIN
    ensures Compact(full, 0) == full
  {
  }

  lemma UncompactedOk(l: Ledger, n: NodeId, v: Node)
    requires Inv(l) && NodeOk(l, n, v)
    ensures NodeOk(l, n, Uncompacted(v, l.members[n].log))
  {
    hide Safe, Inv;
    NodeParts(l, n, v);
    var full := l.members[n].log;
    CompactAtOrigin(full);
    var u := Uncompacted(v, full);
    forall q | q in v.peers && v.role == Leader ensures PeerOk(l, u, q, |full|) {
      assert PeerOk(l, v, q, |full|);
    }
  }

  lemma UncompactedBack(l: Ledger, n: NodeId, u: Node)
    requires Inv(l) && NodeOk(l, n, u) && u.lastIncludedIndex == 0
    ensures u.log == l.members[n].log && u.lastIncludedTerm == 0
  {
    hide Safe;
    NodeParts(l, n, u);
    CompactAtOrigin(l.members[n].log);
  }

  ghost predicate Covered(v: Node, args: AppendEntriesArgs) {
    args.prevLogIndex < v.lastIncludedIndex && |args.entries| <= v.lastIncludedIndex - args.prevLogIndex
  }

  /** A stretch of the log that is already committed is adopted without effect. */
  lemma AdoptedCommitted(l: Ledger, n: NodeId, v: Node, m: nat)
    requires Inv(l) && NodeOk(l, n, v) && CanAccept(l, n, m) && m <= v.commitIndex
    ensures Adopted(l.members[n].log, l.elected[v.currentTerm].log, m) == l.members[n].log
  {
    hide Safe;
    AdoptedKeepsCommitted(l, n, v, m);
  }

  /** The uncompacted node accepts whatever the compacted one's snapshot covers, and commits nothing by it. */
  lemma CoveredVerdict(l: Ledger, n: NodeId, f: Node, g: Node, args: AppendEntriesArgs, m: nat)
    requires Inv(l) && NodeOk(l, n, f) && NodeOk(l, n, g) && g.Valid()
    requires g == Uncompacted(f, l.members[n].log)
    requires Quotes(l, n, args, m) && args.term == f.currentTerm && m <= f.lastIncludedIndex
    ensures Replicate(g, args).1 == AppendEntriesReply(g.currentTerm, true, m)
    ensures Replicate(g, args).0.commitIndex == f.commitIndex
  {
    hide NodeOk, Inv, Safe, Compacts, Merged;
    NodeParts(l, n, f);
    ConsistencyCheck(l, n, g, args, m);
    CommittedPrefix(l, n, f, args.prevLogIndex);
  }

  lemma CommittedPrefix(l: Ledger, n: NodeId, f: Node, i: nat)
    requires Inv(l) && NodeOk(l, n, f) && f.currentTerm in l.elected && i <= f.lastIncludedIndex
    ensures i <= f.commitIndex && Agree(l.members[n].log, l.elected[f.currentTerm].log, i)
  {
    hide Safe;
    SafeInLeader(l, l.members[n].log, f.commitIndex, f.currentTerm, f.currentTerm);
  }

  /** Past the snapshot, both nodes pass or fail the same consistency check. */
  lemma TrimmedVerdict(l: Ledger, n: NodeId, f: Node, g: Node, args: AppendEntriesArgs, m: nat)
    requires Inv(l) && NodeOk(l, n, f) && f.Valid() && NodeOk(l, n, g) && g.Valid()
    requires g == Uncompacted(f, l.members[n].log)
    requires Quotes(l, n, args, m) && args.term == f.currentTerm && !Covered(f, args)
    requires Quotes(l, n, Trimmed(f, args), m) && Trimmed(f, args).prevLogIndex >= f.lastIncludedIndex
    ensures Replicate(f, Trimmed(f, args)).1 == Replicate(g, args).1
    ensures Replicate(f, Trimmed(f, args)).0.commitIndex == Replicate(g, args).0.commitIndex
  {
    hide NodeOk, Inv, Safe, Compacts, Merged, Agree;
    ConsistencyCheck(l, n, g, args, m);
    ConsistencyCheck(l, n, f, Trimmed(f, args), m);
    if args.prevLogIndex < f.lastIncludedIndex {
      CommittedPrefix(l, n, f, args.prevLogIndex);
      CommittedPrefix(l, n, f, f.lastIncludedIndex);
    }
  }

  /** In its own term the handler is the covered answer or the trimmed replication. */
  lemma InTerm(v: Node, args: AppendEntriesArgs)
    requires v.Valid() && args.term == v.currentTerm
    ensures var f := Follow(v, args.leaderID);
      OnAppendEntries(v, args) ==
        if Covered(v, args) then (f, AppendEntriesReply(f.currentTerm, true, f.lastIncludedIndex))
        else Replicate(f, Trimmed(f, args))
  {
    hide Merged;
  }

  lemma ReplicateFrame(f: Node, args: AppendEntriesArgs)
    requires f.Valid() && args.prevLogIndex >= f.lastIncludedIndex
    ensures var (f', r) := Replicate(f, args);
      f' == f.(log := f'.log, commitIndex := f'.commitIndex) && r.term == f.currentTerm
      && (r.success ==> r.matchIndex == args.prevLogIndex + |args.entries|)
  {
    hide Merged;
  }

  /** Inside one term: same verdict, same commit index. */
  lemma SameVerdictInTerm(l: Ledger, n: NodeId, v: Node, call: Call)
    requires Inv(l) && NodeOk(l, n, v) && v.Valid() && CallOk(l, call) && call.request.Append? && call.to == n
    requires call.request.append.term == v.currentTerm
    requires NodeOk(l, n, Uncompacted(v, l.members[n].log)) && Uncompacted(v, l.members[n].log).Valid()
    ensures var args := call.request.append; var u := Uncompacted(v, l.members[n].log);
      var (v', r) := OnAppendEntries(v, args); var (u', s) := OnAppendEntries(u, args);
      && r.term == s.term && r.success == s.success
      && v'.commitIndex == u'.commitIndex && v'.lastIncludedIndex == v.lastIncludedIndex && u'.lastIncludedIndex == 0
      && u' == Uncompacted(v', u'.log)
      && (r.success ==> s.matchIndex == args.prevLogIndex + |args.entries| <= r.matchIndex)
      && (r.success && !Covered(v, args) ==> r.matchIndex == s.matchIndex)
      && (r.success && Covered(v, args) ==> r.matchIndex == v.lastIncludedIndex)
  {
    hide NodeOk, Inv, Safe, Compacts, CallOk, Replicate, OnAppendEntries, Leads, Agree, Quotes, Shaped, Traced;
    var args := call.request.append;
    NodeParts(l, n, v);
    var full := l.members[n].log;
    var u := Uncompacted(v, full);
    var f, g := Follow(v, args.leaderID), Follow(u, args.leaderID);
    CallQuotes(l, call);
    FollowOk(l, n, v, call.from);
    FollowOk(l, n, u, call.from);
    NodeParts(l, n, f);
    NodeParts(l, n, g);
    var m := args.prevLogIndex + |args.entries|;
    InTerm(v, args);
    InTerm(u, args);
    ReplicateFrame(g, args);
    if Covered(v, args) {
      CoveredVerdict(l, n, f, g, args, m);
    } else {
      TrimmedQuotes(l, n, f, args, m);
      ReplicateFrame(f, Trimmed(f, args));
      TrimmedVerdict(l, n, f, g, args, m);
    }
  }

  /** Inside one term: the same full log besides. */
  lemma RefinesInTerm(l: Ledger, n: NodeId, v: Node, call: Call)
    requires Inv(l) && NodeOk(l, n, v) && v.Valid() && CallOk(l, call) && call.request.Append? && call.to == n
    requires call.request.append.term == v.currentTerm
    ensures var args := call.request.append;
      n in l.members && var u := Uncompacted(v, l.members[n].log);
      u.Valid() &&
      var (v', r) := OnAppendEntries(v, args); var (u', s) := OnAppendEntries(u, args);
      && r.success == s.success && r.term == s.term && (r.success ==> s.matchIndex <= r.matchIndex)
      && (r.success && s.matchIndex < r.matchIndex ==> r.matchIndex == v.lastIncludedIndex)
      && u' == Uncompacted(v', u'.log) && Compacts(v', u'.log)
  {
    hide NodeOk, Inv, Safe, CallOk, IndicesOk, OnAppendEntries, Handles, Accepted, Adopted, Compact;
    var args := call.request.append;
    NodeParts(l, n, v);
    var full := l.members[n].log;
    var u := Uncompacted(v, full);
    UncompactedOk(l, n, v);
    NodeParts(l, n, u);
    SameVerdictInTerm(l, n, v, call);
    AppendEntriesOk(l, n, v, call);
    AppendEntriesOk(l, n, u, call);
    var lv, lu := AppendLedger(l, n, v, args), AppendLedger(l, n, u, args);
    var (v', r) := OnAppendEntries(v, args);
    var (u', s) := OnAppendEntries(u, args);
    HandlesWhole(l, lv, n, v, v');
    HandlesWhole(l, lu, n, u, u');
    UncompactedBack(lu, n, u');
    SameFullLog(l, n, v, call);
  }

  lemma HandlesWhole(l: Ledger, l': Ledger, n: NodeId, v: Node, v': Node)
    requires Handles(l, l', n, v, v')
    ensures Inv(l') && NodeOk(l', n, v') && n in l'.members && Compacts(v', l'.members[n].log)
  {
  }

  lemma SameFullLog(l: Ledger, n: NodeId, v: Node, call: Call)
    requires Inv(l) && NodeOk(l, n, v) && v.Valid() && CallOk(l, call) && call.request.Append? && call.to == n
    requires call.request.append.term == v.currentTerm
    requires NodeOk(l, n, Uncompacted(v, l.members[n].log)) && Uncompacted(v, l.members[n].log).Valid()
    ensures var args := call.request.append; var u := Uncompacted(v, l.members[n].log);
      && n in AppendLedger(l, n, v, args).members && n in AppendLedger(l, n, u, args).members
      && AppendLedger(l, n, v, args).members[n].log == AppendLedger(l, n, u, args).members[n].log
  {
    hide NodeOk, Inv, Safe, CallOk, IndicesOk, OnAppendEntries, Compacts, Adopted;
    var args := call.request.append;
    SameVerdictInTerm(l, n, v, call);
    NodeParts(l, n, v);
    var full := l.members[n].log;
    var r := OnAppendEntries(v, args).1;
    if r.success && Covered(v, args) {
      TermElected(l, call);
      IndexOrder(v, full);
      SafeInLeader(l, full, v.commitIndex, v.currentTerm, args.term);
      AgreeReaches(full, l.elected[args.term].log, v.commitIndex);
      AdoptedCommitted(l, n, v, r.matchIndex);
      AdoptedCommitted(l, n, v, args.prevLogIndex + |args.entries|);
    }
  }

  // ----- calls of any term ------------------------------------------------

  /** Past the term check the handler sees only the node that has adopted the call's term, compacted or not. */
  lemma SeesObserved(v: Node, full: Log, args: AppendEntriesArgs)
    requires v.Valid() && Uncompacted(v, full).Valid() && args.term >= v.currentTerm
    ensures var u, w := Uncompacted(v, full), Observe(v, args.term);
      && w.Valid() && w.currentTerm == args.term && w.lastIncludedIndex == v.lastIncludedIndex
      && OnAppendEntries(w, args) == OnAppendEntries(v, args)
      && Uncompacted(w, full) == Observe(u, args.term) && Uncompacted(w, full).Valid()
      && OnAppendEntries(Uncompacted(w, full), args) == OnAppendEntries(u, args)
  {
    hide Replicate;
  }

  /** A call of an earlier term is refused on both sides and changes nothing. */
  lemma RefusedAlike(v: Node, full: Log, args: AppendEntriesArgs)
    requires v.Valid() && Uncompacted(v, full).Valid() && args.term < v.currentTerm
    ensures OnAppendEntries(v, args) == (v, AppendEntriesReply(v.currentTerm, false, 0))
    ensures OnAppendEntries(Uncompacted(v, full), args)
      == (Uncompacted(v, full), AppendEntriesReply(v.currentTerm, false, 0))
  {
  }

  /** The node that adopted the call's term, and its history, are sound, and the call still is. */
  lemma ObservedOk(l: Ledger, n: NodeId, v: Node, call: Call)
    requires Inv(l) && NodeOk(l, n, v) && CallOk(l, call) && call.request.Append?
    ensures var t := call.request.append.term; var r, w := Raised(l, n, t), Observe(v, t);
      && Inv(r) && NodeOk(r, n, w) && CallOk(r, call)
      && n in l.members && n in r.members && r.members[n].log == l.members[n].log
  {
    hide NodeOk, Inv, CallOk, Raised, MovesOnly, Grows;
    var t := call.request.append.term;
    NodeParts(l, n, v);
    ObserveOk(l, n, v, t);
    MovesGrow(l, Raised(l, n, t), n);
    CallGrows(l, Raised(l, n, t), call);
    NodeParts(Raised(l, n, t), n, Observe(v, t));
  }

  /** Which match index each branch answers, against the uncompacted handler, whatever the call's term. */
  lemma SameVerdict(l: Ledger, n: NodeId, v: Node, call: Call)
    requires Inv(l) && NodeOk(l, n, v) && CallOk(l, call) && call.request.Append? && call.to == n
    ensures n in l.members && v.Valid() && Uncompacted(v, l.members[n].log).Valid()
    ensures var args := call.request.append; var u := Uncompacted(v, l.members[n].log);
      var (v', r) := OnAppendEntries(v, args); var (u', s) := OnAppendEntries(u, args);
      && r.term == s.term && r.success == s.success
      && v'.commitIndex == u'.commitIndex && v'.lastIncludedIndex == v.lastIncludedIndex && u'.lastIncludedIndex == 0
      && u' == Uncompacted(v', u'.log)
      && (r.success ==> s.matchIndex == args.prevLogIndex + |args.entries| <= r.matchIndex)
      && (r.success && !Covered(v, args) ==> r.matchIndex == s.matchIndex)
      && (r.success && Covered(v, args) ==> r.matchIndex == v.lastIncludedIndex)
  {
    hide NodeOk, Inv, CallOk, OnAppendEntries, Raised, Observe;
    var args := call.request.append;
    NodeParts(l, n, v);
    UncompactedOk(l, n, v);
    var full := l.members[n].log;
    NodeParts(l, n, Uncompacted(v, full));
    if args.term < v.currentTerm {
      RefusedAlike(v, full, args);
    } else {
      var r, w := Raised(l, n, args.term), Observe(v, args.term);
      ObservedOk(l, n, v, call);
      SeesObserved(v, full, args);
      UncompactedOk(r, n, w);
      SameVerdictInTerm(r, n, w, call);
    }
  }

  /** HandleAppendEntries on a compacted node, its trimmed branches included and whatever the call's term, has the
      effect of the uncompacted handler: the same full log, term, role, vote and commit index, the same verdict, and a
      match index that is the uncompacted one, or, wholly inside the snapshot, the snapshot's own index above it. */
  lemma AppendEntriesRefines(l: Ledger, n: NodeId, v: Node, call: Call)
    requires Inv(l) && NodeOk(l, n, v) && CallOk(l, call) && call.request.Append? && call.to == n
    ensures n in l.members && v.Valid() && Uncompacted(v, l.members[n].log).Valid()
    ensures var args := call.request.append; var u := Uncompacted(v, l.members[n].log);
      var (v', r) := OnAppendEntries(v, args); var (u', s) := OnAppendEntries(u, args);
      && r.success == s.success && r.term == s.term && (r.success ==> s.matchIndex <= r.matchIndex)
      && (r.success && s.matchIndex < r.matchIndex ==> r.matchIndex == v.lastIncludedIndex)
      && u' == Uncompacted(v', u'.log) && Compacts(v', u'.log)
  {
    hide NodeOk, Inv, CallOk, OnAppendEntries, Raised, Observe, Compacts;
    var args := call.request.append;
    NodeParts(l, n, v);
    UncompactedOk(l, n, v);
    var full := l.members[n].log;
    NodeParts(l, n, Uncompacted(v, full));
    if args.term < v.currentTerm {
      RefusedAlike(v, full, args);
    } else {
      var r, w := Raised(l, n, args.term), Observe(v, args.term);
      ObservedOk(l, n, v, call);
      SeesObserved(v, full, args);
      RefinesInTerm(r, n, w, call);
    }
  }
}
