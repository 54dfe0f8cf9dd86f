/** Vocabulary of the consensus engine: identities, log entries and log agreement. */
module RaftTypes {
  import opened Bytes

  /** A node's configured identity. The empty name is the engine's "nobody". */
  datatype NodeId = NodeId(name: string)

  const NOBODY := NodeId("")

  /** A byte slice: a nil slice is told apart from an empty one. */
  datatype Payload = Nil | Data(bytes: seq<Byte>)

  /** The state a snapshot carries: nobody tells nil bytes from none. */
  type State = seq<Byte>

  datatype Entry = Entry(index: nat, term: nat, data: Payload)

  /** The anchor every fresh log starts with. */
  const ORIGIN := Entry(0, 0, Nil)

  type Log = seq<Entry>

  /** Both logs reach position i and are identical up to and including it. */
  ghost predicate Agree(a: Log, b: Log, i: int) {
    0 <= i < |a| && i < |b| && forall k :: 0 <= k <= i ==> a[k] == b[k]
  }

  /** An uncompacted log: starts at the origin, contiguous indices, terms positive, non-decreasing and at most bound. */
  ghost predicate Shaped(log: Log, bound: int) {
    && |log| > 0
    && log[0] == ORIGIN
    && (forall i :: 0 <= i < |log| ==> log[i].index == i && log[i].term <= bound)
    && (forall i :: 0 < i < |log| ==> log[i].term > 0)
    && (forall i, j :: 0 <= i <= j < |log| ==> log[i].term <= log[j].term)
  }

  function LastTerm(log: Log): nat
    requires |log| > 0
  {
    log[|log| - 1].term
  }

  /** The paper's "at least as up-to-date" order on (last term, last index), section 5.4.1. */
  predicate UpToDate(candidate: Log, voter: Log)
    requires |candidate| > 0 && |voter| > 0
  {
    LastTerm(candidate) > LastTerm(voter)
    || (LastTerm(candidate) == LastTerm(voter) && |candidate| >= |voter|)
  }

  /** The order is total, and says which log loses: the one that ends in an earlier term, or the shorter of two that
      end in the same. */
  lemma UpToDateTotal(a: Log, b: Log)
    requires |a| > 0 && |b| > 0
    ensures UpToDate(a, b) || UpToDate(b, a)
    ensures !UpToDate(a, b) <==>
      a[|a| - 1].term < b[|b| - 1].term || (a[|a| - 1].term == b[|b| - 1].term && |a| < |b|)
  {
  }

  predicate Majority(some: set<NodeId>, all: set<NodeId>) {
    some <= all && |some| > |all| / 2
  }

  /** More than half, and no more than that is asked: half and one make a majority. */
  lemma MajorityIff(some: set<NodeId>, all: set<NodeId>)
    ensures Majority(some, all) <==> some <= all && 2 * |some| > |all|
  {
  }

  /** Any two majorities share a member. */
  lemma MajoritiesMeet(p: set<NodeId>, q: set<NodeId>, all: set<NodeId>) returns (shared: NodeId)
    requires Majority(p, all) && Majority(q, all)
    ensures shared in p && shared in q
  {
    if p * q == {} {
      assert |p + q| == |p| + |q|;
      SubsetSize(p + q, all);
      assert false;
    }
    shared :| shared in p * q;
  }

  lemma SubsetSize<T>(a: set<T>, b: set<T>)
    requires a <= b
    ensures |a| <= |b|
  {
    assert b == a + (b - a);
    assert |b| == |a| + |b - a|;
  }
}
