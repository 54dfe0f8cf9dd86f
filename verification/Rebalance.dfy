/** Partition assignment: what one rebalance gives each member, and what a consumer group's runs keep. */
module Rebalance {
  import opened Sorting

  type MemberId = string
  type Partition = string

  // ----- the order of member ids ------------------------------------------

  predicate Before(a: MemberId, b: MemberId) {
    a == "" || (b != "" && (a[0] < b[0] || (a[0] == b[0] && Before(a[1..], b[1..]))))
  }

  /** At index i, the first where the two differ, a's character is the smaller. */
  ghost predicate SmallerAt(a: MemberId, b: MemberId, i: nat) {
    i < |a| && i < |b| && a[..i] == b[..i] && a[i] < b[i]
  }

  /** Lexicographically below: a proper prefix, or smaller where the two first differ. */
  ghost predicate Below(a: MemberId, b: MemberId) {
    (|a| < |b| && a == b[..|a|]) || exists i: nat :: SmallerAt(a, b, i)
  }

  /** The order ids are sorted in is the lexicographic one. */
  lemma {:induction false} BeforeIff(a: MemberId, b: MemberId)
    ensures Before(a, b) <==> a == b || Below(a, b)
  {
    if a != "" && b != "" {
      assert a == [a[0]] + a[1..] && b == [b[0]] + b[1..];
      if a[0] == b[0] {
        BeforeIff(a[1..], b[1..]);
        BelowTail(a, b);
      } else if a[0] < b[0] {
        assert SmallerAt(a, b, 0);
      } else {
        assert forall i: nat | SmallerAt(a, b, i) :: i == 0 || a[..i][0] == b[..i][0];
      }
    } else if a == "" {
      assert b == "" || a == b[..0];
    }
  }

  lemma BelowTail(a: MemberId, b: MemberId)
    requires a != "" && b != "" && a[0] == b[0]
    ensures Below(a, b) <==> Below(a[1..], b[1..])
  {
    assert a == [a[0]] + a[1..] && b == [b[0]] + b[1..];
    if |a| < |b| {
      assert b[..|a|] == [b[0]] + b[1..][..|a| - 1];
    }
    forall i: nat
      ensures SmallerAt(a[1..], b[1..], i) <==> SmallerAt(a, b, i + 1)
    {
      if i + 1 < |a| && i + 1 < |b| {
        assert a[..i + 1] == [a[0]] + a[1..][..i] && b[..i + 1] == [b[0]] + b[1..][..i];
        assert a[..i + 1][1..] == a[1..][..i] && b[..i + 1][1..] == b[1..][..i];
      }
    }
    if i: nat :| SmallerAt(a, b, i) {
      assert i > 0 && SmallerAt(a[1..], b[1..], i - 1);
    }
  }

  lemma BeforeTotal(a: MemberId, b: MemberId)
    ensures Before(a, b) || Before(b, a)
  {
  }

  lemma BeforeAntisymmetric(a: MemberId, b: MemberId)
    requires Before(a, b) && Before(b, a)
    ensures a == b
  {
    if a != "" {
      BeforeAntisymmetric(a[1..], b[1..]);
      assert a == [a[0]] + a[1..] && b == [b[0]] + b[1..];
    }
  }

  lemma BeforeTransitive(a: MemberId, b: MemberId, c: MemberId)
    requires Before(a, b) && Before(b, c)
    ensures Before(a, c)
  {
    if a != "" && a[0] == b[0] == c[0] {
      BeforeTransitive(a[1..], b[1..], c[1..]);
    }
  }

  lemma BeforeOrders()
    ensures TotalOrder(Before)
  {
    forall a, b ensures Before(a, b) || Before(b, a) { BeforeTotal(a, b); }
    forall a, b | Before(a, b) && Before(b, a) ensures a == b { BeforeAntisymmetric(a, b); }
    forall a, b, c | Before(a, b) && Before(b, c) ensures Before(a, c) { BeforeTransitive(a, b, c); }
  }

  /** A member's place among its group's ids. */
  ghost function Rank(ids: set<MemberId>, id: MemberId): nat {
    |set x | x in ids && Before(x, id) && x != id|
  }

  /** In a sorted listing of the ids, each stands at its rank. */
  lemma RankOfSorted(ids: set<MemberId>, listing: seq<MemberId>, k: nat)
    requires Sorted(Before, listing) && Distinct(listing) && k < |listing| && forall x :: x in listing <==> x in ids
    ensures |listing| == |ids| && Rank(ids, listing[k]) == k
  {
    var below := set x | x in ids && Before(x, listing[k]) && x != listing[k];
    forall x | x in below
      ensures x in listing[..k]
    {
      var i :| 0 <= i < |listing| && listing[i] == x;
      if i > k {
        BeforeAntisymmetric(x, listing[k]);
      }
    }
    forall x | x in listing[..k]
      ensures x in below
    {
      var i :| 0 <= i < k && listing[i] == x;
    }
    CountOf(listing[..k], below);
    CountOf(listing, ids);
  }

  lemma {:induction false} CountOf<T>(xs: seq<T>, s: set<T>)
    requires Distinct(xs) && forall x :: x in xs <==> x in s
    ensures |s| == |xs|
  {
    if xs == [] {
      assert s == {};
    } else {
      var rest := xs[1..];
      assert xs == [xs[0]] + rest;
      assert xs[0] !in rest;
      CountOf(rest, s - {xs[0]});
    }
  }

  // ----- what each member gets --------------------------------------------

  /** Every n-th partition, from the k-th on. */
  function Share(parts: seq<Partition>, n: nat, k: nat): seq<Partition>
    requires n > 0
  {
    if parts == [] then []
    else
      var m := |parts| - 1;
      Share(parts[..m], n, k) + if m % n == k then [parts[m]] else []
  }

  function Load(m: nat, n: nat, k: nat): nat
    requires n > 0
  {
    m / n + if k < m % n then 1 else 0
  }

  lemma LoadStep(m: nat, n: nat, k: nat)
    requires k < n
    ensures Load(m + 1, n, k) == Load(m, n, k) + if m % n == k then 1 else 0
    ensures m % n == k ==> m == k + Load(m, n, k) * n
  {
    var q, r := m / n, m % n;
    assert m == q * n + r;
    if r + 1 < n {
      Divides(m + 1, n, q, r + 1);
    } else {
      assert m + 1 == (q + 1) * n;
      Divides(m + 1, n, q + 1, 0);
    }
  }

  lemma Divides(a: nat, n: nat, q: nat, r: nat)
    requires a == q * n + r && r < n
    ensures a / n == q && a % n == r
  {
    var d := a / n - q;
    assert a == (a / n) * n + a % n;
    assert d * n == r - a % n;
    assert d >= 1 ==> d * n >= n;
    assert d <= -1 ==> d * n + n <= 0;
  }

  /** Exactly which partitions, and how many: the j-th of member k is the list's (k + j * n)-th. */
  lemma {:induction false} ShareIs(parts: seq<Partition>, n: nat, k: nat)
    requires k < n
    ensures |Share(parts, n, k)| == Load(|parts|, n, k)
    ensures forall j {:trigger Share(parts, n, k)[j]} :: 0 <= j < |Share(parts, n, k)| ==>
      k + j * n < |parts| && Share(parts, n, k)[j] == parts[k + j * n]
  {
    if parts == [] {
      Divides(0, n, 0, 0);
    } else {
      var m := |parts| - 1;
      var front := parts[..m];
      ShareIs(front, n, k);
      LoadStep(m, n, k);
      hide Load;
      forall j | 0 <= j < |Share(parts, n, k)|
        ensures k + j * n < |parts| && Share(parts, n, k)[j] == parts[k + j * n]
      {
        if j < |Share(front, n, k)| {
          assert Share(front, n, k)[j] == front[k + j * n];
        }
      }
    }
  }

  lemma {:induction false} ShareHas(parts: seq<Partition>, n: nat, k: nat, p: Partition)
    requires k < n
    ensures p in Share(parts, n, k) <==> exists i {:trigger parts[i]} :: 0 <= i < |parts| && i % n == k && parts[i] == p
  {
    if parts != [] {
      var m := |parts| - 1;
      var front := parts[..m];
      ShareHas(front, n, k, p);
      if i :| 0 <= i < |parts| && i % n == k && parts[i] == p {
        if i < m { assert front[i] == p; }
      }
      if p in Share(front, n, k) {
        var i :| 0 <= i < |front| && i % n == k && front[i] == p;
        assert parts[i] == p;
      }
    }
  }

  /** What a rebalance gives every member: a function of the set of ids and the list alone. */
  ghost function Balanced(ids: set<MemberId>, parts: seq<Partition>): (owners: map<MemberId, seq<Partition>>)
    ensures owners.Keys == ids
  {
    map id | id in ids :: assert ids != {}; Share(parts, |ids|, Rank(ids, id))
  }

  lemma {:induction false} Enumerate(ids: set<MemberId>) returns (xs: seq<MemberId>)
    ensures Distinct(xs) && forall x :: x in xs <==> x in ids
  {
    if ids == {} {
      xs := [];
    } else {
      var x :| x in ids;
      xs := Enumerate(ids - {x});
      xs := xs + [x];
    }
  }

  lemma Listing(ids: set<MemberId>) returns (xs: seq<MemberId>)
    ensures Sorted(Before, xs) && Distinct(xs) && forall x :: x in xs <==> x in ids
  {
    var ys := Enumerate(ids);
    BeforeOrders();
    SortSorted(Before, ys);
    SortDistinct(Before, ys);
    xs := Sort(Before, ys);
  }

  /** Ranks number the members from 0 without gaps or repetition. */
  lemma RanksNumber(ids: set<MemberId>, id: MemberId, r: nat)
    ensures id in ids ==> Rank(ids, id) < |ids|
    ensures r < |ids| ==> exists x :: x in ids && Rank(ids, x) == r
    ensures forall x :: id in ids && x in ids && Rank(ids, x) == Rank(ids, id) ==> x == id
  {
    var xs := Listing(ids);
    forall k | 0 <= k < |xs|
      ensures |xs| == |ids| && Rank(ids, xs[k]) == k
    {
      RankOfSorted(ids, xs, k);
    }
    CountOf(xs, ids);
    if r < |ids| {
      assert xs[r] in ids;
    }
  }

  /** Dealing one more partition adds it to one member's share. */
  lemma ShareNext(ids: set<MemberId>, listing: seq<MemberId>, parts: seq<Partition>, i: nat)
    requires Sorted(Before, listing) && Distinct(listing) && forall x :: x in listing <==> x in ids
    requires i < |parts| && ids != {}
    ensures |listing| == |ids|
    ensures forall x :: x in ids ==>
      (Share(parts[..i + 1], |ids|, Rank(ids, x))
       == Share(parts[..i], |ids|, Rank(ids, x)) + if x == listing[i % |ids|] then [parts[i]] else [])
  {
    CountOf(listing, ids);
    RankOfSorted(ids, listing, i % |ids|);
    assert parts[..i + 1][..i] == parts[..i];
    forall x | x in ids
      ensures x == listing[i % |ids|] <==> Rank(ids, x) == i % |ids|
    {
      RanksNumber(ids, x, 0);
    }
  }

  /** A member owns exactly the listed partitions whose position falls to its rank. */
  lemma OwnsIff(ids: set<MemberId>, parts: seq<Partition>, id: MemberId, p: Partition)
    requires id in ids
    ensures p in Balanced(ids, parts)[id]
      <==> exists i {:trigger parts[i]} :: 0 <= i < |parts| && i % |ids| == Rank(ids, id) && parts[i] == p
  {
    RanksNumber(ids, id, 0);
    ShareHas(parts, |ids|, Rank(ids, id), p);
  }

  /** The list's positions k, k + n, k + 2n and so on, to its end. */
  ghost predicate EveryNth(parts: seq<Partition>, n: nat, k: nat, mine: seq<Partition>) {
    && k + |mine| * n >= |parts|
    && forall j: nat :: j < |mine| ==> k + j * n < |parts| && mine[j] == parts[k + j * n]
  }

  /** The share of the member with exactly k ids lexicographically below its own: every n-th partition from the k-th. */
  lemma ShareByOrder(ids: set<MemberId>, parts: seq<Partition>, id: MemberId, k: nat)
    requires id in ids && k == |set x | x in ids && Below(x, id)|
    ensures k < |ids| && EveryNth(parts, |ids|, k, Balanced(ids, parts)[id])
  {
    hide Below, Rank, Share, EveryNth;
    RankByOrder(ids, id);
    RanksNumber(ids, id, 0);
    assert Balanced(ids, parts)[id] == Share(parts, |ids|, k);
    ShareIsEveryNth(parts, |ids|, k);
  }

  lemma ShareIsEveryNth(parts: seq<Partition>, n: nat, k: nat)
    requires k < n
    ensures EveryNth(parts, n, k, Share(parts, n, k))
  {
    hide Load, Share;
    ShareIs(parts, n, k);
    LoadReaches(|parts|, n, k);
    var mine := Share(parts, n, k);
    forall j: nat | j < |mine|
      ensures k + j * n < |parts| && mine[j] == parts[k + j * n]
    {
      assert Share(parts, n, k)[j] == mine[j];
    }
  }

  lemma RankByOrder(ids: set<MemberId>, id: MemberId)
    ensures Rank(ids, id) == |set x | x in ids && Below(x, id)|
  {
    hide Before, Below;
    forall x
      ensures x in ids && Below(x, id) <==> x in ids && Before(x, id) && x != id
    {
      BeforeIff(x, id);
      NotBelowItself(id);
    }
    assert (set x | x in ids && Below(x, id)) == set x | x in ids && Before(x, id) && x != id;
  }

  lemma NotBelowItself(id: MemberId)
    ensures !Below(id, id)
  {
  }

  lemma LoadReaches(m: nat, n: nat, k: nat)
    requires k < n
    ensures k + Load(m, n, k) * n >= m
  {
    var q, r := m / n, m % n;
    assert m == q * n + r;
    if k < r {
      assert (q + 1) * n == q * n + n;
    }
  }

  ghost predicate NoTwoOwners(owners: map<MemberId, seq<Partition>>) {
    forall a, b, p :: a in owners && b in owners && p in owners[a] && p in owners[b] ==> a == b
  }

  ghost predicate Level(owners: map<MemberId, seq<Partition>>) {
    forall a, b :: a in owners && b in owners ==> |owners[a]| <= |owners[b]| + 1
  }

  /** Every listed partition has an owner. */
  lemma EveryPartitionOwned(ids: set<MemberId>, parts: seq<Partition>, i: nat) returns (id: MemberId)
    requires ids != {} && i < |parts|
    ensures id in ids && Rank(ids, id) == i % |ids| && parts[i] in Balanced(ids, parts)[id]
  {
    RanksNumber(ids, "", i % |ids|);
    id :| id in ids && Rank(ids, id) == i % |ids|;
    OwnsIff(ids, parts, id, parts[i]);
  }

  /** No partition has two owners exactly when equal entries of the list stand at positions that fall to one member. */
  lemma OneOwnerIff(ids: set<MemberId>, parts: seq<Partition>)
    requires ids != {}
    ensures NoTwoOwners(Balanced(ids, parts))
      <==> forall i, j :: 0 <= i < |parts| && 0 <= j < |parts| && parts[i] == parts[j] ==> i % |ids| == j % |ids|
  {
    var owners := Balanced(ids, parts);
    if NoTwoOwners(owners) {
      forall i, j | 0 <= i < |parts| && 0 <= j < |parts| && parts[i] == parts[j]
        ensures i % |ids| == j % |ids|
      {
        var a := EveryPartitionOwned(ids, parts, i);
        var b := EveryPartitionOwned(ids, parts, j);
      }
    }
    if forall i, j :: 0 <= i < |parts| && 0 <= j < |parts| && parts[i] == parts[j] ==> i % |ids| == j % |ids| {
      forall a, b, p | a in owners && b in owners && p in owners[a] && p in owners[b]
        ensures a == b
      {
        OwnsIff(ids, parts, a, p);
        OwnsIff(ids, parts, b, p);
        RanksNumber(ids, a, 0);
      }
    }
  }

  /** A list that names a partition twice can give it two owners. */
  lemma RepeatedPartition(p: Partition)
    ensures !NoTwoOwners(Balanced({"a", "b"}, [p, p]))
  {
    var ids := {"a", "b"};
    OneOwnerIff(ids, [p, p]);
    assert |ids| == 2;
    assert [p, p][0] == [p, p][1] && 0 % 2 != 1 % 2;
  }

  /** Members' loads differ by at most one. */
  lemma Fair(ids: set<MemberId>, parts: seq<Partition>)
    ensures Level(Balanced(ids, parts))
  {
    forall a, b | a in ids && b in ids
      ensures |Balanced(ids, parts)[a]| <= |Balanced(ids, parts)[b]| + 1
    {
      RanksNumber(ids, a, 0);
      RanksNumber(ids, b, 0);
      ShareIs(parts, |ids|, Rank(ids, a));
      ShareIs(parts, |ids|, Rank(ids, b));
    }
  }

  function Dealt(parts: seq<Partition>, n: nat, k: nat): seq<Partition>
    requires n > 0
  {
    if k == 0 then [] else Dealt(parts, n, k - 1) + Share(parts, n, k - 1)
  }

  lemma {:induction false} DealtStep(parts: seq<Partition>, n: nat, k: nat)
    requires n > 0 && parts != []
    ensures var m := |parts| - 1;
      multiset(Dealt(parts, n, k))
        == multiset(Dealt(parts[..m], n, k)) + if m % n < k then multiset{parts[m]} else multiset{}
  {
    hide Share;
    if k > 0 {
      DealtStep(parts, n, k - 1);
      var m := |parts| - 1;
      ShareStep(parts, n, k - 1);
      assert multiset(Dealt(parts, n, k)) == multiset(Dealt(parts, n, k - 1)) + multiset(Share(parts, n, k - 1));
    }
  }

  lemma ShareStep(parts: seq<Partition>, n: nat, k: nat)
    requires n > 0 && parts != []
    ensures var m := |parts| - 1;
      multiset(Share(parts, n, k))
        == multiset(Share(parts[..m], n, k)) + if m % n == k then multiset{parts[m]} else multiset{}
  {
  }

  /** Together the shares are the list: nothing is lost and nothing handed out twice. */
  lemma {:induction false} AllDealt(parts: seq<Partition>, n: nat)
    requires n > 0
    ensures multiset(Dealt(parts, n, n)) == multiset(parts)
  {
    hide Share, Dealt;
    if parts == [] {
      NothingDealt(n, n);
    } else {
      var m := |parts| - 1;
      DealtStep(parts, n, n);
      AllDealt(parts[..m], n);
      assert parts == parts[..m] + [parts[m]];
    }
  }

  lemma NothingDealt(n: nat, k: nat)
    requires n > 0
    ensures Dealt([], n, k) == []
  {
  }

  // ----- a group's runs -----------------------------------------------------

  /** A consumer group: who owns what, when each member was last heard, and how often the membership changed. */
  datatype Group = Group(owners: map<MemberId, seq<Partition>>, beats: map<MemberId, int>, generation: nat)

  datatype Step =
    | Join(id: MemberId, parts: seq<Partition>, now: int)
    | Leave(id: MemberId, parts: seq<Partition>)
    | Beat(id: MemberId, now: int)
    | Evict(now: int, timeout: int)

  const EMPTY := Group(map[], map[], 0)

  ghost function Joined(g: Group, id: MemberId, parts: seq<Partition>, now: int): Group {
    Group(Balanced(g.owners.Keys + {id}, parts), g.beats[id := now], g.generation + 1)
  }

  ghost function Left(g: Group, id: MemberId, parts: seq<Partition>): Group {
    Group(Balanced(g.owners.Keys - {id}, parts), g.beats - {id}, g.generation + 1)
  }

  ghost function Stale(g: Group, now: int, timeout: int): set<MemberId> {
    set id | id in g.beats && now - g.beats[id] > timeout
  }

  /** Eviction takes members out and leaves the others' partitions alone. */
  ghost function Evicted(g: Group, now: int, timeout: int): Group {
    var gone := Stale(g, now, timeout);
    Group(g.owners - gone, g.beats - gone, if gone == {} then g.generation else g.generation + 1)
  }

  ghost function Beaten(g: Group, id: MemberId, now: int): Group {
    if id in g.beats then g.(beats := g.beats[id := now]) else g
  }

  ghost function After(g: Group, step: Step): Group {
    match step
    case Join(id, parts, now) => Joined(g, id, parts, now)
    case Leave(id, parts) => Left(g, id, parts)
    case Beat(id, now) => Beaten(g, id, now)
    case Evict(now, timeout) => Evicted(g, now, timeout)
  }

  ghost function Run(steps: seq<Step>): Group {
    if steps == [] then EMPTY else After(Run(steps[..|steps| - 1]), steps[|steps| - 1])
  }

  lemma RunNext(steps: seq<Step>, step: Step)
    ensures Run(steps + [step]) == After(Run(steps), step)
  {
    assert (steps + [step])[..|steps|] == steps;
  }

  /** The members and the list of the last rebalance in a run. */
  ghost function LastDeal(steps: seq<Step>): (set<MemberId>, seq<Partition>) {
    if steps == [] then ({}, [])
    else
      var front, step := steps[..|steps| - 1], steps[|steps| - 1];
      match step
      case Join(id, parts, _) => (Run(front).owners.Keys + {id}, parts)
      case Leave(id, parts) => (Run(front).owners.Keys - {id}, parts)
      case _ => LastDeal(front)
  }

  /** The member is heard: it joins, or sends a heartbeat. */
  ghost predicate Hears(step: Step, id: MemberId, now: int) {
    (step.Join? || step.Beat?) && step.id == id && step.now == now
  }

  /** Step k is the last in which the member was heard, and then was now. */
  ghost predicate LastHeard(steps: seq<Step>, id: MemberId, k: nat, now: int) {
    && k < |steps| && Hears(steps[k], id, now)
    && forall j :: k < j < |steps| ==> (steps[j].Join? || steps[j].Beat? ==> steps[j].id != id)
  }

  /** What is recorded of a member is when it was last heard. */
  lemma {:induction false} HeardLast(steps: seq<Step>, id: MemberId) returns (k: nat)
    requires id in Run(steps).beats
    ensures LastHeard(steps, id, k, Run(steps).beats[id])
  {
    hide Balanced;
    var front, step := steps[..|steps| - 1], steps[|steps| - 1];
    if (step.Join? || step.Beat?) && step.id == id {
      k := |steps| - 1;
    } else {
      k := HeardLast(front, id);
      forall j | k < j < |steps|
        ensures steps[j].Join? || steps[j].Beat? ==> steps[j].id != id
      {
        if j < |steps| - 1 { assert steps[j] == front[j]; }
      }
    }
  }

  /** An eviction pass takes out a member exactly when more than the timeout has gone by since it was last heard. */
  lemma EvictsIff(steps: seq<Step>, id: MemberId, now: int, timeout: int) returns (k: nat)
    requires id in Run(steps).owners
    ensures k < |steps| && (steps[k].Join? || steps[k].Beat?) && LastHeard(steps, id, k, steps[k].now)
    ensures id in Run(steps + [Evict(now, timeout)]).owners <==> now - steps[k].now <= timeout
  {
    hide Run;
    RunKeepsDeal(steps);
    k := HeardLast(steps, id);
    RunNext(steps, Evict(now, timeout));
  }

  /** Step i changes who is in the group, or deals anew. */
  ghost predicate Changes(steps: seq<Step>, i: nat)
    requires i < |steps|
  {
    steps[i].Join? || steps[i].Leave? || Run(steps[..i + 1]).owners.Keys != Run(steps[..i]).owners.Keys
  }

  /** The generation counts the joins, the leaves and the passes that evicted somebody. */
  lemma {:induction false} GenerationCounts(steps: seq<Step>)
    ensures Run(steps).generation == |set i: nat | i < |steps| && Changes(steps, i)|
  {
    hide Run, Changes;
    if steps == [] {
      assert (set i: nat | i < |steps| && Changes(steps, i)) == {};
      assert Run(steps).generation == 0 by { NoneYet(); }
    } else {
      var last := |steps| - 1;
      GenerationCounts(steps[..last]);
      GenerationStep(steps);
      ChangesNext(steps);
    }
  }

  lemma NoneYet()
    ensures Run([]) == EMPTY
  {
  }

  lemma ChangesNext(steps: seq<Step>)
    requires steps != []
    ensures var last := |steps| - 1; var front := steps[..last];
      |set i: nat | i < |steps| && Changes(steps, i)|
      == |set i: nat | i < |front| && Changes(front, i)| + if Changes(steps, last) then 1 else 0
  {
    hide Changes;
    var last := |steps| - 1;
    var front := steps[..last];
    var before := set i: nat | i < |front| && Changes(front, i);
    forall i: nat | i < last
      ensures Changes(front, i) <==> Changes(steps, i)
    {
      SameChange(steps, i);
    }
    assert (set i: nat | i < |steps| && Changes(steps, i)) == before + if Changes(steps, last) then {last} else {};
    assert last !in before;
  }

  lemma SameChange(steps: seq<Step>, i: nat)
    requires i < |steps| - 1
    ensures Changes(steps[..|steps| - 1], i) <==> Changes(steps, i)
  {
    hide Run;
    var front := steps[..|steps| - 1];
    assert front[..i + 1] == steps[..i + 1] && front[..i] == steps[..i];
  }

  lemma GenerationStep(steps: seq<Step>)
    requires steps != []
    ensures var last := |steps| - 1;
      Run(steps).generation == Run(steps[..last]).generation + if Changes(steps, last) then 1 else 0
  {
    hide Balanced;
    var last := |steps| - 1;
    assert steps[..last + 1] == steps;
    RunKeepsDeal(steps[..last]);
    var g := Run(steps[..last]);
    if steps[last].Evict? {
      var gone := Stale(g, steps[last].now, steps[last].timeout);
      assert gone <= g.owners.Keys;
      assert Run(steps).owners.Keys == g.owners.Keys - gone;
    }
  }

  ghost predicate ListsDistinct(steps: seq<Step>) {
    forall i :: 0 <= i < |steps| && (steps[i].Join? || steps[i].Leave?) ==> Distinct(steps[i].parts)
  }

  /** In every run, whoever is left holds what the last rebalance gave it: only eviction takes a partition away. */
  lemma {:induction false} RunKeepsDeal(steps: seq<Step>)
    ensures var (ids, parts) := LastDeal(steps);
      && Run(steps).owners.Keys <= ids
      && forall id :: id in Run(steps).owners ==> Run(steps).owners[id] == Balanced(ids, parts)[id]
    ensures Run(steps).owners.Keys == Run(steps).beats.Keys
  {
    hide Balanced;
    if steps != [] {
      RunKeepsDeal(steps[..|steps| - 1]);
    }
  }

  lemma {:induction false} DealDistinct(steps: seq<Step>)
    requires ListsDistinct(steps)
    ensures Distinct(LastDeal(steps).1)
  {
    if steps != [] {
      DealDistinct(steps[..|steps| - 1]);
    }
  }

  /** Over every run of joins, leaves, heartbeats and evictions with lists that name no partition twice, no partition
      has two owners. */
  lemma RunHasOneOwner(steps: seq<Step>)
    requires ListsDistinct(steps)
    ensures NoTwoOwners(Run(steps).owners)
  {
    hide Balanced, Run;
    RunKeepsDeal(steps);
    DealDistinct(steps);
    var (ids, parts) := LastDeal(steps);
    if Run(steps).owners != map[] {
      OneOwnerIff(ids, parts);
      assert forall i, j :: 0 <= i < |parts| && 0 <= j < |parts| && parts[i] == parts[j] ==> i == j;
    }
  }

  /** And loads always differ by at most one, whatever the lists. */
  lemma RunIsLevel(steps: seq<Step>)
    ensures Level(Run(steps).owners)
  {
    hide Balanced, Run;
    RunKeepsDeal(steps);
    var (ids, parts) := LastDeal(steps);
    Fair(ids, parts);
  }

  /** Step k evicts the member, and no rebalance comes after it. */
  ghost predicate EvictedBy(steps: seq<Step>, id: MemberId, k: nat) {
    && k < |steps| && steps[k].Evict?
    && id in Run(steps[..k]).owners && id in Stale(Run(steps[..k]), steps[k].now, steps[k].timeout)
    && forall j :: k < j < |steps| ==> steps[j].Beat? || steps[j].Evict?
  }

  /** What the last step of a run did to the owners and to the record of the last rebalance. */
  lemma LastStep(steps: seq<Step>)
    requires steps != []
    ensures var front, step := steps[..|steps| - 1], steps[|steps| - 1];
      && (step.Join? || step.Leave? ==> Run(steps).owners.Keys == LastDeal(steps).0)
      && (step.Beat? ==> Run(steps).owners == Run(front).owners && LastDeal(steps) == LastDeal(front))
      && (step.Evict? ==> LastDeal(steps) == LastDeal(front))
      && (step.Evict? ==> Run(steps).owners.Keys == Run(front).owners.Keys - Stale(Run(front), step.now, step.timeout))
  {
    hide Balanced, Stale;
  }

  /** A later heartbeat or eviction does not undo an eviction. */
  lemma StillEvicted(steps: seq<Step>, id: MemberId, k: nat)
    requires steps != [] && (steps[|steps| - 1].Beat? || steps[|steps| - 1].Evict?)
    requires EvictedBy(steps[..|steps| - 1], id, k)
    ensures EvictedBy(steps, id, k)
  {
    hide Run, Stale;
    assert steps[..k] == steps[..|steps| - 1][..k];
    assert steps[k] == steps[..|steps| - 1][k];
    forall j | k < j < |steps|
      ensures steps[j].Beat? || steps[j].Evict?
    {
      if j < |steps| - 1 { assert steps[j] == steps[..|steps| - 1][j]; }
    }
  }

  /** Whoever was dealt in and is missing was evicted after the last rebalance. */
  lemma {:induction false} MissingWasEvicted(steps: seq<Step>, id: MemberId) returns (k: nat)
    requires id in LastDeal(steps).0 && id !in Run(steps).owners
    ensures EvictedBy(steps, id, k)
  {
    hide Run, Stale;
    assert steps != [];
    hide LastDeal;
    var front := steps[..|steps| - 1];
    LastStep(steps);
    if id in Run(front).owners {
      k := |steps| - 1;
    } else {
      k := MissingWasEvicted(front, id);
      StillEvicted(steps, id, k);
    }
  }

  ghost predicate Owned(g: Group, p: Partition) {
    exists id :: id in g.owners && p in g.owners[id]
  }

  /** The partition at position i of the last list belongs to the member whose rank it falls to, for as long as that
      member stays; if it is gone, an eviction after the last rebalance took it. With a list that names no partition
      twice, the partition is owned exactly while that member stays. */
  lemma OnlyEvictionOrphans(steps: seq<Step>, i: nat) returns (id: MemberId)
    requires LastDeal(steps).0 != {} && i < |LastDeal(steps).1|
    ensures var (ids, parts) := LastDeal(steps);
      && id in ids && Rank(ids, id) == i % |ids| && parts[i] in Balanced(ids, parts)[id]
      && (id in Run(steps).owners ==> parts[i] in Run(steps).owners[id])
      && (id !in Run(steps).owners ==> exists k :: EvictedBy(steps, id, k))
      && (Distinct(parts) ==> (Owned(Run(steps), parts[i]) <==> id in Run(steps).owners))
  {
    hide Balanced, Run, EvictedBy;
    RunKeepsDeal(steps);
    var (ids, parts) := LastDeal(steps);
    id := EveryPartitionOwned(ids, parts, i);
    if id !in Run(steps).owners {
      var k := MissingWasEvicted(steps, id);
    }
    if Distinct(parts) && Owned(Run(steps), parts[i]) {
      var x :| x in Run(steps).owners && parts[i] in Run(steps).owners[x];
      OneOwnerIff(ids, parts);
      assert forall a, b :: 0 <= a < |parts| && 0 <= b < |parts| && parts[a] == parts[b] ==> a == b;
      assert x == id;
    }
  }
}
