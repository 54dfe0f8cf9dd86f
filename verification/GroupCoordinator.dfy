/** The consumer group coordinator: groups of members that join, leave, send heartbeats and are evicted. */
module GroupCoordinator {
  import opened Sorting
  import opened Rebalance

  class GroupMember {
    const id: MemberId
    var share: seq<Partition>
    var lastHeartbeat: int

    constructor (id: MemberId, now: int)
      ensures this.id == id && share == [] && lastHeartbeat == now
    {
      this.id, share, lastHeartbeat := id, [], now;
    }
  }

  class ConsumerGroup {
    const id: string
    var members: map<MemberId, GroupMember>
    var generation: nat
    ghost var Repr: set<object>

    /** Every step taken so far. */
    ghost var history: seq<Step>

    /** The view is what the steps taken make of an empty group. */
    ghost predicate Valid()
      reads this, Repr
    {
      Shaped() && View() == Run(history)
    }

    ghost predicate Shaped()
      reads this, Repr
    {
      this in Repr && forall m :: m in members ==> members[m] in Repr && members[m].id == m
    }

    ghost function View(): (g: Group)
      requires Shaped()
      reads this, Repr
      ensures g.owners.Keys == g.beats.Keys == members.Keys && g.generation == generation
    {
      Group(map m | m in members :: members[m].share, map m | m in members :: members[m].lastHeartbeat, generation)
    }

    constructor (id: string)
      ensures Valid() && this in Repr && fresh(Repr) && View() == EMPTY && this.id == id
    {
      this.id, members, generation, history := id, map[], 0, [];
      Repr := {this};
    }

    /** rebalanceGroup: clear every member while walking the map in any order, sort the ids, deal the list round. */
    method Rebalance(parts: seq<Partition>)
      requires Shaped()
      modifies Repr
      ensures Shaped() && Repr == old(Repr) && members == old(members) && generation == old(generation)
      ensures history == old(history)
      ensures View().owners == Balanced(members.Keys, parts) && View().beats == old(View().beats)
    {
      if |members| == 0 {
        assert members.Keys == {};
        return;
      }
      var listing := Clear();
      SortedIds(listing);
      Deal(Sort(Before, listing), parts);
    }

    /** Clear every member's partitions and list the ids, in any order. */
    method Clear() returns (listing: seq<MemberId>)
      requires Shaped()
      modifies Repr
      ensures Shaped() && Repr == old(Repr) && members == old(members) && generation == old(generation)
      ensures history == old(history)
      ensures View().beats == old(View()).beats && View().owners == map m | m in members :: []
      ensures Distinct(listing) && forall m :: m in listing <==> m in members
    {
      hide Shaped, View, Distinct, Valid, Run, Blanked;
      ghost var before := View();
      NoneRepeated();
      listing := [];
      var rest := members.Keys;
      InRepr();
      NothingBlanked(before.owners);
      assert members.Keys - rest == {};
      while rest != {}
        invariant Shaped() && rest <= members.Keys && members == old(members) && Repr == old(Repr)
        invariant generation == old(generation) && history == old(history)
        invariant View() == before.(owners := Blanked(before.owners, members.Keys - rest))
        invariant Distinct(listing) && forall m :: m in listing <==> m in members.Keys - rest
        decreases |rest|
      {
        var m :| m in rest;
        DistinctNext(listing, m);
        BlankNext(before.owners, members.Keys - rest, m);
        assert members.Keys - (rest - {m}) == members.Keys - rest + {m};
        rest := rest - {m};
        listing := listing + [m];
        Assign(m, []);
      }
      assert members.Keys - {} == members.Keys;
      AllBlanked(before.owners);
    }

    lemma InRepr()
      requires Shaped()
      ensures this in Repr
    {
    }

    /** Set one member's partitions. */
    method Assign(m: MemberId, parts: seq<Partition>)
      requires Shaped() && m in members
      modifies Repr - {this}
      ensures Shaped() && View() == old(View()).(owners := old(View()).owners[m := parts])
    {
      var member := members[m];
      member.share := parts;
    }

    method Deal(ids: seq<MemberId>, parts: seq<Partition>)
      requires Shaped() && members.Keys != {}
      requires Sorted(Before, ids) && Distinct(ids) && forall m :: m in ids <==> m in members
      requires View().owners == map m | m in members :: []
      modifies Repr
      ensures Shaped() && Repr == old(Repr) && members == old(members) && generation == old(generation)
      ensures history == old(history)
      ensures View().owners == Balanced(members.Keys, parts) && View().beats == old(View()).beats
    {
      hide Share, Rank, Sorted, Before, Run, Shaped, View;
      ghost var keys := members.Keys;
      CountOf(ids, keys);
      EmptyShare(|keys|);
      assert parts[..0] == [];
      for i := 0 to |parts|
        invariant Shaped() && members == old(members) && Repr == old(Repr) && generation == old(generation)
        invariant history == old(history)
        invariant View().beats == old(View()).beats
        invariant forall m :: m in members ==> View().owners[m] == Share(parts[..i], |keys|, Rank(keys, m))
      {
        ShareNext(keys, ids, parts, i);
        var target := ids[i % |ids|];
        Assign(target, ShareOf(target) + [parts[i]]);
      }
      assert parts[..|parts|] == parts;
    }

    function ShareOf(m: MemberId): (parts: seq<Partition>)
      requires Shaped() && m in members
      reads this, Repr
      ensures parts == View().owners[m]
    {
      members[m].share
    }

    /** JoinGroup's work on its group: a new member record, then a rebalance. */
    method Join(m: MemberId, parts: seq<Partition>, now: int)
      requires Valid()
      modifies Repr
      ensures Valid() && old(Repr) <= Repr && fresh(Repr - old(Repr))
      ensures history == old(history) + [Step.Join(m, parts, now)]
      ensures View() == Joined(old(View()), m, parts, now) && m in members
    {
      hide Balanced, Run, View;
      ghost var before := View();
      Admit(m, now);
      Rebalance(parts);
      RunNext(history, Step.Join(m, parts, now));
      Record(Step.Join(m, parts, now));
    }

    method Admit(m: MemberId, now: int)
      requires Shaped()
      modifies this
      ensures Shaped() && fresh(Repr - old(Repr)) && old(Repr) <= Repr && history == old(history)
      ensures View().beats == old(View()).beats[m := now]
      ensures members.Keys == old(members).Keys + {m} && generation == old(generation) + 1
    {
      var member := new GroupMember(m, now);
      members := members[m := member];
      Repr := Repr + {member};
      generation := generation + 1;
    }

    ghost method Record(step: Step)
      requires Shaped()
      modifies this`history
      ensures history == old(history) + [step] && Shaped() && View() == old(View())
    {
      history := history + [step];
    }

    method Leave(m: MemberId, parts: seq<Partition>)
      requires Valid()
      modifies Repr
      ensures Valid() && Repr == old(Repr) && history == old(history) + [Step.Leave(m, parts)]
      ensures View() == Left(old(View()), m, parts)
    {
      hide Balanced, Run, View;
      Remove(m);
      Rebalance(parts);
      RunNext(history, Step.Leave(m, parts));
      Record(Step.Leave(m, parts));
    }

    method Remove(m: MemberId)
      requires Shaped()
      modifies this`members, this`generation
      ensures Shaped() && View().beats == old(View()).beats - {m}
      ensures members.Keys == old(members).Keys - {m} && generation == old(generation) + 1
    {
      members := members - {m};
      generation := generation + 1;
    }

    method Beat(m: MemberId, now: int) returns (known: bool)
      requires Valid()
      modifies Repr
      ensures Valid() && Repr == old(Repr) && history == old(history) + [Step.Beat(m, now)]
      ensures View() == Beaten(old(View()), m, now) && known == (m in old(View()).beats)
    {
      hide Run;
      ghost var before := View();
      known := m in members;
      if known {
        var member := members[m];
        member.lastHeartbeat := now;
        assert View().beats == before.beats[m := now];
      }
      assert View() == Beaten(before, m, now);
      RunNext(history, Step.Beat(m, now));
      Record(Step.Beat(m, now));
    }

    /** One group's part of an eviction pass. */
    method Evict(now: int, timeout: int)
      requires Valid()
      modifies Repr
      ensures Valid() && Repr == old(Repr) && history == old(history) + [Step.Evict(now, timeout)]
      ensures View() == Evicted(old(View()), now, timeout)
    {
      hide Run;
      ghost var before := View();
      ghost var gone := Stale(before, now, timeout);
      var evicted := DropStale(now, timeout, gone);
      assert Shaped();
      if evicted {
        generation := generation + 1;
      }
      assert View().owners == before.owners - gone;
      assert View().beats == before.beats - gone;
      RunNext(history, Step.Evict(now, timeout));
      Record(Step.Evict(now, timeout));
    }

    /** Delete, while walking the map in any order, the members not heard in time. */
    method DropStale(now: int, timeout: int, ghost gone: set<MemberId>) returns (evicted: bool)
      requires Shaped() && gone == Stale(View(), now, timeout)
      modifies this`members
      ensures members == old(members) - gone && evicted == (gone != {})
    {
      hide Shaped, View;
      evicted := false;
      var rest := members.Keys;
      StaleMembers(now, timeout);
      while rest != {}
        invariant rest <= members.Keys <= old(members).Keys
        invariant forall m :: m in old(members) ==> (m in members <==> m in rest || m !in gone)
        invariant forall m :: m in members ==> members[m] == old(members)[m]
        invariant evicted ==> gone != {}
        invariant !evicted ==> gone <= rest
        decreases |rest|
      {
        var m :| m in rest;
        rest := rest - {m};
        if now - members[m].lastHeartbeat > timeout {
          members := members - {m};
          evicted := true;
        }
      }
    }

    lemma StaleMembers(now: int, timeout: int)
      requires Shaped()
      ensures forall m :: m in Stale(View(), now, timeout) <==> m in members && now - members[m].lastHeartbeat > timeout
    {
    }

    /** Whatever has happened to the group: no partition has two owners, if no list named one twice, and loads are
        level. */
    lemma SoundAssignment()
      requires Valid()
      ensures ListsDistinct(history) ==> NoTwoOwners(View().owners)
      ensures Level(View().owners)
    {
      if ListsDistinct(history) {
        RunHasOneOwner(history);
      }
      RunIsLevel(history);
    }
  }

  datatype HeartbeatResult = Alive | GroupNotFound | MemberNotFound

  class Coordinator {
    const sessionTimeout: int
    var groups: map<string, ConsumerGroup>
    ghost var Repr: set<object>

    ghost predicate Valid()
      reads this, Repr
    {
      && this in Repr
      && (forall g {:trigger groups[g]} :: g in groups ==> Houses(g))
      && (forall g, h {:trigger groups[g], groups[h]} :: g in groups && h in groups && g != h ==>
           Apart(groups[g], groups[h]))
    }

    ghost predicate Apart(a: ConsumerGroup, b: ConsumerGroup)
      reads a, b
    {
      a.Repr !! b.Repr
    }

    /** Group g is sound and shares nothing with the coordinator itself. */
    ghost predicate Houses(g: string)
      requires g in groups
      reads this, Repr
    {
      var group := groups[g];
      group in Repr && group in group.Repr && group.Repr <= Repr && this !in group.Repr && group.Valid()
      && group.id == g
    }

    ghost function View(): (view: map<string, Group>)
      requires Valid()
      reads this, Repr
      ensures view.Keys == groups.Keys
      ensures forall g :: g in groups ==> view[g] == groups[g].View()
    {
      map g | g in groups :: groups[g].View()
    }

    constructor (timeout: int)
      ensures Valid() && fresh(Repr) && View() == map[]
      ensures sessionTimeout == if timeout == 0 then 5_000_000_000 else timeout
    {
      sessionTimeout, groups := if timeout == 0 then 5_000_000_000 else timeout, map[];
      Repr := {this};
    }

    /** Whatever has happened to a group: no partition has two owners, if no list named one twice, and loads are
        level. */
    lemma SoundAssignments(g: string)
      requires Valid() && g in groups
      ensures ListsDistinct(groups[g].history) ==> NoTwoOwners(View()[g].owners)
      ensures Level(View()[g].owners)
    {
      assert Houses(g);
      groups[g].SoundAssignment();
    }

    /** The group of that name, made when missing. */
    method GroupFor(groupID: string) returns (group: ConsumerGroup)
      requires Valid()
      modifies this
      ensures Valid() && fresh(Repr - old(Repr)) && groupID in groups && groups[groupID] == group && group.id == groupID
      ensures View() == if groupID in old(View()) then old(View()) else old(View())[groupID := EMPTY]
    {
      hide ConsumerGroup.Valid, ConsumerGroup.View;
      if groupID in groups {
        assert Houses(groupID);
        return groups[groupID];
      }
      group := NewGroup(groupID);
    }

    method NewGroup(groupID: string) returns (group: ConsumerGroup)
      requires Valid() && groupID !in groups
      modifies this
      ensures Valid() && fresh(Repr - old(Repr)) && groupID in groups && groups[groupID] == group && group.id == groupID
      ensures View() == old(View())[groupID := EMPTY]
    {
      hide ConsumerGroup.Valid, ConsumerGroup.View, Coordinator.Valid, Coordinator.View;
      InRepr();
      group := new ConsumerGroup(groupID);
      groups := groups[groupID := group];
      Repr := Repr + group.Repr;
      GroupAdded(groupID);
    }

    lemma InRepr()
      requires Valid()
      ensures this in Repr
    {
    }

    /** A group that nothing touched is as it was. */
    twostate lemma Bystander(h: string)
      requires old(Valid()) && h in old(groups) && h in groups && groups[h] == old(groups)[h]
      requires old(Repr) <= Repr && unchanged(old(groups[h].Repr))
      ensures Houses(h) && groups[h].View() == old(View())[h] && groups[h].Repr == old(groups[h].Repr) <= old(Repr)
    {
      hide ConsumerGroup.Shaped, ConsumerGroup.View, Run;
      assert old(Houses(h));
    }

    lemma Sound()
      requires this in Repr
      requires forall g {:trigger groups[g]} :: g in groups ==> Houses(g)
      requires forall g, h {:trigger groups[g], groups[h]} :: g in groups && h in groups && g != h ==>
        Apart(groups[g], groups[h])
      ensures Valid()
    {
    }

    twostate lemma GroupAdded(groupID: string)
      requires old(Valid()) && groupID !in old(groups) && groupID in groups
      requires groups == old(groups)[groupID := groups[groupID]]
      requires var group := groups[groupID];
        && group.Valid() && group in group.Repr && group.id == groupID && fresh(group.Repr) && group.View() == EMPTY
        && Repr == old(Repr) + group.Repr && unchanged(old(Repr) - {this})
      ensures Valid() && View() == old(View())[groupID := EMPTY]
    {
      hide ConsumerGroup.Valid, ConsumerGroup.View;
      forall h | h in old(groups)
        ensures Houses(h) && groups[h].Repr == old(groups[h].Repr) && Apart(groups[groupID], groups[h])
      {
        Bystander(h);
      }
      forall g, h | g in old(groups) && h in old(groups) && g != h
        ensures Apart(groups[g], groups[h])
      {
        assert old(Apart(groups[g], groups[h]));
      }
      Sound();
      forall h | h in old(groups)
        ensures View()[h] == old(View())[h]
      {
        Bystander(h);
      }
    }

    /** One group's move leaves the coordinator sound and the other groups as they were. */
    twostate lemma GroupMoved(groupID: string)
      requires old(Valid()) && groups == old(groups) && groupID in groups
      requires groups[groupID].Valid() && old(groups[groupID].Repr) <= groups[groupID].Repr
      requires fresh(groups[groupID].Repr - old(groups[groupID].Repr))
      requires Repr == old(Repr) + groups[groupID].Repr && unchanged(old(Repr) - {this} - old(groups[groupID].Repr))
      ensures Valid() && View() == old(View())[groupID := groups[groupID].View()]
    {
      hide ConsumerGroup.Valid, ConsumerGroup.View;
      MovedSound(groupID);
      forall h | h in groups && h != groupID
        ensures View()[h] == old(View())[h]
      {
        assert old(Apart(groups[groupID], groups[h]));
        Bystander(h);
      }
    }

    twostate lemma MovedSound(groupID: string)
      requires old(Valid()) && groups == old(groups) && groupID in groups
      requires groups[groupID].Valid() && old(groups[groupID].Repr) <= groups[groupID].Repr
      requires fresh(groups[groupID].Repr - old(groups[groupID].Repr))
      requires Repr == old(Repr) + groups[groupID].Repr && unchanged(old(Repr) - {this} - old(groups[groupID].Repr))
      ensures Valid()
    {
      hide ConsumerGroup.Valid, ConsumerGroup.View;
      assert old(Houses(groupID));
      forall h | h in groups && h != groupID
        ensures Houses(h) && groups[h].Repr == old(groups[h].Repr) && Apart(groups[groupID], groups[h])
      {
        assert old(Apart(groups[groupID], groups[h]));
        Bystander(h);
      }
      forall g, h | g in groups && h in groups && g != h
        ensures Apart(groups[g], groups[h])
      {
        assert old(Apart(groups[g], groups[h]));
      }
      Sound();
    }

    /** JoinGroup: the group is rebalanced over the caller's list and the new member told its share. */
    method JoinGroup(groupID: string, memberID: MemberId, parts: seq<Partition>,
                     now: int) returns (share: seq<Partition>)
      requires Valid()
      modifies Repr
      ensures Valid() && fresh(Repr - old(Repr))
      ensures var before := if groupID in old(View()) then old(View())[groupID] else EMPTY;
        View() == old(View())[groupID := Joined(before, memberID, parts, now)]
      ensures share == View()[groupID].owners[memberID]
    {
      hide Joined, ConsumerGroup.Valid, ConsumerGroup.View, Coordinator.View, Houses;
      var group := GroupFor(groupID);
      share := Admit(group, memberID, parts, now);
    }

    method Admit(group: ConsumerGroup, memberID: MemberId, parts: seq<Partition>,
                 now: int) returns (share: seq<Partition>)
      requires Valid() && group.id in groups && groups[group.id] == group
      modifies Repr
      ensures Valid() && fresh(Repr - old(Repr))
      ensures View() == old(View())[group.id := Joined(old(View())[group.id], memberID, parts, now)]
      ensures share == View()[group.id].owners[memberID]
    {
      hide ConsumerGroup.Shaped, ConsumerGroup.View, Joined, Run;
      assert Houses(group.id);
      label before:
      group.Join(memberID, parts, now);
      Repr := Repr + group.Repr;
      GroupMoved@before(group.id);
      share := group.ShareOf(memberID);
    }

    /** LeaveGroup: the rest share the caller's list. */
    method LeaveGroup(groupID: string, memberID: MemberId, parts: seq<Partition>) returns (found: bool)
      requires Valid()
      modifies Repr
      ensures Valid() && Repr == old(Repr) && found == (groupID in old(View()))
      ensures View()
        == if found then old(View())[groupID := Left(old(View())[groupID], memberID, parts)] else old(View())
    {
      hide ConsumerGroup.Valid, ConsumerGroup.View, Left;
      found := groupID in groups;
      if found {
        assert Houses(groupID);
        label before:
        groups[groupID].Leave(memberID, parts);
        GroupMoved@before(groupID);
      }
    }

    method Heartbeat(groupID: string, memberID: MemberId, now: int) returns (r: HeartbeatResult)
      requires Valid()
      modifies Repr
      ensures Valid() && Repr == old(Repr)
      ensures r == if groupID !in old(View()) then GroupNotFound
                   else if memberID !in old(View())[groupID].beats then MemberNotFound else Alive
      ensures View()
        == if r.GroupNotFound? then old(View()) else old(View())[groupID := Beaten(old(View())[groupID], memberID, now)]
    {
      hide ConsumerGroup.Valid, ConsumerGroup.View, Beaten;
      if groupID !in groups {
        return GroupNotFound;
      }
      assert Houses(groupID);
      label before:
      var known := groups[groupID].Beat(memberID, now);
      GroupMoved@before(groupID);
      r := if known then Alive else MemberNotFound;
    }

    /** One tick of the eviction loop, over the groups in any order. */
    method EvictionPass(now: int)
      requires Valid()
      modifies Repr
      ensures Valid() && Repr == old(Repr)
      ensures View() == map g | g in old(View()) :: Evicted(old(View())[g], now, sessionTimeout)
    {
      hide Coordinator.Valid, Coordinator.View, Evicted, ConsumerGroup.View, ConsumerGroup.Valid, PassedOver;
      ghost var before := View();
      var rest := groups.Keys;
      PassStarts(before, now, sessionTimeout);
      while rest != {}
        invariant Valid() && Repr == old(Repr) && groups == old(groups) && rest <= groups.Keys
        invariant View() == PassedOver(before, rest, now, sessionTimeout)
        decreases |rest|
      {
        var g :| g in rest;
        PassNext(before, rest, g, now, sessionTimeout);
        rest := rest - {g};
        EvictFrom(g, now);
      }
      PassEnds(before, now, sessionTimeout);
    }

    method EvictFrom(groupID: string, now: int)
      requires Valid() && groupID in groups
      modifies Repr
      ensures Valid() && Repr == old(Repr) && groups == old(groups)
      ensures View() == old(View())[groupID := Evicted(old(View())[groupID], now, sessionTimeout)]
    {
      hide ConsumerGroup.Valid, ConsumerGroup.View, Evicted;
      assert Houses(groupID);
      label before:
      groups[groupID].Evict(now, sessionTimeout);
      GroupMoved@before(groupID);
    }
  }

  /** The owners once the members in done have been cleared. */
  ghost function Blanked(owners: map<MemberId, seq<Partition>>, done: set<MemberId>): map<MemberId, seq<Partition>> {
    map m | m in owners :: if m in done then [] else owners[m]
  }

  lemma BlankNext(owners: map<MemberId, seq<Partition>>, done: set<MemberId>, m: MemberId)
    requires m in owners
    ensures Blanked(owners, done)[m := []] == Blanked(owners, done + {m})
  {
  }

  lemma NothingBlanked(owners: map<MemberId, seq<Partition>>)
    ensures Blanked(owners, {}) == owners
  {
  }

  lemma AllBlanked(owners: map<MemberId, seq<Partition>>)
    ensures Blanked(owners, owners.Keys) == map m | m in owners.Keys :: []
  {
  }

  /** The groups partway through an eviction pass: those in rest are still to come. */
  ghost function PassedOver(view: map<string, Group>, rest: set<string>, now: int, timeout: int): map<string, Group> {
    map g | g in view :: if g in rest then view[g] else Evicted(view[g], now, timeout)
  }

  lemma PassStarts(view: map<string, Group>, now: int, timeout: int)
    ensures PassedOver(view, view.Keys, now, timeout) == view
  {
  }

  lemma PassNext(view: map<string, Group>, rest: set<string>, g: string, now: int, timeout: int)
    requires g in rest && g in view
    ensures PassedOver(view, rest, now, timeout)[g] == view[g]
    ensures PassedOver(view, rest, now, timeout)[g := Evicted(view[g], now, timeout)]
      == PassedOver(view, rest - {g}, now, timeout)
  {
    hide Evicted;
  }

  lemma PassEnds(view: map<string, Group>, now: int, timeout: int)
    ensures PassedOver(view, {}, now, timeout) == map g | g in view :: Evicted(view[g], now, timeout)
  {
    hide Evicted;
  }

  lemma NoneRepeated()
    ensures Distinct<MemberId>([])
  {
  }

  lemma SortedIds(listing: seq<MemberId>)
    requires Distinct(listing)
    ensures var ids := Sort(Before, listing);
      Sorted(Before, ids) && Distinct(ids) && forall m :: m in ids <==> m in listing
  {
    BeforeOrders();
    SortSorted(Before, listing);
    SortDistinct(Before, listing);
  }

  lemma EmptyShare(n: nat)
    requires n > 0
    ensures forall k :: Share([], n, k) == []
  {
  }
}
