/** Over any run: the members of a group's security groups are those its events give it. */
module MemberHistory {
  import opened PolicyTypes
  import opened PendingGroups
  import opened GroupMachine
  import opened GroupInvariants
  import opened GroupProgress
  import opened GroupMembers
  import opened EventOutcomes

  // ---------------------------------------------------------------- the history of a group

  /** The events of one group. */
  function History(events: seq<Event>, name: GroupName): seq<GroupEvent> {
    if events == [] then []
    else
      var before, e := History(events[..|events| - 1], name), events[|events| - 1];
      if e.MemberEvent? && e.group == name then before + [e.event] else before
  }

  /** The members of a group, which may not exist. */
  function Roll(group: Option<map<MemberKey, Member>>): set<MemberKey> {
    if group.Some? then group.value.Keys else {}
  }

  /** The members after an event, given those before it. */
  function NextRoll(roll: set<MemberKey>, e: GroupEvent): set<MemberKey> {
    match e.kind
    case Added => Keys(e.added)
    case Modified => roll - Keys(e.removed) + Keys(e.added)
    case Deleted => {}
    case Bookmark => roll
  }

  lemma {:induction false} UpsertRoll(group: map<MemberKey, Member>, ms: seq<Member>)
    ensures Upsert(group, ms).Keys == group.Keys + Keys(ms)
  {
    if ms != [] {
      UpsertRoll(group, ms[..|ms| - 1]);
      assert ms == ms[..|ms| - 1] + [ms[|ms| - 1]];
    }
  }

  lemma RollNext(group: Option<map<MemberKey, Member>>, e: GroupEvent)
    requires Follows(group, e)
    ensures Roll(Apply(group, e)) == NextRoll(Roll(group), e)
  {
    UpsertRoll(map[], e.added);
    if e.kind == Modified {
      UpsertRoll(group.value - Keys(e.removed), e.added);
    }
  }

  // ---------------------------------------------------------------- machines

  /** The machines of one VPC among members. */
  function MachinesOf(world: World, keys: set<MemberKey>, vpc: string): set<string> {
    set k | k in keys && k in world && world[k].Vm? && world[k].vpc == vpc :: world[k].resource
  }

  /** No machine is a member under two keys. */
  ghost predicate Distinct(world: World) {
    forall j, k :: j in world && k in world && world[j].Vm? && world[k].Vm? && world[j] == world[k] ==> j == k
  }

  /** Members exist, and are seen for what they are. */
  ghost predicate Seen(world: World, truth: World, keys: set<MemberKey>) {
    forall k :: k in keys ==> k in world && k in truth && world[k] == truth[k] && !truth[k].Broken?
  }

  lemma MachinesSeen(world: World, truth: World, members: seq<Member>, vpc: string)
    requires Seen(world, truth, Keys(members))
    ensures Machines(world, members, vpc) == MachinesOf(truth, Keys(members), vpc)
  {
    forall r ensures r in Machines(world, members, vpc) <==> r in MachinesOf(truth, Keys(members), vpc) {
      if r in Machines(world, members, vpc) {
        var m :| m in members && m.key in world && world[m.key].Vm? && world[m.key].vpc == vpc &&
            world[m.key].resource == r;
        assert m.key in Keys(members);
      }
      if r in MachinesOf(truth, Keys(members), vpc) {
        var k :| k in Keys(members) && k in truth && truth[k].Vm? && truth[k].vpc == vpc && truth[k].resource == r;
        var m :| m in members && m.key == k;
        assert world[m.key].resource == r;
      }
    }
  }

  lemma MachinesApart(world: World, a: set<MemberKey>, b: set<MemberKey>, vpc: string)
    requires Distinct(world) && a !! b
    ensures MachinesOf(world, a, vpc) !! MachinesOf(world, b, vpc)
  {
    forall r | r in MachinesOf(world, a, vpc) ensures r !in MachinesOf(world, b, vpc) {
      var j :| j in a && j in world && world[j].Vm? && world[j].vpc == vpc && world[j].resource == r;
      forall k | k in b && k in world && world[k].Vm? && world[k].vpc == vpc ensures world[k].resource != r {
        assert k != j && world[k] != world[j];
      }
    }
  }

  /** Machines leave and join as members do exactly if none that leaves stays under another key. */
  lemma MachinesNextExact(world: World, keys: set<MemberKey>, removed: set<MemberKey>, added: set<MemberKey>,
                          vpc: string)
    ensures MachinesOf(world, keys - removed + added, vpc) ==
            MachinesOf(world, keys, vpc) - MachinesOf(world, removed, vpc) + MachinesOf(world, added, vpc) <==>
            MachinesOf(world, keys - removed, vpc) * MachinesOf(world, removed, vpc) <= MachinesOf(world, added, vpc)
  {
    var stay, left, join := MachinesOf(world, keys - removed, vpc), MachinesOf(world, removed, vpc),
        MachinesOf(world, added, vpc);
    MachinesSum(world, keys - removed, added, vpc);
    MachinesSum(world, keys - removed, keys * removed, vpc);
    assert keys - removed + keys * removed == keys;
    MachinesSum(world, keys * removed, removed, vpc);
    assert keys * removed + removed == removed;
    hide MachinesOf;
    var after := MachinesOf(world, keys, vpc) - left + join;
    if stay * left <= join {
      forall r ensures r in stay + join <==> r in after {}
    } else {
      var r :| r in stay * left && r !in join;
      assert r !in after && r in stay + join;
    }
  }

  /** Machines leave and join as members do. */
  lemma MachinesNext(world: World, keys: set<MemberKey>, removed: set<MemberKey>, added: set<MemberKey>, vpc: string)
    requires Distinct(world)
    ensures MachinesOf(world, keys - removed + added, vpc) ==
            MachinesOf(world, keys, vpc) - MachinesOf(world, removed, vpc) + MachinesOf(world, added, vpc)
  {
    MachinesApart(world, keys - removed, removed, vpc);
    MachinesNextExact(world, keys, removed, added, vpc);
  }

  lemma MachinesSum(world: World, a: set<MemberKey>, b: set<MemberKey>, vpc: string)
    ensures MachinesOf(world, a + b, vpc) == MachinesOf(world, a, vpc) + MachinesOf(world, b, vpc)
  {
  }

  // ---------------------------------------------------------------- what a state has of a group

  /** The object of a VPC has just the given members; without any, it need not be filed. */
  predicate Listed(s: State, id: Id, members: set<string>) {
    if id in s.index then Stable(s, id) && s.groups[s.index[id]].members == members else members == {}
  }

  /** The machines of a group are, VPC by VPC, the members of its security groups. */
  ghost predicate Lists(s: State, name: GroupName, truth: World, keys: set<MemberKey>) {
    forall vpc :: Listing(s, Id(name.kind, name.name, vpc), MachinesOf(truth, keys, vpc))
  }

  predicate Listing(s: State, id: Id, members: set<string>) {
    !id.IpBlocks() ==> Listed(s, id, members)
  }

  ghost predicate SameMachines(truth: World, a: set<MemberKey>, b: set<MemberKey>, name: GroupName) {
    forall vpc :: SameIn(truth, a, b, Id(name.kind, name.name, vpc))
  }

  predicate SameIn(truth: World, a: set<MemberKey>, b: set<MemberKey>, id: Id) {
    !id.IpBlocks() ==> MachinesOf(truth, a, id.vpc) == MachinesOf(truth, b, id.vpc)
  }

  /**
   A state has the members of a group: in its security groups, or, while its deletion is pending, among what is kept for
   later.
   */
  ghost predicate Tallies(s: State, name: GroupName, truth: World, keys: set<MemberKey>) {
    && GroupKey(name) !in s.retryQueue
    && if name in s.pendingDelete then SameMachines(truth, s.pendingDelete[name].added.Keys, keys, name)
       else Lists(s, name, truth, keys)
  }

  /** While the deletion of a group is pending, all that is filed for it is to go, and none of its Deletes counts. */
  ghost predicate Parted(s: State, name: GroupName) {
    name in s.pendingDelete ==>
      forall id :: id in s.index && id.Group() == name && !id.IpBlocks() ==>
          !Stable(s, id) && RefCnt(s.pendingDelete, name) <= 0
  }

  /**
   Members are seen for what they are when they are looked up, none is both added and removed, and events of the group
   of the same name and the other kind miss none.
   */
  ghost predicate Regular(s: State, e: Event, name: GroupName, truth: World) {
    match e
    case MemberEvent(g, event, world) =>
      && (g == name ==>
            && Seen(world, truth, Keys(event.added)) && Seen(world, truth, Keys(event.removed))
            && Keys(event.added) !! Keys(event.removed))
      && (g != name && g.name == name.name ==> Missing(world, event) == {})
    case Response(i, _, _, world) =>
      i < |s.inflight| && s.inflight[i].id.Group() == name && name in s.pendingDelete ==>
        Seen(world, truth, s.pendingDelete[name].added.Keys)
    case _ => true
  }

  // ---------------------------------------------------------------- one event

  /** Events that do not concern a group leave it as it is. */
  lemma TallyCalm(s: State, t: State, but: set<GroupName>, name: GroupName, truth: World, keys: set<MemberKey>)
    requires Calm(s, t, but) && name !in but && !t.past.overlapped && Tallies(s, name, truth, keys) && Parted(t, name)
    ensures Tallies(t, name, truth, keys)
  {
    assert SameShelf(s, t, name);
    hide MachinesOf;
    if name !in s.pendingDelete {
      forall vpc ensures CalmListing(s, t, Id(name.kind, name.name, vpc), MachinesOf(truth, keys, vpc)) {
        var id := Id(name.kind, name.name, vpc);
        assert Listing(s, id, MachinesOf(truth, keys, vpc));
        assert id.Group() == name;
      }
      if name in t.pendingDelete {
        forall vpc ensures SameIn(truth, t.pendingDelete[name].added.Keys, keys, Id(name.kind, name.name, vpc)) {
          assert CalmListing(s, t, Id(name.kind, name.name, vpc), MachinesOf(truth, keys, vpc));
          NoMachines(truth, vpc);
        }
      } else {
        forall vpc ensures Listing(t, Id(name.kind, name.name, vpc), MachinesOf(truth, keys, vpc)) {
          assert CalmListing(s, t, Id(name.kind, name.name, vpc), MachinesOf(truth, keys, vpc));
        }
      }
    }
  }

  predicate CalmListing(s: State, t: State, id: Id, members: set<string>) {
    !id.IpBlocks() ==> Listed(t, id, members) && (id.Group() in t.pendingDelete ==> members == {})
  }

  lemma NoMachines(truth: World, vpc: string)
    ensures MachinesOf(truth, {}, vpc) == {}
  {
  }

  /** An event kept for later. */
  lemma TallyBuffer(s: State, t: State, name: GroupName, e: GroupEvent, truth: World, keys: set<MemberKey>)
    requires Distinct(truth) && Tallies(s, name, truth, keys) && name in s.pendingDelete && e.kind != Bookmark
    requires t.pendingDelete == Buffer(s, name, e).pendingDelete && t.retryQueue.Keys <= s.retryQueue.Keys
    requires e.kind == Added ==> keys == {} && e.removed == []
    ensures Tallies(t, name, truth, NextRoll(keys, e))
  {
    var p := s.pendingDelete[name];
    CoalesceRoll(p, e);
    hide Coalesce, MachinesOf, Keys;
    forall vpc ensures SameIn(truth, Coalesce(p, e).added.Keys, NextRoll(keys, e), Id(name.kind, name.name, vpc)) {
      assert SameIn(truth, p.added.Keys, keys, Id(name.kind, name.name, vpc));
      MachinesNext(truth, p.added.Keys, Keys(e.removed), Keys(e.added), vpc);
      MachinesNext(truth, keys, Keys(e.removed), Keys(e.added), vpc);
      AddedRoll(keys, e);
    }
  }

  lemma AddedRoll(keys: set<MemberKey>, e: GroupEvent)
    requires e.kind == Added ==> keys == {} && e.removed == []
    ensures e.kind == Added ==> NextRoll(keys, e) == keys - Keys(e.removed) + Keys(e.added)
  {
  }

  lemma CoalesceRoll(p: PendingGroup, e: GroupEvent)
    requires e.kind != Bookmark
    ensures Coalesce(p, e).added.Keys ==
            if e.kind == Deleted then {} else p.added.Keys - Keys(e.removed) + Keys(e.added)
  {
    var named := if p.event.None? then p.(event := Some(e.kind)) else p;
    RemovedRoll(named, e.removed);
    AddedAllRoll(RemoveAll(named, e.removed), e.added);
  }

  lemma {:induction false} RemovedRoll(p: PendingGroup, ms: seq<Member>)
    ensures RemoveAll(p, ms).added.Keys == p.added.Keys - Keys(ms)
  {
    if ms != [] {
      RemovedRoll(p, ms[..|ms| - 1]);
      assert ms == ms[..|ms| - 1] + [ms[|ms| - 1]];
    }
  }

  lemma {:induction false} AddedAllRoll(p: PendingGroup, ms: seq<Member>)
    ensures AddAll(p, ms).added.Keys == p.added.Keys + Keys(ms)
  {
    if ms != [] {
      AddedAllRoll(p, ms[..|ms| - 1]);
      assert ms == ms[..|ms| - 1] + [ms[|ms| - 1]];
    }
  }

  /** A deletion. */
  lemma TallyRetire(s: State, t: State, name: GroupName, truth: World)
    requires Retired(s, t, name) && name !in s.pendingDelete && GroupKey(name) !in t.retryQueue
    ensures Tallies(t, name, truth, {})
  {
    hide Withdrawn;
    forall vpc ensures MachinesOf(truth, {}, vpc) == {} {}
    if name !in t.pendingDelete {
      forall vpc ensures Listing(t, Id(name.kind, name.name, vpc), MachinesOf(truth, {}, vpc)) {
        var id := Id(name.kind, name.name, vpc);
        if !id.IpBlocks() && id in t.index {
          assert id.Group() == name && Withdrawn(s, t, id);
          WithdrawnExpected(s, t, id);
        }
      }
    }
  }

  lemma WithdrawnExpected(s: State, t: State, id: Id)
    requires id in s.index && s.index[id] in s.groups && Withdrawn(s, t, id) && !id.IpBlocks()
    ensures id.Group() in t.pendingDelete
  {
  }

  /** An event whose members find their security groups. */
  lemma ListsNext(s: State, t: State, name: GroupName, e: GroupEvent, world: World, truth: World, keys: set<MemberKey>)
    requires Distinct(truth) && Lists(s, name, truth, keys) && Attended(s, t, name, world, e)
    requires e.kind == Modified || e.removed == []
    requires Seen(world, truth, Keys(e.added)) && Seen(world, truth, Keys(e.removed))
    requires Keys(e.added) !! Keys(e.removed)
    ensures Lists(t, name, truth, keys - Keys(e.removed) + Keys(e.added))
  {
    NoneMissing(world, truth, e);
    hide Machines, MachinesOf, Served, Keys, Seen;
    forall vpc ensures Listing(t, Id(name.kind, name.name, vpc),
                               MachinesOf(truth, keys - Keys(e.removed) + Keys(e.added), vpc)) {
      var id := Id(name.kind, name.name, vpc);
      if !id.IpBlocks() {
        assert Listing(s, id, MachinesOf(truth, keys, vpc));
        assert Served(s, t, id, Missing(world, e), Machines(world, e.added, vpc), Leavers(world, e, vpc));
        MachinesSeen(world, truth, e.added, vpc);
        LeaversSeen(world, truth, e, vpc);
        MachinesNext(truth, keys, Keys(e.removed), Keys(e.added), vpc);
        MachinesApart(truth, Keys(e.added), Keys(e.removed), vpc);
        ServedListed(s, t, id, MachinesOf(truth, keys, vpc), MachinesOf(truth, Keys(e.added), vpc),
                     MachinesOf(truth, Keys(e.removed), vpc));
      }
    }
  }

  lemma NoneMissing(world: World, truth: World, e: GroupEvent)
    requires Seen(world, truth, Keys(e.removed))
    ensures Missing(world, e) == {}
  {
    assert forall m :: m in e.removed ==> m.key in Keys(e.removed);
  }

  lemma LeaversSeen(world: World, truth: World, e: GroupEvent, vpc: string)
    requires Seen(world, truth, Keys(e.removed)) && (e.kind == Modified || e.removed == [])
    ensures Leavers(world, e, vpc) == MachinesOf(truth, Keys(e.removed), vpc)
  {
    MachinesSeen(world, truth, e.removed, vpc);
  }

  lemma ServedListed(s: State, t: State, id: Id, members: set<string>, added: set<string>, removed: set<string>)
    requires Listed(s, id, members) && Served(s, t, id, {}, added, removed) && added !! removed
    ensures Listed(t, id, members - removed + added)
  {
    hide Tells, News, Vanished;
    if id in s.index {
      SparesAll(members);
      AfterExact(members, true, added, removed);
    } else {
      AfterExact({}, false, added, removed);
    }
  }

  lemma SparesAll(members: set<string>)
    ensures Spared(members, {}) == members
  {
  }

  /** A member event of the group. */
  lemma TallyMember(s: State, t: State, name: GroupName, e: GroupEvent, world: World, truth: World,
                    keys: set<MemberKey>)
    requires Distinct(truth) && Tallies(s, name, truth, keys) && Enrolled(s, t, name, e, world) && e.kind != Bookmark
    requires e.kind == Added ==> keys == {} && e.removed == []
    requires Seen(world, truth, Keys(e.added)) && Seen(world, truth, Keys(e.removed))
    requires Keys(e.added) !! Keys(e.removed)
    ensures Tallies(t, name, truth, NextRoll(keys, e))
  {
    hide Lists, SameMachines, Attended, Addressed, Filed, Retired, Shelved, Coalesce, Keys;
    if name in s.pendingDelete {
      TallyBuffer(s, t, name, e, truth, keys);
    } else if e.kind == Deleted {
      TallyRetire(s, t, name, truth);
    } else {
      AllResolved(world, truth, e);
      ListsNext(s, t, name, e, world, truth, keys);
      AddedRoll(keys, e);
    }
  }

  lemma AllResolved(world: World, truth: World, e: GroupEvent)
    requires Seen(world, truth, Keys(e.added)) && Seen(world, truth, Keys(e.removed))
    ensures !Unresolved(world, e)
  {
    assert forall m :: m in e.removed ==> m.key in Keys(e.removed);
    assert forall m :: m in e.added ==> m.key in Keys(e.added);
  }

  lemma ListsSame(s: State, name: GroupName, truth: World, a: set<MemberKey>, b: set<MemberKey>)
    requires Lists(s, name, truth, a) && SameMachines(truth, a, b, name)
    ensures Lists(s, name, truth, b)
  {
    hide MachinesOf, Listed;
    forall vpc ensures Listing(s, Id(name.kind, name.name, vpc), MachinesOf(truth, b, vpc)) {
      assert Listing(s, Id(name.kind, name.name, vpc), MachinesOf(truth, a, vpc));
      assert SameIn(truth, a, b, Id(name.kind, name.name, vpc));
    }
  }

  lemma ListsNone(s: State, name: GroupName, truth: World)
    requires forall id :: id in s.index && id.Group() == name ==> id.IpBlocks()
    ensures Lists(s, name, truth, {})
  {
    forall vpc ensures Listing(s, Id(name.kind, name.name, vpc), MachinesOf(truth, {}, vpc)) {
      assert Id(name.kind, name.name, vpc).Group() == name;
      NoMachines(truth, vpc);
    }
  }

  /** What was kept for a group without security groups is replayed. */
  lemma TallyReplay(s: State, t: State, name: GroupName, p: PendingGroup, world: World, done: bool, truth: World,
                    keys: set<MemberKey>)
    requires Distinct(truth) && name !in s.pendingDelete && GroupKey(name) !in s.retryQueue && Proper(p)
    requires forall id :: id in s.index && id.Group() == name ==> id.IpBlocks()
    requires Seen(world, truth, p.added.Keys) && SameMachines(truth, p.added.Keys, keys, name)
    requires Replayed(s, t, name, p, world, done)
    ensures Tallies(t, name, truth, keys)
  {
    ListsNone(s, name, truth);
    if p.added != map[] {
      var members :| Redone(s, t, name, p, world, done, members);
      var e := GroupEvent(p.event.value, members, []);
      ReplayedKeys(p, members);
      assert Keys([]) == {};
      hide Lists, SameMachines, Attended, Addressed, Filed, Shelved, Coalesce, Keys, Seen;
      AllResolved(world, truth, e);
      ListsNext(s, t, name, e, world, truth, {});
      assert {} - {} + Keys(members) == p.added.Keys;
    }
    hide Lists, SameMachines;
    ListsSame(t, name, truth, p.added.Keys, keys);
  }

  lemma ReplayedKeys(p: PendingGroup, members: seq<Member>)
    requires Keyed(p.added) && forall m :: m in members <==> m.key in p.added && p.added[m.key] == m
    ensures Keys(members) == p.added.Keys
  {
    forall k | k in p.added ensures k in Keys(members) {
      assert p.added[k] in members;
    }
  }

  /** The answer to a Delete of the group. */
  lemma TallyDelete(s: State, t: State, i: nat, failed: bool, world: World, name: GroupName, truth: World,
                    keys: set<MemberKey>)
    requires Settled(s) && i < |s.inflight| && s.inflight[i].what.DeleteCall? && s.inflight[i].id.Group() == name
    requires Distinct(truth) && Tallies(s, name, truth, keys) && Parted(s, name) && !t.past.overlapped
    requires name in s.pendingDelete ==> Seen(world, truth, s.pendingDelete[name].added.Keys)
    requires Undone(s, t, i, failed, world)
    ensures Tallies(t, name, truth, keys)
  {
    hide Settled, Inv, Evolves, Noticed, Uncounted, SameMachines, Lists, Seen, WillRetry;
    SettledLeft(s);
    InflightLive(s, i);
    CountedOnce(s, i);
    var u :| UndoneVia(s, u, t, i, failed, world);
    assert SameShelf(s, u, name);
    TallyCount(u, t, i, !WillRetry(u, SgKey(s.inflight[i].id)), world, name, truth, keys);
  }

  lemma TallyCount(s: State, t: State, i: nat, runOnClear: bool, world: World, name: GroupName, truth: World,
                   keys: set<MemberKey>)
    requires i < |s.inflight| && s.inflight[i].id.Group() == name && name in s.pendingDelete && Inv(s)
    requires Distinct(truth) && GroupKey(name) !in s.retryQueue
    requires forall id :: id in s.index && id.Group() == name ==> id.IpBlocks()
    requires SameMachines(truth, s.pendingDelete[name].added.Keys, keys, name)
    requires Seen(world, truth, s.pendingDelete[name].added.Keys) && Uncounted(s, t, i, runOnClear, world)
    ensures Tallies(t, name, truth, keys)
  {
    PendingProper(s, name);
    hide Inv, Replayed, SameMachines, Lists, Seen;
    var u := GroupMachine.CountDown(s, i, runOnClear);
    if !(RefCnt(s.pendingDelete, name) > 1 || !runOnClear) {
      var v, p := u.(pendingDelete := u.pendingDelete - {name}), u.pendingDelete[name];
      var done :| Replayed(v, t, name, p, world, done);
      TallyReplay(v, t, name, p, world, done, truth, keys);
    }
  }

  // ---------------------------------------------------------------- any run

  /** One event of a run. */
  lemma TallyStep(s: State, e: Event, t: State, name: GroupName, truth: World, keys: set<MemberKey>)
    requires Settled(s) && LeadsTo(s, e, t) && !t.past.overlapped && e.Dispatched()
    requires Distinct(truth) && Regular(s, e, name, truth) && Parted(s, name) && Parted(t, name)
    requires Tallies(s, name, truth, keys)
    requires e.MemberEvent? && e.group == name && e.event.kind == Added ==> keys == {} && e.event.removed == []
    ensures Tallies(t, name, truth, if e.MemberEvent? && e.group == name then NextRoll(keys, e.event) else keys)
  {
    hide Settled, Advances, Calm, Tallies, Parted, Enrolled, Undone, Replied, Ticked, Probed, Resynced, Announced;
    if e.MemberEvent? && e.group == name {
      TallyMember(s, t, name, e.event, e.world, truth, keys);
    } else if e.Response? && e.call < |s.inflight| && s.inflight[e.call].what.DeleteCall? &&
              s.inflight[e.call].id.Group() == name {
      TallyDelete(s, t, e.call, e.failed, e.world, name, truth, keys);
    } else {
      NotStirred(s, e, name, truth, keys);
      TallyCalm(s, t, Stirs(s, e), name, truth, keys);
    }
  }

  lemma NotStirred(s: State, e: Event, name: GroupName, truth: World, keys: set<MemberKey>)
    requires Regular(s, e, name, truth) && Tallies(s, name, truth, keys) && !(e.MemberEvent? && e.group == name)
    requires e.Response? && e.call < |s.inflight| && s.inflight[e.call].what.DeleteCall? ==>
               s.inflight[e.call].id.Group() != name
    ensures name !in Stirs(s, e)
  {
    hide Lists, SameMachines;
  }

  /**
   The members of a group over any run from a state that has them. Whatever else happens, its security groups have, VPC
   by VPC, just the machines its events give it, or, while its deletion is pending, just those are kept for later.
   */
  lemma {:induction false} MembersTally(states: seq<State>, events: seq<Event>, name: GroupName, truth: World)
    requires Chronicle(states, events) && (forall i :: 0 <= i < |events| ==> events[i].Dispatched())
    requires Distinct(truth) && WellFormed(History(events, name))
    requires forall i :: 0 <= i < |events| ==> Regular(states[i], events[i], name, truth)
    requires forall i :: 0 <= i <= |events| ==> Parted(states[i], name)
    requires Tallies(states[0], name, truth, {}) && !states[|events|].past.overlapped
    ensures Tallies(states[|events|], name, truth, Roll(ApplyAll(History(events, name))))
  {
    hide LeadsTo, Settled, Tallies, Parted, Regular;
    if events != [] {
      var n := |events| - 1;
      var front, e := events[..n], events[n];
      ChroniclePrefix(states, events);
      LeadsOn(states[n], e, states[n + 1]);
      OverlapBefore(states[n], states[n + 1]);
      HistoryPrefix(events, name);
      MembersTally(states[..n + 1], front, name, truth);
      var keys := Roll(ApplyAll(History(front, name)));
      if e.MemberEvent? && e.group == name {
        HistoryNext(events, name);
        RollNext(ApplyAll(History(front, name)), e.event);
      }
      hide History;
      TallyStep(states[n], e, states[n + 1], name, truth, keys);
    }
  }

  lemma ChroniclePrefix(states: seq<State>, events: seq<Event>)
    requires Chronicle(states, events) && events != []
    ensures Chronicle(states[..|events|], events[..|events| - 1]) && Settled(states[|events| - 1])
    ensures LeadsTo(states[|events| - 1], events[|events| - 1], states[|events|])
  {
    hide LeadsTo, Settled;
    var n := |events| - 1;
    if n > 0 {
      LeadsOn(states[n - 1], events[n - 1], states[n]);
    }
  }

  lemma OverlapBefore(s: State, t: State)
    requires Advances(s, t) && !t.past.overlapped
    ensures !s.past.overlapped
  {
    hide Patient;
  }

  lemma HistoryPrefix(events: seq<Event>, name: GroupName)
    requires events != [] && WellFormed(History(events, name))
    ensures WellFormed(History(events[..|events| - 1], name))
  {
    var front, all := History(events[..|events| - 1], name), History(events, name);
    forall i | 0 <= i < |front| ensures Follows(ApplyAll(front[..i]), front[i]) {
      assert front[..i] == all[..i] && front[i] == all[i];
    }
  }

  lemma HistoryNext(events: seq<Event>, name: GroupName)
    requires events != [] && WellFormed(History(events, name))
    requires events[|events| - 1].MemberEvent? && events[|events| - 1].group == name
    ensures var front, e := History(events[..|events| - 1], name), events[|events| - 1].event;
            Follows(ApplyAll(front), e) && ApplyAll(History(events, name)) == Apply(ApplyAll(front), e)
  {
    var front, e := History(events[..|events| - 1], name), events[|events| - 1].event;
    assert (front + [e])[..|front|] == front;
    assert History(events, name)[|front|] == e;
  }

  // ---------------------------------------------------------------- groups that wait

  /** A Delete of the group is answered. */
  ghost predicate AnswersDelete(s: State, e: Event, name: GroupName) {
    && e.Response? && e.call < |s.inflight| && s.inflight[e.call].what.DeleteCall?
    && s.inflight[e.call].id.Group() == name
  }

  /** What is filed for a group and is not about to go stays as it is, and nothing is filed for it. */
  ghost predicate Halted(s: State, t: State, name: GroupName) {
    && (forall id :: id in t.index && id.Group() == name ==> id in s.index)
    && (forall id: Id :: id.Group() == name && Stable(s, id) ==>
          && Stable(t, id) && t.index[id] == s.index[id]
          && t.groups[t.index[id]].members == s.groups[s.index[id]].members)
  }

  lemma HaltedTrans(s: State, t: State, u: State, name: GroupName)
    requires Halted(s, t, name) && Halted(t, u, name)
    ensures Halted(s, u, name)
  {
  }

  /** Meanwhile its security groups have the members they should exactly if its events change no machines. */
  lemma HaltedExact(s: State, t: State, name: GroupName, truth: World, keys: set<MemberKey>, later: set<MemberKey>)
    requires Lists(s, name, truth, keys) && Halted(s, t, name)
    ensures Lists(t, name, truth, later) <==> SameMachines(truth, keys, later, name)
  {
    hide MachinesOf;
    forall vpc ensures var id := Id(name.kind, name.name, vpc);
                       Listing(t, id, MachinesOf(truth, later, vpc)) <==> SameIn(truth, keys, later, id) {
      var id := Id(name.kind, name.name, vpc);
      assert Listing(s, id, MachinesOf(truth, keys, vpc)) && id.Group() == name;
    }
    if Lists(t, name, truth, later) {
      forall vpc ensures SameIn(truth, keys, later, Id(name.kind, name.name, vpc)) {
        assert Listing(t, Id(name.kind, name.name, vpc), MachinesOf(truth, later, vpc));
      }
    }
  }

  lemma HaltedStep(s: State, e: Event, t: State, name: GroupName)
    requires LeadsTo(s, e, t) && name in s.pendingDelete && !AnswersDelete(s, e, name) && !t.past.overlapped
    requires e.MemberEvent? && e.group != name ==> name !in Concerns(e.group, e.event, e.world)
    requires GroupKey(name) !in s.retryQueue
    ensures name in t.pendingDelete && GroupKey(name) !in t.retryQueue && Halted(s, t, name)
  {
    hide Settled, Advances, Retired, Attended, Addressed, Filed, Shelved, Answered, Ticked, Probed, Resynced, Announced;
    if !(e.MemberEvent? && e.group == name) {
      assert SameShelf(s, t, name);
    }
  }

  /**
   As long as no Delete of a group whose deletion is pending is answered, its events reach none of its security groups:
   whatever they add and remove, those that are not about to go keep the members they have.
   */
  lemma {:induction false} DeletionPends(states: seq<State>, events: seq<Event>, name: GroupName)
    requires Chronicle(states, events) && name in states[0].pendingDelete && GroupKey(name) !in states[0].retryQueue
    requires forall i :: 0 <= i < |events| ==> !AnswersDelete(states[i], events[i], name)
    requires forall i :: 0 <= i < |events| && events[i].MemberEvent? && events[i].group != name ==>
               name !in Concerns(events[i].group, events[i].event, events[i].world)
    requires !states[|events|].past.overlapped
    ensures var t := states[|events|];
            name in t.pendingDelete && GroupKey(name) !in t.retryQueue && Halted(states[0], t, name)
  {
    hide LeadsTo, Settled, AnswersDelete;
    if events != [] {
      var n := |events| - 1;
      ChroniclePrefix(states, events);
      LeadsOn(states[n], events[n], states[n + 1]);
      OverlapBefore(states[n], states[n + 1]);
      DeletionPends(states[..n + 1], events[..n], name);
      HaltedStep(states[n], events[n], states[n + 1], name);
      hide Halted;
      HaltedTrans(states[0], states[n], states[n + 1], name);
    }
  }

  /**
   A synchronization that finds a security group only the cloud has makes the deletion of its group pending, although
   the group may exist and policies may name it.
   */
  lemma ForeignPends(s: State, e: Event, t: State, id: Id, c: CloudGroup)
    requires LeadsTo(s, e, t) && e.Synchronize? && s.bookmarks >= SYNC_READY_BOOKMARKS
    requires (id, c) in e.found && id !in s.index && !id.IpBlocks()
    ensures id.Group() in t.pendingDelete
  {
    hide Settled, Advances, Calm, DeleteSent, CaughtUp, SweptSince, Namers;
  }

  /** A deletion that waited for policies has been carried out by the time none names the group any more. */
  lemma DeferredGone(s: State, t: State, r: Ref)
    requires Settled(t) && Advances(s, t) && !t.past.overlapped && r in s.groups && s.groups[r].deletePending
    requires Namers(t.policies, s.groups[r].id.Group()) == {}
    ensures forall id :: id in t.index ==> t.index[id] != r
  {
    hide Inv, Patient, Stale, Namers;
    SettledLeft(t);
    IndexLinked(t);
    forall id | id in t.index && t.index[id] == r ensures id in Orphans(t.index, t.groups, t.policies) {}
  }

  /** A reconciler just started has the members of groups that do not exist. */
  lemma StartTallies(name: GroupName, truth: World)
    ensures Tallies(EMPTY, name, truth, {}) && Parted(EMPTY, name)
  {
    ListsNone(EMPTY, name, truth);
  }
}
