/** What each event does to the reconciler, from the state before it to the state after it, and over whole runs. */
module EventOutcomes {
  import opened PolicyTypes
  import opened PendingGroups
  import opened GroupMachine
  import opened GroupInvariants
  import opened GroupProgress
  import opened GroupMembers

  // ---------------------------------------------------------------- the members of a group

  /** Every machine among the members has a security group of its VPC. */
  ghost predicate Filed(index: map<Id, Ref>, name: GroupName, world: World, members: seq<Member>) {
    forall m :: m in members && m.key in world && world[m.key].Vm? ==>
        Id(name.kind, name.name, world[m.key].vpc) in index
  }

  function BothKinds(name: string): set<GroupName> {
    {GroupName(Addr, name), GroupName(AppliedTo, name)}
  }

  /** The groups a member event can give or take members. */
  function Concerns(name: GroupName, e: GroupEvent, world: World): (names: set<GroupName>)
    ensures name in names
  {
    assert name.kind.Addr? || name.kind.AppliedTo?;
    if Missing(world, e) == {} then {name} else BothKinds(name.name)
  }

  /** The objects filed for a group. */
  function Objects(index: map<Id, Ref>, name: GroupName): set<Ref> {
    set id | id in index && id.Group() == name :: index[id]
  }

  /** A group without the members that occur in one of the names. */
  function Pruned(o: SecurityGroup, missing: set<string>): SecurityGroup {
    o.(members := Spared(o.members, missing))
  }

  /** The filed objects of a group have been pruned, but for those of some ids; no other object has changed. */
  ghost predicate Pruning(s: State, groups: map<Ref, SecurityGroup>, name: GroupName, missing: set<string>,
                          todo: set<Id>) {
    && groups.Keys == s.groups.Keys
    && forall r :: r in groups ==>
         var o := s.groups[r];
         groups[r] == if r in Objects(s.index, name) && o.id !in todo then Pruned(o, missing) else o
  }

  lemma NonePruned(s: State, name: GroupName, missing: set<string>)
    requires forall id :: id in s.index ==> s.index[id] in s.groups && s.groups[s.index[id]].id == id
    ensures Pruning(s, s.groups, name, missing, Members(s.index, name))
  {
    hide Vanished;
  }

  lemma PruningNext(s: State, groups: map<Ref, SecurityGroup>, name: GroupName, missing: set<string>, todo: set<Id>,
                    id: Id)
    requires forall id :: id in s.index ==> s.index[id] in s.groups && s.groups[s.index[id]].id == id
    requires Pruning(s, groups, name, missing, todo) && id in todo && todo <= Members(s.index, name)
    ensures s.index[id] in groups
    ensures Pruning(s, groups[s.index[id] := Pruned(groups[s.index[id]], missing)], name, missing, todo - {id})
  {
    hide Vanished;
    assert s.index[id] in Objects(s.index, name);
    forall r | r in Objects(s.index, name) && s.groups[r].id == id ensures r == s.index[id] {}
  }

  lemma NoneShed(s: State)
    ensures forall id :: Sheds(s, s, id, {})
  {
    forall members ensures Spared(members, {}) == members {}
  }

  /** Pruning the security groups of both kinds sheds the members of each. */
  lemma PruningSheds(s: State, t: State, u: State, name: string, missing: set<string>, id: Id)
    requires forall id :: id in s.index ==> s.index[id] in s.groups && s.groups[s.index[id]].id == id
    requires t == s.(groups := t.groups) && u == t.(groups := u.groups) && id.name == name
    requires Pruning(s, t.groups, GroupName(Addr, name), missing, {})
    requires Pruning(t, u.groups, GroupName(AppliedTo, name), missing, {})
    ensures Sheds(s, u, id, missing)
  {
    hide Vanished;
    if id in s.index {
      var r := s.index[id];
      forall k: Kind ensures r in Objects(s.index, GroupName(k, name)) <==> k == id.kind {
        if r in Objects(s.index, GroupName(k, name)) {
          var x :| x in s.index && x.Group() == GroupName(k, name) && s.index[x] == r;
        }
        assert k == id.kind ==> id.Group() == GroupName(k, name);
      }
    }
  }

  /** Members by VPC are exactly the machines there. */
  ghost predicate Sorted(world: World, members: seq<Member>, placed: map<string, set<string>>) {
    && (forall vpc :: At(placed, vpc) == Machines(world, members, vpc))
    && forall vpc :: vpc in placed ==> placed[vpc] != {}
  }

  lemma ResolvedSorted(world: World, members: seq<Member>, placed: map<string, set<string>>)
    requires forall v, r :: v in placed && r in placed[v] <==>
               exists m :: m in members && m.key in world && world[m.key] == Vm(v, r)
    requires forall v :: v in placed ==> placed[v] != {}
    ensures Sorted(world, members, placed)
  {
    forall vpc ensures At(placed, vpc) == Machines(world, members, vpc) {
      forall r ensures r in At(placed, vpc) <==> r in Machines(world, members, vpc) {
        if r in Machines(world, members, vpc) {
          var m :| m in members && m.key in world && world[m.key].Vm? && world[m.key].vpc == vpc &&
              world[m.key].resource == r;
          assert world[m.key] == Vm(vpc, r);
        }
        if r in At(placed, vpc) {
          assert vpc in placed && r in placed[vpc];
        }
      }
    }
  }

  lemma SortedFull(world: World, members: seq<Member>, placed: map<string, set<string>>)
    requires Sorted(world, members, placed)
    ensures forall vpc :: vpc in placed ==> placed[vpc] != {}
  {
  }

  lemma NoneSorted(world: World)
    ensures Sorted(world, [], map[])
  {
  }

  function Ids(name: GroupName, vpcs: set<string>): set<Id> {
    set vpc | vpc in vpcs :: Id(name.kind, name.name, vpc)
  }

  /** The members of some VPCs have found their security groups; `changes` tells whether groups appeared. */
  ghost predicate Placing(s: State, t: State, name: GroupName, done: set<string>, changes: bool) {
    && GrownUnless(s, t, name, !changes || name.kind == AppliedTo)
    && t.policies == s.policies && t.pendingDelete == s.pendingDelete && t.retryQueue == s.retryQueue
    && t.index.Keys == s.index.Keys + Ids(name, done) && (changes <==> !(Ids(name, done) <= s.index.Keys))
  }

  lemma NonePlaced(s: State, name: GroupName)
    requires Inv(s)
    ensures Placing(s, s, name, {}, false)
  {
    hide Inv, GrownUnless;
    KeptSelf(s);
    KeptGrownUnless(s, s, name);
  }

  lemma PlacingNext(s: State, t: State, u: State, name: GroupName, done: set<string>, vpc: string, changes: bool)
    requires Placing(s, t, name, done, changes)
    requires var id := Id(name.kind, name.name, vpc);
             GrownUnless(t, u, name, id in t.index || id.kind == AppliedTo) && u.index.Keys == t.index.Keys + {id}
    requires u.policies == t.policies && u.pendingDelete == t.pendingDelete && u.retryQueue == t.retryQueue
    ensures Inv(u) && Placing(s, u, name, done + {vpc}, changes || Id(name.kind, name.name, vpc) !in t.index)
  {
    hide Inv, GrownUnless;
    var id := Id(name.kind, name.name, vpc);
    GrownUnlessTrans(s, t, u, name, !changes || name.kind == AppliedTo, id in t.index || id.kind == AppliedTo);
    NowInv(t, u, name, id in t.index || id.kind == AppliedTo);
    assert Ids(name, done + {vpc}) == Ids(name, done) + {id};
  }

  lemma AllPlaced(s: State, t: State, name: GroupName, done: set<string>, changes: bool)
    requires Placing(s, t, name, done, changes)
    ensures GrownUnless(s, t, name, !changes || name.kind == AppliedTo)
    ensures t.policies == s.policies && t.pendingDelete == s.pendingDelete && t.retryQueue == s.retryQueue
    ensures t.index.Keys == s.index.Keys + Ids(name, done) && (changes <==> !(Ids(name, done) <= s.index.Keys))
  {
  }

  lemma PlacedFiled(s: State, name: GroupName, world: World, members: seq<Member>, placed: map<string, set<string>>)
    requires Sorted(world, members, placed) && Ids(name, placed.Keys) <= s.index.Keys
    ensures Filed(s.index, name, world, members)
  {
    forall m | m in members && m.key in world && world[m.key].Vm?
      ensures Id(name.kind, name.name, world[m.key].vpc) in s.index
    {
      assert world[m.key].resource in Machines(world, members, world[m.key].vpc);
      assert At(placed, world[m.key].vpc) != {};
      assert Id(name.kind, name.name, world[m.key].vpc) in Ids(name, placed.Keys);
    }
  }

  /** A new object may be filed. */
  lemma NewMayFile(s: State, id: Id, members: set<string>)
    requires Inv(s) && id !in s.index
    ensures var t := Allocate(s, id, members, Init);
            if id.IpBlocks() then MayFileIps(t, s.next) else MayFile(t, s.next)
  {
    hide Inv;
    UnusedNext(s);
  }

  lemma NewHarmless(s: State, id: Id, members: set<string>)
    ensures id.kind == AppliedTo ==> Harmless(Allocate(s, id, members, Init), s.next)
  {
  }

  /** A new object moves no other. */
  lemma NewUnmoves(s: State, id: Id, members: set<string>, addresses: set<Prefix>)
    requires id !in s.index && s.next !in s.groups
    ensures var t := Allocate(s, id, members, Init);
            var u := if id.IpBlocks() then FileIps(t, s.next, addresses) else AddImpl(t, s.next, None);
            forall other :: other != id ==> Unmoved(s, u, other)
  {
    var t := Allocate(s, id, members, Init);
    var u := if id.IpBlocks() then FileIps(t, s.next, addresses) else AddImpl(t, s.next, None);
    hide Unmoved, FileIps, AddImpl;
    forall other | other != id ensures Unmoved(s, u, other) {
      AddUnmoves(s, id, members, other);
      FileIpsUnmoves(s, id, members, addresses, other);
    }
  }

  lemma FileIpsUnmoves(s: State, id: Id, members: set<string>, addresses: set<Prefix>, other: Id)
    requires id !in s.index && other != id && s.next !in s.groups
    ensures Unmoved(s, FileIps(Allocate(s, id, members, Init), s.next, addresses), other)
  {
  }

  lemma IpsUnmove(s: State, t: State)
    requires t.index == s.index && t.groups == s.groups && t.inflight == s.inflight
    ensures AllUnmoved(s, t)
  {
  }

  ghost predicate Shifted(s: State, t: State, id: Id, added: set<string>, removed: set<string>) {
    !id.IpBlocks() ==> Moved(s, t, id, added, removed)
  }

  lemma StillShifted(s: State, t: State, u: State, name: GroupName, placed: map<string, set<string>>,
                     gone: map<string, set<string>>)
    requires forall vpc :: Shifted(s, t, Id(name.kind, name.name, vpc), At(placed, vpc), At(gone, vpc))
    requires AllUnmoved(t, u)
    ensures forall vpc :: Shifted(s, u, Id(name.kind, name.name, vpc), At(placed, vpc), At(gone, vpc))
  {
    hide Moved, Unmoved;
    forall vpc ensures Shifted(s, u, Id(name.kind, name.name, vpc), At(placed, vpc), At(gone, vpc)) {
      var id := Id(name.kind, name.name, vpc);
      assert Shifted(s, t, id, At(placed, vpc), At(gone, vpc)) && Unmoved(t, u, id);
      if !id.IpBlocks() {
        MovedLater(s, t, u, id, At(placed, vpc), At(gone, vpc));
      }
    }
  }

  lemma AllShifted(s: State, t: State, u: State, v: State, name: GroupName, placed: map<string, set<string>>,
                   gone: map<string, set<string>>, rest: map<string, set<string>>)
    requires Joining(s, t, name, placed, gone, rest, {}) && Leaving(t, u, name, rest, {})
    requires forall other: Id :: !other.IpBlocks() ==> Unmoved(u, v, other)
    requires forall id :: id in s.index ==> Files(s, id)
    ensures forall vpc :: Shifted(s, v, Id(name.kind, name.name, vpc), At(placed, vpc), At(gone, vpc))
  {
    hide Joins, Leaves, Moved, Unmoved;
    forall vpc ensures Shifted(s, v, Id(name.kind, name.name, vpc), At(placed, vpc), At(gone, vpc)) {
      var id := Id(name.kind, name.name, vpc);
      assert Joined(s, t, id, At(placed, vpc), At(gone, vpc), At(rest, vpc), false);
      assert Departed(t, u, id, At(rest, vpc), false);
      if !id.IpBlocks() {
        JoinedMoved(s, t, u, id, At(placed, vpc), At(gone, vpc), At(rest, vpc));
        MovedLater(s, u, v, id, At(placed, vpc), At(gone, vpc));
      }
    }
  }

  /** The members of a group, in every VPC, are what an event makes of them. */
  ghost predicate Attended(s: State, t: State, name: GroupName, world: World, e: GroupEvent) {
    forall vpc ::
      var id := Id(name.kind, name.name, vpc);
      !id.IpBlocks() ==> Served(s, t, id, Missing(world, e), Machines(world, e.added, vpc), Leavers(world, e, vpc))
  }

  lemma AllAttended(s: State, t: State, u: State, name: GroupName, world: World, e: GroupEvent,
                    placed: map<string, set<string>>, gone: map<string, set<string>>)
    requires Sorted(world, e.added, placed) && Sorted(world, if e.kind == Modified then e.removed else [], gone)
    requires forall id :: id in s.index ==> Files(s, id)
    requires forall id: Id :: id.name == name.name ==> Sheds(s, t, id, Missing(world, e))
    requires forall vpc :: Shifted(t, u, Id(name.kind, name.name, vpc), At(placed, vpc), At(gone, vpc))
    ensures Attended(s, u, name, world, e)
  {
    hide Sheds, Moved, Served;
    forall vpc | !Id(name.kind, name.name, vpc).IpBlocks()
      ensures Served(s, u, Id(name.kind, name.name, vpc), Missing(world, e), Machines(world, e.added, vpc),
                     Leavers(world, e, vpc))
    {
      var id := Id(name.kind, name.name, vpc);
      assert Shifted(t, u, id, At(placed, vpc), At(gone, vpc));
      assert At(gone, vpc) == Leavers(world, e, vpc);
      ShedServed(s, t, u, id, Missing(world, e), At(placed, vpc), At(gone, vpc));
    }
  }

  // ---------------------------------------------------------------- the addresses of a group

  /** The addresses of a group are those it had without the ones that leave and with the ones that join. */
  ghost predicate Addressed(s: State, t: State, name: GroupName, world: World, e: GroupEvent) {
    var id := Id(Addr, name.name, "");
    && (forall n :: n != name.name || name.kind == AppliedTo ==> Addresses(t.blocks, n) == Addresses(s.blocks, n))
    && (name.kind == Addr ==>
          && (id in t.index <==>
                || id in s.index || Machines(world, e.added, "") != {}
                || (e.kind == Added && ((e.added == [] && e.removed == []) || exists x :: Has(world, e.added, x))))
          && forall x :: x in Addresses(t.blocks, name.name) <==>
               if id in t.index then
                 (x in Addresses(s.blocks, name.name) && !(e.kind == Modified && Has(world, e.removed, x))) ||
                 Has(world, e.added, x)
               else x in Addresses(s.blocks, name.name))
  }

  ghost predicate Settles(s: State, t: State, name: GroupName, placed: map<string, set<string>>, joined: set<Prefix>,
                          left: set<Prefix>, e: GroupEvent) {
    var id := Id(Addr, name.name, "");
    && (forall n :: n != name.name || name.kind == AppliedTo ==> Addresses(t.blocks, n) == Addresses(s.blocks, n))
    && (name.kind == Addr ==>
          && (id in t.index <==>
                || id in s.index || "" in placed
                || (e.kind == Added && ((e.added == [] && e.removed == []) || joined + left != {})))
          && Addresses(t.blocks, name.name) == if id in t.index then Addresses(s.blocks, name.name) - left + joined
             else Addresses(s.blocks, name.name))
  }

  lemma SettledAddressed(s: State, t: State, u: State, name: GroupName, world: World, e: GroupEvent,
                         placed: map<string, set<string>>, joined: set<Prefix>, left: set<Prefix>)
    requires t.blocks == s.blocks && t.index == s.index && Settles(t, u, name, placed, joined, left, e)
    requires Sorted(world, e.added, placed) && forall x :: x in joined <==> Has(world, e.added, x)
    requires forall x :: x in left <==> e.kind == Modified && Has(world, e.removed, x)
    ensures Addressed(s, u, name, world, e)
  {
    hide Addresses, Has;
    assert At(placed, "") == Machines(world, e.added, "");
    assert e.kind == Added ==> (joined + left != {} <==> exists x :: x in joined);
  }

  lemma StillAddressed(s: State, t: State, u: State, name: GroupName, world: World, e: GroupEvent)
    requires Addressed(s, t, name, world, e) && u.blocks == t.blocks && u.index == t.index
    ensures Addressed(s, u, name, world, e)
  {
    hide Addresses, Has;
  }

  /** The addresses of an event have found their group of IP blocks, or `changes` tells that none was needed. */
  ghost predicate Lodges(s: State, t: State, name: GroupName, joined: set<Prefix>, left: set<Prefix>, e: GroupEvent,
                         changes: bool) {
    var id := Id(Addr, name.name, "");
    var news := joined != {} || left != {};
    var bare := e.kind == Added && e.added == [] && e.removed == [] && id !in s.index;
    && (changes <==> name.kind == Addr && (news || bare))
    && (id in t.index <==> id in s.index || (changes && e.kind == Added))
    && Addresses(t.blocks, name.name) == (if id in t.index && name.kind == Addr
          then Addresses(s.blocks, name.name) - left + joined else Addresses(s.blocks, name.name))
    && forall n :: n != name.name ==> Addresses(t.blocks, n) == Addresses(s.blocks, n)
  }

  lemma LodgedSettles(s: State, t: State, u: State, name: GroupName, placed: map<string, set<string>>,
                      joined: set<Prefix>, left: set<Prefix>, e: GroupEvent, changes: bool)
    requires SameIps(s, t) && t.index.Keys == s.index.Keys + Ids(name, placed.Keys)
    requires Lodges(t, u, name, joined, left, e, changes)
    ensures Settles(s, u, name, placed, joined, left, e)
  {
    hide Addresses;
  }

  lemma SameBlocks(s: State, t: State, u: State)
    requires SameIps(s, t) && u.blocks == t.blocks
    ensures SameIps(s, u)
  {
  }

  // ---------------------------------------------------------------- deleted groups

  /** The deletion of a group has reached all that was filed for it. */
  ghost predicate Retired(s: State, t: State, name: GroupName) {
    && (forall id :: id in t.index ==> id in s.index) && SameShelf(s, t, name)
    && forall id :: id in s.index && id.Group() == name ==> s.index[id] in s.groups && Withdrawn(s, t, id)
  }

  lemma StillRetired(s: State, t: State, name: GroupName, retryQueue: map<QueueKey, RetryItem>)
    requires retryQueue.Keys <= t.retryQueue.Keys
    ensures Retired(s, t, name) ==> Retired(s, t.(retryQueue := retryQueue), name)
  {
    hide Namers, Dismissed;
    if Retired(s, t, name) {
      forall id | id in s.index && id.Group() == name ensures Withdrawn(s, t.(retryQueue := retryQueue), id) {
        assert Withdrawn(s, t, id);
        StillWithdrawn(s, t, id, retryQueue);
      }
    }
  }

  lemma StillWithdrawn(s: State, t: State, id: Id, retryQueue: map<QueueKey, RetryItem>)
    requires id in s.index && s.index[id] in s.groups && Withdrawn(s, t, id)
    ensures Withdrawn(s, t.(retryQueue := retryQueue), id)
  {
  }

  lemma NoneWithdrawn(s: State, name: GroupName)
    requires forall id :: id in s.index ==> s.index[id] in s.groups && s.groups[s.index[id]].id == id
    ensures Withdrawing(s, s, Members(s.index, name), Members(s.index, name))
  {
    hide Withdrawn;
  }

  lemma SameFiled(s: State, t: State, id: Id)
    requires Same(s, t, id) && id in s.index
    ensures id in t.index
  {
  }

  lemma EraseWithdraws(s: State, id: Id)
    requires id in s.index && s.index[id] in s.groups && id.IpBlocks()
    ensures forall n :: SameShelf(s, Erase(s, id), n)
    ensures Withdrawn(s, Erase(s, id), id) && Erase(s, id).pendingDelete == s.pendingDelete
    ensures Erase(s, id).inflight == s.inflight && Erase(s, id).blocks.ips.Keys <= s.blocks.ips.Keys
  {
    hide Lose;
  }

  // ---------------------------------------------------------------- member events

  /** An event that could not be resolved has joined the retry item of its group; nothing else has happened. */
  ghost predicate Shelved(s: State, t: State, name: GroupName, e: GroupEvent) {
    var k := GroupKey(name);
    var item := if k in s.retryQueue then s.retryQueue[k] else GroupItem(PENDING_RETRY, OPERATION_COUNT, 0, 0);
    item.GroupItem? && t == s.(retryQueue :=
        s.retryQueue[k := GroupItem(Coalesce(item.pending, e), item.opCnt, item.runs, item.asks)])
  }

  /**
   A member event has been taken up. It is kept for later if its group is expected to be deleted; otherwise a deletion
   reaches all that is filed for the group, an event that cannot be resolved waits for a retry, and any other finds
   members and addresses where they should be.
   */
  ghost predicate Enrolled(s: State, t: State, name: GroupName, e: GroupEvent, world: World) {
    if name in s.pendingDelete then
      t == Buffer(s, name, e).(retryQueue :=
          if e.kind == Deleted then s.retryQueue - {GroupKey(name)} else s.retryQueue)
    else if e.kind == Deleted then Retired(s, t, name) && GroupKey(name) !in t.retryQueue
    else if Unresolved(world, e) then Shelved(s, t, name, e)
    else
      && Attended(s, t, name, world, e) && Addressed(s, t, name, world, e) && Filed(t.index, name, world, e.added)
      && t.retryQueue == s.retryQueue && t.pendingDelete == s.pendingDelete
  }

  // ---------------------------------------------------------------- the ticker

  /** Every machine among buffered members has a security group of its VPC. */
  ghost predicate Restored(index: map<Id, Ref>, name: GroupName, world: World, p: PendingGroup) {
    forall k :: k in p.added && k in world && world[k].Vm? ==> Id(name.kind, name.name, world[k].vpc) in index
  }

  /** Items of groups other than the given one are as they were. */
  ghost predicate SameGroupItems(a: map<QueueKey, RetryItem>, b: map<QueueKey, RetryItem>, but: QueueKey) {
    forall k: QueueKey :: k.GroupKey? && k != but ==> (k in a <==> k in b) && (k in a ==> a[k] == b[k])
  }

  /** An item has left the queue, or has run once more on a smaller budget. */
  ghost predicate Spent(a: map<QueueKey, RetryItem>, b: map<QueueKey, RetryItem>, k: QueueKey) {
    k in a && (k in b ==>
        a[k].opCnt > 0 && b[k].opCnt == a[k].opCnt - 1 && b[k].runs == a[k].runs + 1 && b[k].asks == a[k].asks + 1)
  }

  lemma TickFrame(s: State, item: RetryItem)
    requires Inv(s) && item.SgItem? && Live(s, item.ref)
    ensures SameGroupItems(s.retryQueue, TickItem(s, item).retryQueue, SgKey(s.groups[item.ref].id))
  {
    hide Inv, Evolves, RunItem;
    if Runs(s.groups[item.ref]) {
      RunItemKeeps(s, item.ref);
    }
  }

  ghost predicate Redone(s: State, t: State, name: GroupName, p: PendingGroup, world: World, done: bool,
                         members: seq<Member>)
    requires p.event.Some?
  {
    var e := GroupEvent(p.event.value, members, []);
    && (forall m :: m in members <==> m.key in p.added && p.added[m.key] == m) && Enrolled(s, t, name, e, world)
    && (done <==> name in s.pendingDelete || !Unresolved(world, e))
  }

  /**
   The members kept for a group have been replayed: they are taken up, in some order, by an event that adds them, which
   may have to wait again.
   */
  ghost predicate Replayed(s: State, t: State, name: GroupName, p: PendingGroup, world: World, done: bool) {
    if p.added == map[] then t == s && done
    else p.event.Some? && exists members :: Redone(s, t, name, p, world, done, members)
  }

  /** What replaying members means for the retry queue. */
  lemma ReplayedQueue(s: State, t: State, name: GroupName, p: PendingGroup, world: World, done: bool)
    requires Proper(p) && Replayed(s, t, name, p, world, done)
    ensures done ==> t.retryQueue == s.retryQueue
    ensures SameGroupItems(s.retryQueue, t.retryQueue, GroupKey(name)) && s.retryQueue.Keys <= t.retryQueue.Keys
    ensures name !in s.pendingDelete ==> t.pendingDelete == s.pendingDelete
    ensures name !in s.pendingDelete ==>
              if done then Restored(t.index, name, world, p) else GroupKey(name) in t.retryQueue
    ensures !done && GroupKey(name) in s.retryQueue ==>
              && GroupKey(name) in t.retryQueue
              && t.retryQueue[GroupKey(name)].opCnt == s.retryQueue[GroupKey(name)].opCnt
              && t.retryQueue[GroupKey(name)].runs == s.retryQueue[GroupKey(name)].runs
              && t.retryQueue[GroupKey(name)].asks == s.retryQueue[GroupKey(name)].asks
  {
    hide Attended, Addressed, Unresolved, Coalesce;
    if p.added != map[] {
      var members :| Redone(s, t, name, p, world, done, members);
      var e := GroupEvent(p.event.value, members, []);
      if name !in s.pendingDelete && done {
        forall k | k in p.added && k in world && world[k].Vm?
          ensures Id(name.kind, name.name, world[k].vpc) in t.index
        {
          assert p.added[k] in members;
        }
      }
    }
  }

  ghost predicate TriedVia(s: State, u: State, t: State, key: QueueKey, world: World, done: bool)
    requires key in s.retryQueue && key.GroupKey?
  {
    var item := s.retryQueue[key];
    && item.GroupItem? && Replayed(s, u, key.group, item.pending, world, done) && (!done ==> key in u.retryQueue)
    && t == Conclude(u, Ran(key, None, item.runs + 1, true), false,
                                  if done then None else Some(Charged(u.retryQueue[key], true)))
  }

  /** One item of the retry queue has been given its turn. */
  ghost predicate Tried(s: State, t: State, key: QueueKey, world: World)
    requires key in s.retryQueue
  {
    var item := s.retryQueue[key];
    if key.SgKey? then Held(s, key) && t == TickItem(s, item)
    else if item.opCnt <= 0 then t == s.(retryQueue := s.retryQueue - {key})
    else exists u, done :: TriedVia(s, u, t, key, world, done)
  }

  ghost predicate Turned(s: State, t: State, world: World, key: QueueKey) {
    if key in s.retryQueue then Tried(s, t, key, world) else t == s
  }

  /** Items of the retry queue have been given their turns, in some order; some may have left the queue by then. */
  ghost predicate Ticked(s: State, t: State, world: World, done: set<QueueKey>)
    decreases done
  {
    if done == {} then t == s
    else exists u, key :: key in done && Ticked(s, u, world, done - {key}) && Turned(u, t, world, key)
  }

  lemma NoneTicked(s: State, world: World)
    ensures Ticked(s, s, world, {})
  {
  }

  lemma TickedNext(s: State, t: State, u: State, world: World, done: set<QueueKey>, key: QueueKey)
    requires Ticked(s, t, world, done) && key !in done && Turned(t, u, world, key)
    ensures Ticked(s, u, world, done + {key})
  {
    hide Turned;
    assert done + {key} - {key} == done;
  }

  /** The names of the groups that wait for their members. */
  ghost function Waiters(keys: set<QueueKey>): set<GroupName> {
    set k | k in keys && k.GroupKey? :: k.group
  }

  // ---------------------------------------------------------------- cloud responses

  /** The operation an answer reports; one about members counts as a clearing if the group was empty by then. */
  function Label(what: CallKind, cleared: bool): Op {
    match what
    case CreateCall => CreateOp
    case MembersCall => if cleared then ClearMembersOp else UpdateMembersOp
    case ClearCall => ClearMembersOp
    case RulesCall(_) => UpdateRulesOp
    case DeleteCall => DeleteOp
  }

  /** The retry queue will run the item again. */
  predicate WillRetry(s: State, key: QueueKey) {
    key in s.retryQueue && s.retryQueue[key].opCnt > 0
  }

  ghost predicate NoticedVia(s: State, u: State, t: State, g: Ref, op: Op, failed: bool)
    requires g in s.groups
  {
    && Outcome(s, u, g, op, failed) && g in u.groups && Held(u, SgKey(u.groups[g].id))
    && t == SettleRetry(u, g, op, failed)
  }

  /** The answer to a request has been passed on, and the retry of its operation is armed, ended, or run. */
  ghost predicate Noticed(s: State, t: State, g: Ref, op: Op, failed: bool) {
    g in s.groups && exists u :: NoticedVia(s, u, t, g, op, failed)
  }

  /**
   The answer to a Delete is no longer counted. The last one of its group, unless more are to come, releases what was
   kept for the group.
   */
  ghost predicate Uncounted(s: State, t: State, i: nat, runOnClear: bool, world: World) {
    i < |s.inflight| &&
    var name := s.inflight[i].id.Group();
    && name in s.pendingDelete
    && var u := CountDown(s, i, runOnClear);
       if RefCnt(s.pendingDelete, name) > 1 || !runOnClear then t == u
       else exists done ::
           Replayed(u.(pendingDelete := u.pendingDelete - {name}), t, name, u.pendingDelete[name], world, done)
  }

  lemma UncountedSoon(s: State, i: nat, runOnClear: bool, world: World)
    requires i < |s.inflight| && s.inflight[i].id.Group() in s.pendingDelete
    requires RefCnt(s.pendingDelete, s.inflight[i].id.Group()) > 1 || !runOnClear
    ensures Uncounted(s, CountDown(s, i, runOnClear), i, runOnClear, world)
  {
    hide CountDown;
  }

  lemma UncountedLast(s: State, t: State, i: nat, runOnClear: bool, world: World, done: bool)
    requires i < |s.inflight| && s.inflight[i].id.Group() in s.pendingDelete && runOnClear
    requires RefCnt(s.pendingDelete, s.inflight[i].id.Group()) <= 1
    requires var name, u := s.inflight[i].id.Group(), CountDown(s, i, runOnClear);
             Replayed(u.(pendingDelete := u.pendingDelete - {name}), t, name, u.pendingDelete[name], world, done)
    ensures Uncounted(s, t, i, runOnClear, world)
  {
    hide Replayed;
  }

  ghost predicate UndoneVia(s: State, u: State, t: State, i: nat, failed: bool, world: World)
    requires i < |s.inflight|
  {
    && Noticed(s, u, s.inflight[i].ref, DeleteOp, failed) && Kept(s, u) && (u.past.overlapped ==> t.past.overlapped)
    && Uncounted(u, t, i, !WillRetry(u, SgKey(s.inflight[i].id)), world)
  }

  /** A Delete has been answered. */
  ghost predicate Undone(s: State, t: State, i: nat, failed: bool, world: World) {
    i < |s.inflight| && exists u :: UndoneVia(s, u, t, i, failed, world)
  }

  ghost predicate RepliedVia(s: State, u: State, t: State, i: nat, op: Op, failed: bool)
    requires i < |s.inflight|
  {
    Noticed(Answer(s, i, op), u, s.inflight[i].ref, op, failed) && t == Rest(u)
  }

  /** Any other request has been answered. */
  ghost predicate Replied(s: State, t: State, i: nat, op: Op, failed: bool) {
    i < |s.inflight| && exists u :: RepliedVia(s, u, t, i, op, failed)
  }

  /**
   A request has been answered, and is no longer in flight. After the success of a Create its group counts as created;
   after a failure its group is in the retry queue, unless the answer is stale.
   */
  ghost predicate Answered(s: State, t: State, i: nat, failed: bool, cleared: bool, world: World)
    requires i < |s.inflight|
  {
    var c := s.inflight[i];
    && Drop(s.inflight, i) <= t.inflight
    && (!failed && c.what == CreateCall ==> c.ref in t.groups && t.groups[c.ref].state != Init)
    && (failed && c.ref in s.groups && (s.groups[c.ref].state != Garbage || c.what.DeleteCall?) ==>
          SgKey(c.id) in t.retryQueue)
    && if c.what.DeleteCall? then Undone(s, t, i, failed, world)
       else Replied(s, t, i, Label(c.what, cleared), failed)
  }

  lemma DropGrows<T>(a: seq<T>, b: seq<T>, c: seq<T>, i: nat)
    requires i < |a| && a <= b && Drop(b, i) <= c
    ensures Drop(a, i) <= c
  {
    assert Drop(b, i) == Drop(a, i) + b[|a|..];
  }

  lemma MembersSent(s: State, t: State, u: State, v: State, g: Ref)
    requires g in s.groups && g in t.groups && u == UpdateImpl(t, g, {}, {}, None) && u.inflight <= v.inflight
    requires t.inflight == s.inflight && t.groups[g] == if s.groups[g].state == Init then s.groups[g].(state := Created)
        else s.groups[g]
    ensures var o := s.groups[g];
            o.state != Garbage && o.retryOp.None? && o.members != {} ==>
              Sent(s.inflight, v.inflight, Call(g, o.id, MembersCall))
  {
    hide UpdateImpl;
    var o := s.groups[g];
    if o.state != Garbage && o.retryOp.None? && o.members != {} {
      UpdateSends(t, g);
      SentLater(s.inflight, u.inflight, v.inflight, Call(g, o.id, MembersCall));
    }
  }

  // ---------------------------------------------------------------- policy events

  /** A group a policy update bears upon: it gained or lost the policy, or the policy's new rules are ready. */
  ghost predicate Affected(was: Policy, now: Policy, g: string) {
    multiset(was.appliedTo)[g] != multiset(now.appliedTo)[g] ||
        (was.rules != now.rules && now.ready && g in was.appliedTo)
  }

  /** Groups whose deletion waited for a policy that no longer names them have gone. */
  ghost predicate Freed(s: State, t: State) {
    forall id :: Due(s.(policies := t.policies), id) && Namers(s.policies, id.Group()) != {} ==> Dismissed(s, t, id)
  }

  lemma ToldPushed(s: State, t: State, names: seq<string>, id: Id)
    requires Told(s, t, id.kind, names) && id.name in names && Due(s, id)
    ensures Dismissed(s, t, id)
  {
    hide Dismissed, RulesRequest;
    assert Pushed(s, t, id);
  }

  lemma DismissedAlike(s: State, r: State, t: State, id: Id)
    requires id in s.index && s.index[id] in s.groups && Dismissed(s, t, id)
    requires r.index == s.index && r.groups == s.groups && r.inflight == s.inflight
    ensures Dismissed(r, t, id)
  {
  }

  /** Once all groups a policy used to name and names no more have been told, those only kept for it have gone. */
  lemma ToldFrees(s: State, t: State, p: string, addr: seq<string>, applied: seq<string>)
    requires p in s.policies && OffBy(s.policies, t.policies, p)
    requires var u := s.(policies := t.policies); Told(u, t, Addr, addr) && Told(u, t, AppliedTo, applied)
    requires forall g: GroupName :: s.policies[p].Names(g) && !(p in t.policies && t.policies[p].Names(g)) ==>
               g.name in (if g.kind == Addr then addr else applied)
    ensures Freed(s, t)
  {
    var u := s.(policies := t.policies);
    hide Told, Dismissed;
    forall id | Due(u, id) && Namers(s.policies, id.Group()) != {} ensures Dismissed(s, t, id) {
      var q :| q in Namers(s.policies, id.Group());
      assert q !in Namers(t.policies, id.Group());
      assert p in t.policies && t.policies[p].Names(id.Group()) ==> p in Namers(t.policies, id.Group());
      assert q == p;
      ToldPushed(u, t, if id.kind == Addr then addr else applied, id);
      DismissedAlike(u, s, t, id);
    }
  }

  lemma ToldAll(s: State, t: State, names: seq<string>)
    ensures Told(s, t, AppliedTo, names) ==>
              forall id: Id :: id.kind == AppliedTo && id.name in names ==> Pushed(s, t, id)
  {
    hide Pushed;
  }

  /** More policies, or policies that name as much, free nothing. */
  lemma NothingChanges(s: State, p: string)
    ensures Freed(s, s) && forall g :: p in s.policies ==> !BearsUpon(s, s, p, g)
  {
  }

  lemma NothingFreed(s: State, t: State, p: string)
    requires OffBy(s.policies, t.policies, p) && p !in s.policies
    ensures Freed(s, t)
  {
    forall id: Id | Namers(s.policies, id.Group()) != {} ensures Namers(t.policies, id.Group()) != {} {
      var q :| q in Namers(s.policies, id.Group());
      assert q in Namers(t.policies, id.Group());
    }
  }

  ghost predicate BearsUpon(s: State, t: State, p: string, g: string) {
    if p in s.policies && p in t.policies then Affected(s.policies[p], t.policies[p], g)
    else if p in s.policies then g in s.policies[p].appliedTo
    else p in t.policies && t.policies[p].ready && g in t.policies[p].appliedTo
  }

  /** A policy event has been taken up, and every group it bears upon has been sent what it is owed. */
  ghost predicate Announced(s: State, t: State, kind: EventType, p: string, rules: seq<PolicyRule>,
                            appliedTo: seq<string>) {
    && OffBy(s.policies, t.policies, p) && (kind == Deleted <==> p !in t.policies)
    && (kind != Deleted ==> t.policies[p].rules == rules && t.policies[p].appliedTo == appliedTo)
    && Steady(s, t, {}) && Freed(s, t)
    && forall id: Id :: id.kind == AppliedTo && BearsUpon(s, t, p, id.name) ==>
         Pushed(s.(policies := t.policies), t, id)
  }

  // ---------------------------------------------------------------- synchronization with the cloud

  /** The bookmarks to be seen before the first synchronization. */
  const SYNC_READY_BOOKMARKS := 3

  /** The groups of a kind that are synchronized with the cloud. */
  function Syncable(index: map<Id, Ref>, kind: Kind): set<Id> {
    set id | id in index && id.kind == kind && !id.IpBlocks()
  }

  /** All groups in turn, address groups first, then those of resources that carry foreign security groups. */
  ghost predicate SweptAll(s: State, t: State, u: State, v: State, known: map<Id, CloudGroup>, touched: seq<Id>) {
    && Swept(s, t, known, Syncable(s.index, Addr)) && Swept(t, u, known, Syncable(s.index, AppliedTo))
    && v == TouchedAll(u, touched)
  }

  /** What was left after groups only the cloud knows had been dealt with has been synchronized. */
  ghost predicate SweptSince(s: State, u: State, v: State, w: State, t: State, known: map<Id, CloudGroup>,
                             found: seq<(Id, CloudGroup)>, touched: seq<Id>) {
    && u.index == s.index && u.policies == s.policies && s.inflight <= u.inflight
    && (forall r :: r in s.groups ==> r in u.groups && u.groups[r] == s.groups[r])
    && (forall id :: id in s.index ==> Found(known, id) == Latest(found, id))
    && SweptAll(u, v, w, t, known, touched)
  }

  /** A Delete for the id has been sent. */
  ghost predicate DeleteSent(before: seq<Call>, after: seq<Call>, id: Id) {
    exists i :: |before| <= i < |after| && after[i].id == id && after[i].what.DeleteCall?
  }

  lemma DeleteSentNext(before: seq<Call>, now: seq<Call>, after: seq<Call>)
    requires now <= after
    ensures forall id :: DeleteSent(before, now, id) ==> DeleteSent(before, after, id)
  {
    forall id | DeleteSent(before, now, id) ensures DeleteSent(before, after, id) {
      var i :| |before| <= i < |now| && now[i].id == id && now[i].what.DeleteCall?;
      assert after[i] == now[i];
    }
  }

  lemma SentIsDelete(before: seq<Call>, now: seq<Call>, after: seq<Call>, r: Ref, id: Id)
    requires before <= now && Sent(now, after, Call(r, id, DeleteCall))
    ensures DeleteSent(before, after, id)
  {
  }

  /**
   Groups only the cloud knows: their deletion is pending, and a Delete has been sent for those no policy names. Nothing
   else is known to have happened to any.
   */
  ghost predicate Expelled(s: State, t: State, found: seq<(Id, CloudGroup)>) {
    forall c :: c in found && c.0 !in s.index && !c.0.IpBlocks() ==>
        && c.0.Group() in t.pendingDelete
        && (Namers(s.policies, c.0.Group()) == {} ==> DeleteSent(s.inflight, t.inflight, c.0))
  }

  lemma ExpectationsStay(s: State, t: State)
    requires Kept(s, t)
    ensures s.pendingDelete.Keys <= t.pendingDelete.Keys
  {
    hide Carried;
    forall n | n in s.pendingDelete ensures n in t.pendingDelete {
      assert SameShelf(s, t, n);
    }
  }

  lemma NoneExpelled(s: State)
    ensures Expelled(s, s, [])
  {
  }

  lemma StillExpelled(s: State, t: State, u: State, found: seq<(Id, CloudGroup)>)
    requires Expelled(s, t, found) && Kept(t, u) && s.inflight <= t.inflight
    ensures Expelled(s, u, found)
  {
    ExpectationsStay(t, u);
    hide Carried, Calm, DeleteSent, Namers;
    DeleteSentNext(s.inflight, t.inflight, u.inflight);
  }

  lemma ExpelledNext(s: State, t: State, u: State, found: seq<(Id, CloudGroup)>, i: nat)
    requires i < |found| && Expelled(s, t, found[..i]) && Kept(t, u) && s.inflight <= t.inflight
    requires var id := found[i].0;
             id !in s.index && !id.IpBlocks() ==>
               && id.Group() in u.pendingDelete
               && (Namers(s.policies, id.Group()) == {} ==> Sent(t.inflight, u.inflight, Call(t.next, id, DeleteCall)))
    ensures Expelled(s, u, found[..i + 1])
  {
    hide Carried, Calm, DeleteSent, Namers, Sent;
    assert found[..i + 1] == found[..i] + [found[i]];
    StillExpelled(s, t, u, found[..i]);
    if Sent(t.inflight, u.inflight, Call(t.next, found[i].0, DeleteCall)) {
      SentIsDelete(s.inflight, t.inflight, u.inflight, t.next, found[i].0);
    }
  }

  /**
   Once three bookmarks have been seen, everything is synchronized with what the cloud has: groups only it knows and no
   policy names are deleted, and all others have caught up.
   */
  ghost predicate Resynced(s: State, t: State, found: seq<(Id, CloudGroup)>, touched: seq<Id>) {
    if s.bookmarks < SYNC_READY_BOOKMARKS then t == s
    else
      && t.synced && t.index == s.index
      && Expelled(s, t, found)
      && (forall id :: id in s.index && !id.IpBlocks() ==> CaughtUp(s, t, id, Latest(found, id)))
      && exists u, v, w, known :: SweptSince(s, u, v, w, t, known, found, touched)
  }

  /** deleteImpl of a new object: the Delete is sent. */
  lemma UntouchedTrans(s: State, t: State, u: State, g: Ref)
    requires Untouched(s, t, g) && Untouched(t, u, g)
    ensures Untouched(s, u, g)
  {
  }

  lemma AllocatedFacts(s: State, id: Id)
    requires s.next !in s.groups && id !in s.index
    ensures var t := Allocate(s, id, {}, Created);
            && s.next in t.groups && (!id.IpBlocks() ==> Deletable(t, s.next, None))
            && t.index == s.index && t.policies == s.policies && t.inflight == s.inflight
            && t.groups[s.next].id == id && t.groups[s.next].state == Created && Untouched(s, t, s.next)
            && !Stable(t, id) && t.index - {id} == t.index
  {
  }

  lemma DeleteSends(s: State, g: Ref)
    requires g in s.groups && s.groups[g].state == Created && Namers(s.policies, s.groups[g].id.Group()) == {}
    ensures Sent(s.inflight, DeleteImpl(s, g, None).inflight, Call(g, s.groups[g].id, DeleteCall))
  {
    assert DeleteImpl(s, g, None).inflight[|s.inflight|] == Call(g, s.groups[g].id, DeleteCall);
  }

  lemma UnusedNext(s: State)
    requires Inv(s)
    ensures s.next !in s.groups && (!s.past.overlapped ==> s.next !in s.past.released)
  {
  }

  lemma StillCaughtUp(s: State, t: State, u: State, id: Id, c: Option<CloudGroup>)
    requires CaughtUp(s, t, id, c) && Inv(t) && Kept(t, u) && t.inflight <= u.inflight
    requires id in s.index && t.index == s.index && u.index == s.index
    ensures CaughtUp(s, u, id, c)
  {
    hide Inv, Evolves, CaughtUp;
    FiledLive(t, id);
    FiledLive(u, id);
    RankGrows(t, u, s.index[id]);
    CaughtUpLater(s, t, u, id, c);
  }

  // ---------------------------------------------------------------- status probes

  /** All security groups of an address group are in order. */
  ghost predicate AllFine(s: State, g: string) {
    forall id :: id in Members(s.index, GroupName(Addr, g)) && s.index[id] in s.groups ==>
        s.groups[s.index[id]].status == Fine
  }

  /** A probe makes a policy ready if all its address groups are, and in order; it does nothing else. */
  ghost predicate Probed(s: State, t: State, p: string) {
    if p in s.policies && (forall g :: g in NamedAddressGroups(s.policies[p].rules) ==> AllFine(s, g)) &&
       AllReady(s.index, s.groups, s.policies[p].rules)
    then t == s.(policies := s.policies[p := s.policies[p].(ready := true)])
    else t == s
  }

  lemma NotProbed(s: State, p: string)
    ensures p !in s.policies ==> Probed(s, s, p)
  {
  }

  lemma AlreadyReady(policies: map<string, Policy>, p: string)
    requires p in policies
    ensures policies[p].ready ==> policies[p := policies[p].(ready := true)] == policies
    ensures policies[p := policies[p].(ready := policies[p].ready)] == policies
  {
  }

  // ---------------------------------------------------------------- the event loop

  datatype Event =
    | PolicyEvent(kind: EventType, policy: string, rules: seq<PolicyRule>, appliedTo: seq<string>)
    | MemberEvent(group: GroupName, event: GroupEvent, world: World)
    | Response(call: nat, failed: bool, cleared: bool, world: World)
    | Tick(world: World)
    | StatusProbe(policy: string)
    | Synchronize(found: seq<(Id, CloudGroup)>, touched: seq<Id>)
    | BookmarkEvent(found: seq<(Id, CloudGroup)>, touched: seq<Id>)
  {
    /** Bookmarks are events of their own. */
    predicate Dispatched() {
      (PolicyEvent? ==> kind != Bookmark) && (MemberEvent? ==> event.kind != Bookmark)
    }
  }

  /** What each event does. */
  ghost predicate Handled(s: State, e: Event, t: State) {
    match e
    case PolicyEvent(kind, p, rules, appliedTo) => Announced(s, t, kind, p, rules, appliedTo)
    case MemberEvent(g, event, world) => Enrolled(s, t, g, event, world)
    case Response(i, failed, cleared, world) =>
      if i < |s.inflight| then Answered(s, t, i, failed, cleared, world) else t == s
    case Tick(world) => Ticked(s, t, world, s.retryQueue.Keys)
    case StatusProbe(p) => Probed(s, t, p)
    case Synchronize(found, touched) => Resynced(s, t, found, touched)
    case BookmarkEvent(found, touched) =>
      if s.synced then t == s else Resynced(s.(bookmarks := s.bookmarks + 1), t, found, touched)
  }

  /** The names of the groups an event can give or take members: all others are left alone. */
  ghost function Stirs(s: State, e: Event): set<GroupName> {
    match e
    case MemberEvent(g, event, world) => Concerns(g, event, world)
    case Response(i, _, _, _) =>
      if i < |s.inflight| && s.inflight[i].what.DeleteCall? then {s.inflight[i].id.Group()} else {}
    case Tick(_) => Waiters(s.retryQueue.Keys)
    case _ => {}
  }

  /** One turn of the event loop leads from s to t. */
  ghost predicate LeadsTo(s: State, e: Event, t: State) {
    && Settled(t) && Advances(s, t) && Handled(s, e, t) && Calm(s, t, Stirs(s, e))
    && (!e.PolicyEvent? ==> SameNames(s.policies, t.policies))
  }

  lemma AnnouncedLeads(s: State, e: Event, t: State)
    requires e.PolicyEvent? && Announced(s, t, e.kind, e.policy, e.rules, e.appliedTo) && Settled(t) && Advances(s, t)
    ensures LeadsTo(s, e, t)
  {
    hide Calm, Freed, Pushed, BearsUpon, Settled, Advances;
  }

  lemma BroughtLeads(s: State, e: Event, t: State)
    requires !e.PolicyEvent? && Brought(s, t, Stirs(s, e)) && Handled(s, e, t) && Settled(t) && Advances(s, t)
    ensures LeadsTo(s, e, t)
  {
    hide Handled, Calm, Settled, Inv, Advances, Orphans, Stale;
  }

  lemma LeadsOn(s: State, e: Event, t: State)
    requires LeadsTo(s, e, t)
    ensures Settled(t) && Advances(s, t)
  {
    hide Settled, Advances, Handled, Calm;
  }

  /** The states a run of events goes through. */
  ghost predicate Chronicle(states: seq<State>, events: seq<Event>) {
    && |states| == |events| + 1 && Settled(states[0])
    && forall i :: 0 <= i < |events| ==> LeadsTo(states[i], events[i], states[i + 1])
  }

  lemma ChronicleNext(states: seq<State>, events: seq<Event>, e: Event, t: State)
    requires Chronicle(states, events) && LeadsTo(states[|events|], e, t)
    ensures Chronicle(states + [t], events + [e])
  {
    hide LeadsTo, Settled;
  }

  // ---------------------------------------------------------------- policies over runs

  /** What a policy says. */
  datatype Document = Document(rules: seq<PolicyRule>, appliedTo: seq<string>)

  function Written(policies: map<string, Policy>): map<string, Document> {
    map p | p in policies :: Document(policies[p].rules, policies[p].appliedTo)
  }

  /** The policies after events: each announces one or takes one back. */
  function WrittenBy(start: map<string, Document>, events: seq<Event>): map<string, Document> {
    if events == [] then start
    else
      var before, e := WrittenBy(start, events[..|events| - 1]), events[|events| - 1];
      if !e.PolicyEvent? then before
      else if e.kind == Deleted then before - {e.policy}
      else before[e.policy := Document(e.rules, e.appliedTo)]
  }

  predicate IsAbout(e: Event, p: string) {
    e.PolicyEvent? && e.policy == p
  }

  /** A policy no event is about stays as it was. */
  lemma {:induction false} WrittenBefore(start: map<string, Document>, events: seq<Event>, p: string)
    requires forall i :: 0 <= i < |events| ==> !IsAbout(events[i], p)
    ensures var after := WrittenBy(start, events);
            (p in after <==> p in start) && (p in after ==> after[p] == start[p])
  {
    if events != [] {
      assert !IsAbout(events[|events| - 1], p);
      WrittenBefore(start, events[..|events| - 1], p);
    }
  }

  /** The policies after events are those whose last event is no deletion, as that event has them. */
  lemma {:induction false} WrittenLast(start: map<string, Document>, events: seq<Event>, p: string, last: nat)
    requires last < |events| && IsAbout(events[last], p)
    requires forall i :: last < i < |events| ==> !IsAbout(events[i], p)
    ensures var after, e := WrittenBy(start, events), events[last];
            (p in after <==> e.kind != Deleted) && (p in after ==> after[p] == Document(e.rules, e.appliedTo))
  {
    if last < |events| - 1 {
      assert !IsAbout(events[|events| - 1], p);
      WrittenLast(start, events[..|events| - 1], p, last);
    }
  }

  lemma NoneWritten(policies: map<string, Policy>)
    ensures Written(policies) == WrittenBy(Written(policies), [])
  {
  }

  lemma AnnouncedWritten(s: State, t: State, e: Event)
    requires e.PolicyEvent? && OffBy(s.policies, t.policies, e.policy)
    requires e.kind == Deleted <==> e.policy !in t.policies
    requires e.kind != Deleted ==>
               t.policies[e.policy].rules == e.rules && t.policies[e.policy].appliedTo == e.appliedTo
    ensures Written(t.policies) == if e.kind == Deleted then Written(s.policies) - {e.policy}
            else Written(s.policies)[e.policy := Document(e.rules, e.appliedTo)]
  {
  }

  lemma SameWritten(s: State, t: State)
    requires SameNames(s.policies, t.policies)
    ensures Written(t.policies) == Written(s.policies)
  {
  }

  lemma WrittenNext(r: State, s: State, t: State, events: seq<Event>, e: Event)
    requires LeadsTo(s, e, t) && Written(s.policies) == WrittenBy(Written(r.policies), events)
    ensures Written(t.policies) == WrittenBy(Written(r.policies), events + [e])
  {
    hide Enrolled, Answered, Ticked, Probed, Resynced, Calm, Freed, Pushed, BearsUpon, Written, Settled, Advances;
    assert (events + [e])[..|events|] == events;
    if e.PolicyEvent? {
      AnnouncedWritten(s, t, e);
    } else {
      SameWritten(s, t);
    }
  }
}
