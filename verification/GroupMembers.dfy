/** Who is in a security group, and what the cloud has been told about it. */
module GroupMembers {
  import opened PolicyTypes
  import opened PendingGroups
  import opened GroupMachine

  /** What the API server says about an external entity; a key that is missing does not exist. */
  datatype Entity = Vm(vpc: string, resource: string) | Address(ips: set<Prefix>) | Ignored | Broken

  type World = map<MemberKey, Entity>

  /** An event that has to wait: a lookup broke, or an added member does not exist yet. */
  ghost predicate Unresolved(world: World, e: GroupEvent) {
    || (exists m :: m in e.added && (m.key !in world || world[m.key].Broken?))
    || (e.kind == Modified && exists m :: m in e.removed && m.key in world && world[m.key].Broken?)
  }

  /** The machines of one VPC among members. */
  function Machines(world: World, members: seq<Member>, vpc: string): set<string> {
    set m | m in members && m.key in world && world[m.key].Vm? && world[m.key].vpc == vpc :: world[m.key].resource
  }

  /** The machines of one VPC an event takes out of its group; only patches take any out. */
  function Leavers(world: World, e: GroupEvent, vpc: string): set<string> {
    if e.kind == Modified then Machines(world, e.removed, vpc) else {}
  }

  /** The names of removed members that do not exist. */
  function Missing(world: World, e: GroupEvent): set<string> {
    if e.kind == Modified then set m | m in e.removed && m.key !in world :: m.key.name else {}
  }

  /** A member of the list that is no machine has the address. */
  ghost predicate Has(world: World, members: seq<Member>, x: Prefix) {
    exists m :: m in members && m.key in world && world[m.key].Address? && x in world[m.key].ips
  }

  predicate OccursAt(s: string, t: string, i: nat) {
    i + |t| <= |s| && s[i..i + |t|] == t
  }

  predicate Contains(s: string, t: string) {
    exists i :: 0 <= i <= |s| && OccursAt(s, t, i)
  }

  predicate Vanished(missing: set<string>, member: string) {
    exists m :: m in missing && Contains(m, member)
  }

  /** The members that do not occur in one of the names. */
  function Spared(members: set<string>, missing: set<string>): set<string> {
    set m | m in members && !Vanished(missing, m)
  }

  // ---------------------------------------------------------------- the members of one object

  predicate Files(s: State, id: Id) {
    id in s.index && s.index[id] in s.groups
  }

  /** The addresses held for a group. */
  function Addresses(blocks: Blocks, name: string): set<Prefix> {
    if name in blocks.ips then blocks.ips[name] else {}
  }

  ghost predicate SameIps(s: State, t: State) {
    forall name :: Addresses(t.blocks, name) == Addresses(s.blocks, name)
  }

  /** A request about the members of the object has been sent. */
  ghost predicate Tells(before: seq<Call>, after: seq<Call>, r: Ref) {
    exists i :: |before| <= i < |after| && after[i].ref == r && after[i].what.MembersCall?
  }

  lemma TellsTrans(a: seq<Call>, b: seq<Call>, c: seq<Call>, r: Ref)
    requires a <= b <= c
    ensures Tells(a, c, r) <==> Tells(a, b, r) || Tells(b, c, r)
  {
    if Tells(a, b, r) {
      var i :| |a| <= i < |b| && b[i].ref == r && b[i].what.MembersCall?;
      assert c[i] == b[i];
    }
    if Tells(a, c, r) {
      var i :| |a| <= i < |c| && c[i].ref == r && c[i].what.MembersCall?;
      assert i < |b| ==> c[i] == b[i];
    }
  }

  /** Objects that differ in their members at most, as far as it matters here. */
  predicate Alike(o: SecurityGroup, p: SecurityGroup) {
    o.state == p.state && o.retryOp == p.retryOp && o.deletePending == p.deletePending
  }

  /** The object filed under an id has kept its members, and nothing about them was sent. */
  ghost predicate Unmoved(s: State, t: State, id: Id) {
    && (id in t.index <==> id in s.index) && s.inflight <= t.inflight
    && (Files(s, id) ==>
          && Files(t, id) && t.index[id] == s.index[id]
          && Alike(s.groups[s.index[id]], t.groups[t.index[id]])
          && t.groups[t.index[id]].members == s.groups[s.index[id]].members
          && !Tells(s.inflight, t.inflight, s.index[id]))
  }

  ghost predicate AllUnmoved(s: State, t: State) {
    forall id :: Unmoved(s, t, id)
  }

  /** The cloud would be told of new members. */
  predicate Listens(o: SecurityGroup) {
    o.state == Created && o.retryOp.None?
  }

  /** The filed object loses some members and gains others, and the cloud is told if it would be. */
  ghost predicate Changed(s: State, t: State, id: Id, added: set<string>, removed: set<string>) {
    && Files(s, id) && Files(t, id) && t.index[id] == s.index[id] && s.inflight <= t.inflight
    && Alike(s.groups[s.index[id]], t.groups[t.index[id]])
    && t.groups[t.index[id]].members == s.groups[s.index[id]].members - removed + added
    && (Tells(s.inflight, t.inflight, s.index[id]) <==> Listens(s.groups[s.index[id]]))
  }

  /** A new object is filed. */
  ghost predicate Appears(s: State, t: State, id: Id, members: set<string>) {
    && id !in s.index && Files(t, id) && s.inflight <= t.inflight && t.groups[t.index[id]].members == members
    && !t.groups[t.index[id]].deletePending && t.groups[t.index[id]].state == Init
  }

  lemma UnmovedSelf(s: State)
    ensures AllUnmoved(s, s)
  {
  }

  lemma UnmovedTrans(s: State, t: State, u: State, id: Id)
    requires Unmoved(s, t, id) && Unmoved(t, u, id)
    ensures Unmoved(s, u, id)
  {
    hide Tells;
    if Files(s, id) {
      TellsTrans(s.inflight, t.inflight, u.inflight, s.index[id]);
    }
  }

  lemma AllUnmovedTrans(s: State, t: State, u: State)
    requires AllUnmoved(s, t) && AllUnmoved(t, u)
    ensures AllUnmoved(s, u)
  {
    hide Unmoved;
    forall id ensures Unmoved(s, u, id) {
      UnmovedTrans(s, t, u, id);
    }
  }

  lemma ChangedLater(s: State, t: State, u: State, id: Id, added: set<string>, removed: set<string>)
    requires Changed(s, t, id, added, removed) && Unmoved(t, u, id)
    ensures Changed(s, u, id, added, removed)
  {
    hide Tells;
    TellsTrans(s.inflight, t.inflight, u.inflight, s.index[id]);
  }

  lemma ChangedSince(s: State, t: State, u: State, id: Id, added: set<string>, removed: set<string>)
    requires Unmoved(s, t, id) && Changed(t, u, id, added, removed) && Files(s, id)
    ensures Changed(s, u, id, added, removed)
  {
    hide Tells;
    TellsTrans(s.inflight, t.inflight, u.inflight, s.index[id]);
  }

  lemma AppearsLater(s: State, t: State, u: State, id: Id, members: set<string>)
    requires Appears(s, t, id, members) && Unmoved(t, u, id)
    ensures Appears(s, u, id, members)
  {
    hide Tells;
  }

  // ---------------------------------------------------------------- one VPC of an event

  function At(m: map<string, set<string>>, vpc: string): set<string> {
    if vpc in m then m[vpc] else {}
  }

  /** Members that join; what is left of the removals if they have not been dealt with at the same time. */
  ghost predicate Joins(s: State, t: State, id: Id, added: set<string>, removed: set<string>, rest: set<string>) {
    if added == {} || (Files(s, id) && added == s.groups[s.index[id]].members) then Unmoved(s, t, id) && rest == removed
    else if Files(s, id) then Changed(s, t, id, added, removed) && rest == {}
    else Appears(s, t, id, added) && rest == removed
  }

  /** Members that leave. */
  ghost predicate Leaves(s: State, t: State, id: Id, removed: set<string>) {
    if Files(s, id) && removed != {} then Changed(s, t, id, {}, removed) else Unmoved(s, t, id)
  }

  /** The members an object has after an event, given those it had; without an object, those of a new one. */
  function After(members: set<string>, filed: bool, added: set<string>, removed: set<string>): set<string> {
    if !filed then added - removed else if added == members then members - removed else members - removed + added
  }

  /** The event says something about the members of this VPC that is not known yet. */
  predicate News(members: set<string>, added: set<string>, removed: set<string>) {
    (added != {} && added != members) || removed != {}
  }

  /**
   What an event makes of the object of one VPC, whose members have been pruned: it has the members it should, and the
   cloud has been told exactly if there was news and it would be told of any.
   */
  ghost predicate Moved(s: State, t: State, id: Id, added: set<string>, removed: set<string>) {
    if Files(s, id) then
      var o := s.groups[s.index[id]];
      && Files(t, id) && t.index[id] == s.index[id] && s.inflight <= t.inflight
      && Alike(o, t.groups[t.index[id]])
      && t.groups[t.index[id]].members == After(o.members, true, added, removed)
      && (Tells(s.inflight, t.inflight, s.index[id]) <==> Listens(o) && News(o.members, added, removed))
    else if added != {} then Appears(s, t, id, After({}, false, added, removed))
    else id in t.index <==> id in s.index
  }

  lemma JoinedMoved(s: State, t: State, u: State, id: Id, added: set<string>, removed: set<string>, rest: set<string>)
    requires Joins(s, t, id, added, removed, rest) && Leaves(t, u, id, rest) && (id in s.index ==> Files(s, id))
    ensures Moved(s, u, id, added, removed)
  {
    hide Tells;
    if Files(s, id) {
      TellsTrans(s.inflight, t.inflight, u.inflight, s.index[id]);
    }
  }

  lemma MovedLater(s: State, t: State, u: State, id: Id, added: set<string>, removed: set<string>)
    requires Moved(s, t, id, added, removed) && Unmoved(t, u, id)
    ensures Moved(s, u, id, added, removed)
  {
    hide Tells, News, After;
    if Files(s, id) {
      TellsTrans(s.inflight, t.inflight, u.inflight, s.index[id]);
    }
  }

  /** What an event makes of the object of one VPC: members that occur in missing names go first, and unnoticed. */
  ghost predicate Served(s: State, t: State, id: Id, missing: set<string>, added: set<string>, removed: set<string>) {
    if Files(s, id) then
      var o := s.groups[s.index[id]];
      var members := Spared(o.members, missing);
      && Files(t, id) && t.index[id] == s.index[id] && s.inflight <= t.inflight
      && Alike(o, t.groups[t.index[id]])
      && t.groups[t.index[id]].members == After(members, true, added, removed)
      && (Tells(s.inflight, t.inflight, s.index[id]) <==> Listens(o) && News(members, added, removed))
    else if added != {} then Appears(s, t, id, After({}, false, added, removed))
    else id in t.index <==> id in s.index
  }

  /**
   Does the cloud hear of every change? Of an object it would be told of, exactly if the event says something about the
   members left by then, or none has been pruned.
   */
  lemma HeardExact(s: State, t: State, id: Id, missing: set<string>, added: set<string>, removed: set<string>)
    requires Served(s, t, id, missing, added, removed) && Files(s, id) && Listens(s.groups[s.index[id]])
    ensures var members := s.groups[s.index[id]].members;
            (t.groups[t.index[id]].members != members ==> Tells(s.inflight, t.inflight, s.index[id])) <==>
            News(Spared(members, missing), added, removed) || Spared(members, missing) == members
  {
    hide Tells, Vanished;
  }

  /** A removed member that no longer exists is pruned without a word to the cloud. */
  lemma PrunedUnheard()
    ensures Spared({"vm"}, {"vm"}) == {} && !News(Spared({"vm"}, {"vm"}), {}, {})
  {
    assert OccursAt("vm", "vm", 0);
    assert Contains("vm", "vm");
  }

  /** An object has lost the members that occur in missing names, and nothing else has happened to it. */
  ghost predicate Sheds(s: State, t: State, id: Id, missing: set<string>) {
    && (id in t.index <==> id in s.index) && t.inflight == s.inflight
    && (Files(s, id) ==>
          && Files(t, id) && t.index[id] == s.index[id]
          && t.groups[t.index[id]] ==
               s.groups[s.index[id]].(members := Spared(s.groups[s.index[id]].members, missing)))
  }

  lemma ShedServed(s: State, t: State, u: State, id: Id, missing: set<string>, added: set<string>, removed: set<string>)
    requires Sheds(s, t, id, missing) && Moved(t, u, id, added, removed) && (id in s.index ==> Files(s, id))
    ensures Served(s, u, id, missing, added, removed)
  {
    hide Tells, Vanished, After, News;
  }

  /**
   The members after an event are those before without the ones that leave and with the ones that join, for every
   object and every pair of sets that are disjoint. For sets that are not it is so exactly if the object was filed and
   its members were not just those that join.
   */
  lemma AfterExact(members: set<string>, filed: bool, added: set<string>, removed: set<string>)
    requires !filed ==> members == {}
    ensures After(members, filed, added, removed) == members - removed + added <==>
            added !! removed || (filed && added != members)
  {
    if !(added !! removed) && !(filed && added != members) {
      var x :| x in added && x in removed;
      assert x !in After(members, filed, added, removed) && x in members - removed + added;
    }
  }

  // ---------------------------------------------------------------- all VPCs of an event

  /** Members have joined, but for some VPCs; `rest` is what is left of the removals. */
  ghost predicate Joining(s: State, t: State, name: GroupName, added: map<string, set<string>>,
                          removed: map<string, set<string>>, rest: map<string, set<string>>, todo: set<string>) {
    && (forall id: Id :: id.Group() != name ==> Unmoved(s, t, id))
    && forall vpc ::
         Joined(s, t, Id(name.kind, name.name, vpc), At(added, vpc), At(removed, vpc), At(rest, vpc), vpc in todo)
  }

  ghost predicate Joined(s: State, t: State, id: Id, added: set<string>, removed: set<string>, rest: set<string>,
                         waits: bool) {
    !id.IpBlocks() ==> if waits then Unmoved(s, t, id) && rest == removed else Joins(s, t, id, added, removed, rest)
  }

  lemma NoneJoined(s: State, name: GroupName, added: map<string, set<string>>, removed: map<string, set<string>>)
    ensures Joining(s, s, name, added, removed, removed, added.Keys)
  {
    UnmovedSelf(s);
    hide Unmoved, Changed, Appears;
  }

  lemma JoiningNext(s: State, t: State, u: State, name: GroupName, added: map<string, set<string>>,
                    removed: map<string, set<string>>, rest: map<string, set<string>>, merged: bool,
                    todo: set<string>, vpc: string)
    requires Joining(s, t, name, added, removed, rest, todo) && vpc in todo && vpc in added && added[vpc] != {}
    requires forall id: Id :: id in s.index ==> Files(s, id)
    requires var id := Id(name.kind, name.name, vpc);
             && (!id.IpBlocks() ==> Joins(t, u, id, added[vpc], At(rest, vpc), if merged then {} else At(rest, vpc)))
             && forall other :: other != id ==> Unmoved(t, u, other)
    ensures Joining(s, u, name, added, removed, if merged then rest - {vpc} else rest, todo - {vpc})
  {
    var left := if merged then rest - {vpc} else rest;
    hide Unmoved, Joins;
    forall id: Id | id.Group() != name ensures Unmoved(s, u, id) {
      UnmovedTrans(s, t, u, id);
    }
    forall v ensures Joined(s, u, Id(name.kind, name.name, v), At(added, v), At(removed, v), At(left, v),
                            v in todo - {vpc}) {
      var id := Id(name.kind, name.name, v);
      assert Joined(s, t, id, At(added, v), At(removed, v), At(rest, v), v in todo);
      if !id.IpBlocks() {
        if v == vpc {
          JoinsSince(s, t, u, id, added[v], At(removed, v), At(left, v));
        } else if v in todo {
          UnmovedTrans(s, t, u, id);
        } else {
          JoinsLater(s, t, u, id, At(added, v), At(removed, v), At(rest, v));
        }
      }
    }
  }

  lemma JoinsSince(s: State, t: State, u: State, id: Id, added: set<string>, removed: set<string>, rest: set<string>)
    requires Unmoved(s, t, id) && Joins(t, u, id, added, removed, rest) && (id in s.index ==> Files(s, id))
    ensures Joins(s, u, id, added, removed, rest)
  {
    if Files(s, id) {
      if added != {} && added != s.groups[s.index[id]].members {
        ChangedSince(s, t, u, id, added, removed);
      } else {
        UnmovedTrans(s, t, u, id);
      }
    } else if added == {} {
      UnmovedTrans(s, t, u, id);
    }
    hide Tells;
  }

  lemma JoinsLater(s: State, t: State, u: State, id: Id, added: set<string>, removed: set<string>, rest: set<string>)
    requires Joins(s, t, id, added, removed, rest) && Unmoved(t, u, id)
    ensures Joins(s, u, id, added, removed, rest)
  {
    hide Unmoved, Changed, Appears;
    if added == {} || (Files(s, id) && added == s.groups[s.index[id]].members) {
      UnmovedTrans(s, t, u, id);
    } else if Files(s, id) {
      ChangedLater(s, t, u, id, added, removed);
    } else {
      AppearsLater(s, t, u, id, added);
    }
  }

  /** Members have left, but for some VPCs. */
  ghost predicate Leaving(s: State, t: State, name: GroupName, removed: map<string, set<string>>, todo: set<string>) {
    && (forall id: Id :: id.Group() != name ==> Unmoved(s, t, id))
    && forall vpc :: Departed(s, t, Id(name.kind, name.name, vpc), At(removed, vpc), vpc in todo)
  }

  ghost predicate Departed(s: State, t: State, id: Id, removed: set<string>, waits: bool) {
    !id.IpBlocks() ==> if waits then Unmoved(s, t, id) else Leaves(s, t, id, removed)
  }

  lemma NoneDeparted(s: State, name: GroupName, removed: map<string, set<string>>)
    ensures Leaving(s, s, name, removed, removed.Keys)
  {
    UnmovedSelf(s);
    hide Unmoved, Changed;
  }

  lemma LeavingNext(s: State, t: State, u: State, name: GroupName, removed: map<string, set<string>>,
                    todo: set<string>, vpc: string)
    requires Leaving(s, t, name, removed, todo) && vpc in todo && vpc in removed && removed[vpc] != {}
    requires forall id: Id :: id in s.index ==> Files(s, id)
    requires var id := Id(name.kind, name.name, vpc);
             && (!id.IpBlocks() ==> if Files(t, id) then Changed(t, u, id, {}, removed[vpc]) else Unmoved(t, u, id))
             && forall other :: other != id ==> Unmoved(t, u, other)
    ensures Leaving(s, u, name, removed, todo - {vpc})
  {
    hide Unmoved, Leaves, Changed;
    forall id: Id | id.Group() != name ensures Unmoved(s, u, id) {
      UnmovedTrans(s, t, u, id);
    }
    forall v ensures Departed(s, u, Id(name.kind, name.name, v), At(removed, v), v in todo - {vpc}) {
      var id := Id(name.kind, name.name, v);
      assert Departed(s, t, id, At(removed, v), v in todo);
      if !id.IpBlocks() {
        if v == vpc {
          LeavesSince(s, t, u, id, removed[v]);
        } else if v in todo {
          UnmovedTrans(s, t, u, id);
        } else {
          LeavesLater(s, t, u, id, At(removed, v));
        }
      }
    }
  }

  lemma LeavesSince(s: State, t: State, u: State, id: Id, removed: set<string>)
    requires Unmoved(s, t, id) && (id in s.index ==> Files(s, id)) && (removed != {} || !Files(s, id))
    requires if Files(t, id) then Changed(t, u, id, {}, removed) else Unmoved(t, u, id)
    ensures Leaves(s, u, id, removed)
  {
    if Files(s, id) {
      ChangedSince(s, t, u, id, {}, removed);
    } else {
      UnmovedTrans(s, t, u, id);
    }
    hide Tells;
  }

  lemma LeavesLater(s: State, t: State, u: State, id: Id, removed: set<string>)
    requires Leaves(s, t, id, removed) && Unmoved(t, u, id)
    ensures Leaves(s, u, id, removed)
  {
    hide Unmoved, Changed;
    if Files(s, id) && removed != {} {
      ChangedLater(s, t, u, id, {}, removed);
    } else {
      UnmovedTrans(s, t, u, id);
    }
  }

  // ---------------------------------------------------------------- the operations

  lemma UpdateChanges(s: State, id: Id, added: set<string>, removed: set<string>)
    requires Files(s, id) && s.groups[s.index[id]].id == id && (added != {} || removed != {})
    ensures Changed(s, UpdateImpl(s, s.index[id], added, removed, None), id, added, removed)
  {
    hide Namers, ReadyIds;
    var t := UpdateImpl(s, s.index[id], added, removed, None);
    if Listens(s.groups[s.index[id]]) {
      assert t.inflight[|s.inflight|].what.MembersCall?;
    }
  }

  lemma UpdateUnmoves(s: State, g: Ref, added: set<string>, removed: set<string>, id: Id)
    requires g in s.groups && (id in s.index ==> s.index[id] != g)
    ensures Unmoved(s, UpdateImpl(s, g, added, removed, None), id)
  {
    hide Namers, ReadyIds;
  }

  lemma UpdateRulesUnmoves(s: State, g: Ref, retried: Option<Op>)
    requires g in s.groups
    ensures AllUnmoved(s, UpdateRules(s, g, retried))
  {
    hide Namers, ReadyIds, RuleRefs;
  }

  lemma PoliciesUnmove(s: State, policies: map<string, Policy>)
    ensures AllUnmoved(s, s.(policies := policies))
  {
  }

  lemma AddAppears(s: State, id: Id, members: set<string>)
    requires id !in s.index
    ensures Appears(s, AddImpl(Allocate(s, id, members, Init), s.next, None), id, members)
  {
    hide Namers, ReadyIds;
  }

  lemma AddUnmoves(s: State, id: Id, members: set<string>, other: Id)
    requires id !in s.index && other != id && s.next !in s.groups
    ensures Unmoved(s, AddImpl(Allocate(s, id, members, Init), s.next, None), other)
  {
    hide Namers, ReadyIds;
  }
}
