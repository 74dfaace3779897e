/** The NetworkPolicy reconciler: its event handlers, each keeping the invariant in every step. */
module Reconciler {
  import opened PolicyTypes
  import opened PendingGroups
  import opened GroupMachine
  import opened GroupInvariants
  import opened GroupProgress
  import opened GroupMembers
  import opened EventOutcomes

  method AnyBroken(world: World, members: seq<Member>) returns (broken: bool)
    ensures broken <==> exists m :: m in members && m.key in world && world[m.key].Broken?
  {
    for i := 0 to |members|
      invariant forall m :: m in members[..i] && m.key in world ==> !world[m.key].Broken?
    {
      if members[i].key in world && world[members[i].key].Broken? {
        return true;
      }
    }
    return false;
  }

  /**
   vpcsFromGroupMembers: members by VPC, the addresses of those that are no machines, and the names that do not exist.
   */
  method Resolve(world: World, members: seq<Member>)
    returns (placed: map<string, set<string>>, ips: set<Prefix>, missing: set<string>)
    ensures forall v, r :: v in placed && r in placed[v] <==>
              exists m :: m in members && m.key in world && world[m.key] == Vm(v, r)
    ensures forall v :: v in placed ==> placed[v] != {}
    ensures forall x :: x in ips <==> Has(world, members, x)
    ensures forall n :: n in missing <==> exists m :: m in members && m.key !in world && m.key.name == n
    ensures missing == {} <==> forall m :: m in members ==> m.key in world
  {
    placed, ips, missing := map[], {}, {};
    for i := 0 to |members|
      invariant forall v, r :: v in placed && r in placed[v] <==>
                  exists m :: m in members[..i] && m.key in world && world[m.key] == Vm(v, r)
      invariant forall v :: v in placed ==> placed[v] != {}
      invariant forall x :: x in ips <==> Has(world, members[..i], x)
      invariant forall n :: n in missing <==> exists m :: m in members[..i] && m.key !in world && m.key.name == n
      invariant missing == {} <==> forall m :: m in members[..i] ==> m.key in world
    {
      var m := members[i];
      assert members[..i + 1] == members[..i] + [m];
      if m.key !in world {
        missing := missing + {m.key.name};
      } else if world[m.key].Vm? {
        var vpc := world[m.key].vpc;
        placed := placed[vpc := (if vpc in placed then placed[vpc] else {}) + {world[m.key].resource}];
      } else if world[m.key].Address? {
        ips := ips + world[m.key].ips;
      }
    }
    assert members[..|members|] == members;
  }

  /** The lookups of one event: members to add and remove by VPC, addresses, and removed members that are gone. */
  method ResolveEvent(world: World, e: GroupEvent)
    returns (failed: bool, placed: map<string, set<string>>, gone: map<string, set<string>>,
             joined: set<Prefix>, left: set<Prefix>, stale: set<string>)
    ensures failed <==> Unresolved(world, e)
    ensures !failed ==> Sorted(world, e.added, placed)
    ensures !failed ==> Sorted(world, if e.kind == Modified then e.removed else [], gone)
    ensures !failed ==> forall x :: x in joined <==> Has(world, e.added, x)
    ensures !failed ==> forall x :: x in left <==> e.kind == Modified && Has(world, e.removed, x)
    ensures !failed ==> stale == Missing(world, e)
  {
    hide Sorted;
    placed, gone, joined, left, stale := map[], map[], {}, {}, {};
    failed := AnyBroken(world, e.added);
    if failed {
      return;
    }
    var missing;
    placed, joined, missing := Resolve(world, e.added);
    if missing != {} {
      return true, placed, gone, joined, left, stale;
    }
    ResolvedSorted(world, e.added, placed);
    NoneSorted(world);
    if e.kind == Modified {
      failed := AnyBroken(world, e.removed);
      if !failed {
        gone, left, stale := Resolve(world, e.removed);
        ResolvedSorted(world, e.removed, gone);
      }
    }
  }

  class NetworkPolicyReconciler {
    var synced: bool
    var bookmarks: nat
    var groups: map<Ref, SecurityGroup>
    var next: Ref
    var index: map<Id, Ref>
    var ips: map<string, set<Prefix>>
    var policies: map<string, Policy>
    var retryQueue: map<QueueKey, RetryItem>
    var pendingDelete: map<GroupName, PendingGroup>
    var inflight: seq<Call>
    ghost var past: Past

    ghost function View(): State
      reads this
    {
      State(synced, bookmarks, groups, next, index, Blocks(ips), policies, retryQueue, pendingDelete, inflight, past)
    }

    constructor ()
      ensures View() == EMPTY && Settled(View())
    {
      synced, bookmarks, groups, next, index, ips, policies := false, 0, map[], 0, map[], map[], map[];
      retryQueue, pendingDelete, inflight := map[], map[], [];
      past := EMPTY.past;
      new;
      hide Settled;
      EmptySettled();
    }

    // -------------------------------------------------------------- cloud-facing operations

    method Emit(g: Ref, what: CallKind, ghost retried: Option<Op>)
      requires g in groups
      modifies this`inflight, this`past
      ensures View() == GroupMachine.Emit(old(View()), g, what, retried)
    {
      ghost var s := View();
      inflight := inflight + [Call(g, groups[g].id, what)];
      past := GroupMachine.Emit(s, g, what, retried).past;
    }

    method AddImpl(g: Ref, ghost retried: Option<Op>)
      requires Inv(View()) && MayFile(View(), g) && !groups[g].id.IpBlocks()
      requires retried.Some? ==> retried.value == CreateOp
      modifies this
      ensures View() == GroupMachine.AddImpl(old(View()), g, retried)
      ensures Grown(old(View()), View(), old(groups)[g].id.Group())
      ensures old(Harmless(View(), g)) ==> Stirred(old(View()), View(), {old(groups)[g].id.Group()})
      ensures old(past.overlapped || (groups[g].id in index && index[groups[g].id] == g)) ==> Kept(old(View()), View())
    {
      hide Inv, Evolves, MayFile, Moves, NewlyStale, Steady;
      AddImplKeeps(View(), g, retried);
      index := index[groups[g].id := g];
      if !synced || groups[g].retryOp.Some? {
        return;
      }
      groups := groups[g := groups[g].(status := InProgress)];
      Emit(g, CreateCall, retried);
    }

    method IssueDelete(g: Ref, ghost retried: Option<Op>)
      requires g in groups && groups[g].id.Group() in pendingDelete
      modifies this
      ensures View() == GroupMachine.IssueDelete(old(View()), g, retried)
    {
      var name := groups[g].id.Group();
      pendingDelete := pendingDelete[name := pendingDelete[name].(refCnt := Some(RefCnt(pendingDelete, name) + 1),
          runOnClear := false)];
      groups := groups[g := groups[g].(status := InProgress)];
      Emit(g, DeleteCall, retried);
    }

    /** A group leaves its indexer and the retry queue. */
    method Unfile(g: Ref, state: GroupState)
      requires g in groups
      modifies this`index, this`retryQueue, this`groups, this`past
      ensures View() == GroupMachine.Unfile(old(View()), g, state)
    {
      var o := groups[g];
      index, retryQueue := index - {o.id}, retryQueue - {SgKey(o.id)};
      groups := groups[g := o.(retryOp := None, state := state)];
      past := past.(released := past.released + {g});
    }

    /** The rest of deleteImpl once no policy names the group. */
    method Release(g: Ref, ghost retried: Option<Op>)
      requires g in groups && groups[g].id.Group() in pendingDelete
      modifies this
      ensures View() == GroupMachine.Release(old(View()), g, retried)
    {
      hide GroupMachine.IssueDelete;
      if groups[g].state == Init && groups[g].status != InProgress {
        Unfile(g, Init);
      } else {
        Unfile(g, Garbage);
        IssueDelete(g, retried);
      }
    }

    method DeleteImpl(g: Ref, ghost retried: Option<Op>)
      requires Inv(View()) && Deletable(View(), g, retried)
      modifies this
      ensures View() == GroupMachine.DeleteImpl(old(View()), g, retried)
      ensures Stirred(old(View()), View(), {old(groups)[g].id.Group()})
      ensures old(groups[g].state == Garbage || !Stable(View(), groups[g].id)) ==> Kept(old(View()), View())
    {
      hide Inv, Stirred, Kept, Stable, GroupMachine.Release, GroupMachine.IssueDelete;
      DeleteImplKeeps(View(), g, retried);
      var name := groups[g].id.Group();
      if name !in pendingDelete {
        pendingDelete := pendingDelete[name := PENDING_DELETE];
      }
      if groups[g].state != Garbage {
        if Namers(policies, name) != {} {
          groups := groups[g := groups[g].(deletePending := true)];
          return;
        }
        Release(g, retried);
        return;
      }
      if groups[g].retryOp.Some? {
        return;
      }
      IssueDelete(g, retried);
    }

    method UpdateImpl(g: Ref, added: set<string>, removed: set<string>, ghost retried: Option<Op>)
      requires Inv(View()) && Live(View(), g) && (retried.Some? ==> retried.value == UpdateMembersOp)
      modifies this
      ensures View() == GroupMachine.UpdateImpl(old(View()), g, added, removed, retried)
      ensures Stirred(old(View()), View(), {old(groups)[g].id.Group()})
      ensures added == {} && removed == {} ==> Kept(old(View()), View())
    {
      hide Inv, Stirred, Kept;
      UpdateImplKeeps(View(), g, added, removed, retried);
      if added == {} && removed == {} && groups[g].members == {} {
        return;
      }
      groups := groups[g := groups[g].(members := groups[g].members - removed + added)];
      if groups[g].state != Created || groups[g].retryOp.Some? {
        return;
      }
      Emit(g, MembersCall, retried);
    }

    method UpdateRules(g: Ref, ghost retried: Option<Op>)
      requires Inv(View()) && Live(View(), g) && groups[g].id.kind == AppliedTo
      requires retried.Some? ==> retried.value == UpdateRulesOp || retried.value == ClearMembersOp
      modifies this
      ensures View() == GroupMachine.UpdateRules(old(View()), g, retried)
      ensures Kept(old(View()), View())
    {
      hide Inv, Evolves;
      UpdateRulesKeeps(View(), g, retried);
      if groups[g].state != Created || groups[g].retryOp.Some? {
        return;
      }
      var namers := Namers(policies, groups[g].id.Group());
      if namers == {} {
        if groups[g].hasMembers {
          Emit(g, ClearCall, retried);
        } else {
          groups := groups[g := groups[g].(hasRules := false)];
        }
        return;
      }
      var ids, todo := {}, namers;
      while todo != {}
        invariant todo <= namers && View() == old(View())
        invariant forall p :: p in namers - todo ==> policies[p].ready
        invariant ids == set p, id | p in namers - todo && id in policies[p].refs :: id
        decreases todo
      {
        var p :| p in todo;
        if !policies[p].ready {
          return;
        }
        ids := ids + policies[p].refs;
        todo := todo - {p};
      }
      assert ids == RuleRefs(policies, groups[g].id.Group());
      Emit(g, RulesCall(ids), retried);
    }

    // -------------------------------------------------------------- retry queue

    method Reissue(g: Ref, op: Op)
      requires Inv(View()) && Live(View(), g) && (groups[g].state == Garbage <==> op == DeleteOp)
      modifies this
      ensures View() == GroupMachine.Reissue(old(View()), g, op)
      ensures Kept(old(View()), View())
    {
      hide Inv, Evolves, GroupMachine.AddImpl, GroupMachine.DeleteImpl, GroupMachine.UpdateImpl,
          GroupMachine.UpdateRules;
      KeptSelf(View());
      if op == CreateOp {
        AddImpl(g, Some(op));
      } else if op == UpdateMembersOp {
        UpdateImpl(g, {}, {}, Some(op));
      } else if op == DeleteOp {
        DeleteImpl(g, Some(op));
      } else if groups[g].id.kind == AppliedTo {
        UpdateRules(g, Some(op));
      }
    }

    method RunIdle(g: Ref)
      requires Inv(View()) && Live(View(), g)
      modifies this
      ensures View() == GroupMachine.RunIdle(old(View()), g)
    {
      hide Inv, Evolves, GroupMachine.UpdateImpl, GroupMachine.UpdateRules;
      if groups[g].state != Garbage {
        if groups[g].id.kind == AppliedTo {
          TouchKeeps(View(), g, groups[g].(hasMembers := false));
          groups := groups[g := groups[g].(hasMembers := false)];
          UpdateRules(g, None);
        } else {
          UpdateImpl(g, {}, {}, None);
        }
      }
    }

    method RunArmed(g: Ref, op: Op)
      requires Inv(View()) && Live(View(), g) && (groups[g].state == Garbage <==> op == DeleteOp)
      requires op == UpdateRulesOp ==> groups[g].id.kind == AppliedTo
      requires groups[g].retryOp == Some(op) && !groups[g].retryInProgress
      modifies this
      ensures View() == GroupMachine.RunArmed(old(View()), g, op)
    {
      hide Inv, Evolves, GroupMachine.Reissue;
      PutKeeps(View(), g, groups[g].(retryOp := None));
      StaysLive(View(), Put(View(), g, groups[g].(retryOp := None)), g);
      groups := groups[g := groups[g].(retryOp := None)];
      Reissue(g, op);
      groups := groups[g := groups[g].(retryOp := Some(op), retryInProgress := true)];
    }

    /** runPendingItemImpl: is the item done, and does the retry fail its type assertion? */
    method RunPendingItem(g: Ref) returns (del: bool, ghost panics: bool)
      requires Inv(View()) && Live(View(), g) && Runs(groups[g])
      modifies this
      ensures View() == RunItem(old(View()), g) && del == Done(old(groups)[g]) && panics == Panics(old(groups)[g])
      ensures Kept(old(View()), View()) && Local(old(View()), View(), g) && Live(View(), g)
    {
      RunItemKeeps(View(), g);
      if groups[g].retryOp.None? {
        hide Inv, Evolves, GroupMachine.RunIdle, GroupMachine.RunArmed;
        RunIdle(g);
        return true, false;
      }
      var op := groups[g].retryOp.value;
      assert groups[g].state == Garbage <==> op == DeleteOp;
      RulesArmed(View(), g);
      hide Inv, Evolves, GroupMachine.RunIdle, GroupMachine.RunArmed;
      panics := Panics(groups[g]);
      RunArmed(g, op);
      del := false;
    }

    method Requeue(drop: bool, item: RetryItem)
      requires item.SgItem? && item.ref in groups
      modifies this`retryQueue
      ensures View() == GroupMachine.Requeue(old(View()), drop, item)
    {
      if drop {
        retryQueue := retryQueue - {SgKey(groups[item.ref].id)};
      } else {
        retryQueue := retryQueue[SgKey(groups[item.ref].id) := item];
      }
    }

    /** An item has run: it leaves the queue or stays with its new count. */
    method Conclude(key: QueueKey, item: Option<RetryItem>, ghost run: Ran, ghost panics: bool)
      requires run.key == key
      modifies this`retryQueue, this`past
      ensures View() == GroupMachine.Conclude(old(View()), run, panics, item)
    {
      past := GroupMachine.Conclude(View(), run, panics, item).past;
      retryQueue := if item.None? then retryQueue - {key} else retryQueue[key := item.value];
    }

    method CheckItem(item: RetryItem)
      requires Inv(View()) && item.SgItem? && Live(View(), item.ref)
      modifies this
      ensures View() == GroupMachine.CheckItem(old(View()), item)
    {
      hide Inv, Evolves, RunItem, GroupMachine.Requeue;
      var o := groups[item.ref];
      if Runs(o) {
        var del;
        ghost var panics;
        del, panics := RunPendingItem(item.ref);
        Conclude(SgKey(o.id), if del || item.opCnt - 1 <= 0 then None else Some(Charged(item, false)),
                 Ran(SgKey(o.id), o.retryOp, item.runs + 1, false), panics);
      } else {
        Requeue(item.opCnt <= 0, item);
      }
    }

    /** PendingItemQueue.Update for a security group; the queued object need not be the one that was answered. */
    method UpdateRetryQueue(key: QueueKey, checkRun: bool, op: Op)
      requires Inv(View()) && key in retryQueue && key.SgKey? && Heard(View(), key.id, op)
      modifies this
      ensures old(Held(View(), key)) && View() == UpdateQueue(old(View()), key, checkRun, op)
      ensures Kept(old(View()), View())
    {
      hide Inv, Evolves, UpdateItem, GroupMachine.CheckItem;
      UpdateQueueKeeps(View(), key, checkRun, op);
      UpdateItemKeeps(View(), key, op);
      var item := retryQueue[key];
      groups := groups[item.ref := UpdateItem(groups[item.ref], op)];
      if checkRun {
        CheckItem(item);
      }
    }

    /** PendingItemQueue.CheckToRun for one security group. */
    method TickItem(item: RetryItem)
      requires Inv(View()) && item.SgItem? && Live(View(), item.ref)
      modifies this
      ensures View() == GroupMachine.TickItem(old(View()), item)
    {
      hide Inv, Evolves, RunItem, GroupMachine.Requeue;
      if Runs(groups[item.ref]) {
        if item.opCnt > 0 {
          var o := groups[item.ref];
          var del;
          ghost var panics;
          del, panics := RunPendingItem(item.ref);
          Conclude(SgKey(o.id), if del then None else Some(Charged(item, true)),
                   Ran(SgKey(o.id), o.retryOp, item.runs + 1, true), panics);
        } else {
          Requeue(true, item);
        }
      }
    }

    /** notifyImpl up to the pending-delete queue; returns whether the retry queue will try again. */
    method SettleRetry(g: Ref, op: Op, failed: bool) returns (moreOps: bool)
      requires Inv(View()) && Live(View(), g) && Reported(View(), g, op)
      modifies this
      ensures old(Held(View(), SgKey(groups[g].id))) && View() == GroupMachine.SettleRetry(old(View()), g, op, failed)
      ensures Kept(old(View()), View())
      ensures failed && (old(groups)[g].state != Garbage || op == DeleteOp) ==> SgKey(old(groups)[g].id) in retryQueue
      ensures moreOps <==> WillRetry(View(), SgKey(old(groups)[g].id))
    {
      hide Inv, Evolves, UpdateQueue;
      if failed {
        UpdateQueueIdle(ArmRetry(View(), g, op, failed), SgKey(groups[g].id), op);
      }
      SettleRetryKeeps(View(), g, op, failed);
      ArmRetryKeeps(View(), g, op, failed);
      StillReported(View(), ArmRetry(View(), g, op, failed), g, op);
      var key := SgKey(groups[g].id);
      if failed && key !in retryQueue && (groups[g].state != Garbage || op == DeleteOp) {
        groups := groups[g := groups[g].(retryOp := Some(op))];
        retryQueue := retryQueue[key := SgItem(g, OPERATION_COUNT, 0, 0)];
      }
      if key in retryQueue {
        UpdateRetryQueue(key, !failed, op);
      }
      moreOps := key in retryQueue && retryQueue[key].opCnt > 0;
    }

    // -------------------------------------------------------------- policies

    /** ByIndex on a group indexer. */
    function ByIndex(g: GroupName): (ids: set<Id>)
      reads this
      ensures ids == Members(index, g)
    {
      set id | id in index && id.Group() == g
    }

    /** Are all security groups of an address group known and ready? */
    method CheckReady(g: GroupName) returns (ready: bool)
      requires forall id :: id in index ==> index[id] in groups
      ensures ready == GroupReady(index, groups, g)
    {
      var sgs := ByIndex(g);
      if sgs == {} {
        return false;
      }
      var todo := sgs;
      while todo != {}
        invariant todo <= sgs
        invariant forall id :: id in sgs - todo ==> IsReady(groups[index[id]])
        decreases todo
      {
        var id :| id in todo;
        if !IsReady(groups[index[id]]) {
          return false;
        }
        todo := todo - {id};
      }
      return true;
    }

    method ComputeRulesReady(p: string)
      requires p in policies && forall id :: id in index ==> index[id] in groups
      modifies this`policies
      ensures View() == old(View()).(policies :=
                old(policies)[p := old(policies[p]).(ready := old(policies[p].ready) ||
                    old(AllReady(index, groups, policies[p].rules)))])
    {
      if policies[p].ready {
        return;
      }
      var names := NamedAddressGroups(policies[p].rules);
      var todo := names;
      while todo != {}
        invariant todo <= names && policies == old(policies)
        invariant forall g :: g in names - todo ==> GroupReady(index, groups, GroupName(Addr, g))
        decreases todo
      {
        var g :| g in todo;
        var ready := CheckReady(GroupName(Addr, g));
        if !ready {
          return;
        }
        todo := todo - {g};
      }
      policies := policies[p := policies[p].(ready := true)];
    }

    /** The security groups a rule refers to and the addresses it has; None if it names a group that is not known. */
    method ResolveRule(r: PolicyRule) returns (refs: Option<set<Id>>, addresses: map<string, set<Prefix>>)
      ensures refs.None? <==> !AllKnown(index, [r])
      ensures refs.Some? ==> refs.value == Resolved(index, [r]) && addresses == ResolvedIps(ips, [r])
    {
      assert RemoteAddressGroups([r]) == set g | g in r.Remote().addressGroups;
      var ids: set<Id> := {};
      addresses := map[];
      var names := r.Remote().addressGroups;
      for i := 0 to |names|
        invariant Gathered(names[..i], ids, addresses)
      {
        assert names[..i + 1] == names[..i] + [names[i]];
        var sgs := ByIndex(GroupName(Addr, names[i]));
        if sgs == {} {
          return None, map[];
        }
        GatheredNext(names[..i], names[i], ids, addresses);
        ids := ids + set id | id in sgs && id.vpc != "";
        addresses := if names[i] in ips && ips[names[i]] != {} then addresses[names[i] := ips[names[i]]] else addresses;
      }
      assert names[..|names|] == names;
      AllGathered(r, ids, addresses);
      return Some(ids), addresses;
    }

    /** The groups of these names are all known; their security groups and addresses. */
    ghost predicate Gathered(names: seq<string>, ids: set<Id>, addresses: map<string, set<Prefix>>)
      reads this
    {
      && (forall g :: g in names ==> Members(index, GroupName(Addr, g)) != {})
      && ids == (set id | id in index && id.kind == Addr && id.vpc != "" && id.name in names)
      && addresses == map g | g in names && g in ips && ips[g] != {} :: ips[g]
    }

    lemma GatheredNext(names: seq<string>, name: string, ids: set<Id>, addresses: map<string, set<Prefix>>)
      requires Gathered(names, ids, addresses) && Members(index, GroupName(Addr, name)) != {}
      ensures Gathered(names + [name], ids + (set id | id in Members(index, GroupName(Addr, name)) && id.vpc != ""),
                       if name in ips && ips[name] != {} then addresses[name := ips[name]] else addresses)
    {
    }

    lemma AllGathered(r: PolicyRule, ids: set<Id>, addresses: map<string, set<Prefix>>)
      requires Gathered(r.Remote().addressGroups, ids, addresses)
      ensures AllKnown(index, [r]) && ids == Resolved(index, [r]) && addresses == ResolvedIps(ips, [r])
    {
      assert RemoteAddressGroups([r]) == set g | g in r.Remote().addressGroups;
    }

    lemma ResolveAppend(rules: seq<PolicyRule>, i: nat)
      requires i < |rules|
      ensures AllKnown(index, rules[..i + 1]) <==> AllKnown(index, rules[..i]) && AllKnown(index, [rules[i]])
      ensures Resolved(index, rules[..i + 1]) == Resolved(index, rules[..i]) + Resolved(index, [rules[i]])
      ensures ResolvedIps(ips, rules[..i + 1]) == ResolvedIps(ips, rules[..i]) + ResolvedIps(ips, [rules[i]])
      ensures AllKnown(index, rules) ==> AllKnown(index, [rules[i]])
    {
      assert rules[..i + 1] == rules[..i] + [rules[i]];
      assert RemoteAddressGroups(rules[..i + 1]) == RemoteAddressGroups(rules[..i]) + RemoteAddressGroups([rules[i]]);
    }

    method ResolveRules(rules: seq<PolicyRule>) returns (refs: Option<set<Id>>, addresses: map<string, set<Prefix>>)
      ensures refs.None? <==> !AllKnown(index, rules)
      ensures refs.Some? ==> refs.value == Resolved(index, rules) && addresses == ResolvedIps(ips, rules)
    {
      hide AllKnown;
      var ids: set<Id> := {};
      addresses := map[];
      assert AllKnown(index, []) by { EmptyKnown(); }
      for i := 0 to |rules|
        invariant AllKnown(index, rules[..i]) && ids == Resolved(index, rules[..i])
        invariant addresses == ResolvedIps(ips, rules[..i])
      {
        ResolveAppend(rules, i);
        var resolved, more := ResolveRule(rules[i]);
        if resolved.None? {
          return None, map[];
        }
        ids, addresses := ids + resolved.value, addresses + more;
      }
      assert rules[..|rules|] == rules;
      return Some(ids), addresses;
    }

    lemma EmptyKnown()
      ensures AllKnown(index, [])
    {
    }

    method ComputeRules(p: string) returns (ready: bool)
      requires Inv(View()) && p in policies
      modifies this
      ensures View() == old(View()).(policies := old(policies)[p := Computed(old(View()), old(policies[p]))])
      ensures ready == policies[p].ready
      ensures Kept(old(View()), View())
    {
      hide Inv, Evolves, AllKnown, Resolved, ResolvedIps, AllReady, Produces;
      IndexLinked(View());
      ComputedKeeps(View(), p);
      var resolved, addresses := ResolveRules(policies[p].rules);
      if resolved.None? {
        policies := policies[p := policies[p].Bare()];
        return false;
      }
      var compiled := Produces(policies[p].rules, resolved.value, addresses);
      policies := policies[p := Policy(policies[p].rules, policies[p].appliedTo, resolved.value, addresses, compiled,
          false, {})];
      ComputeRulesReady(p);
      ready := policies[p].ready;
    }

    // -------------------------------------------------------------- security groups as seen by the handlers

    method Allocate(id: Id, members: set<string>, state: GroupState) returns (g: Ref)
      requires Inv(View()) && state != Garbage
      modifies this`groups, this`next, this`past
      ensures View() == GroupMachine.Allocate(old(View()), id, members, state) && g == old(next)
      ensures Kept(old(View()), View())
    {
      hide Inv, Evolves;
      AllocateKeeps(View(), id, members, state);
      g := next;
      groups, next := groups[g := NewGroup(id, members, state)], next + 1;
      past := GroupMachine.Allocate(old(View()), id, members, state).past;
    }

    /** add of a new IP-block group, which is only indexed, with its addresses. */
    method AddIps(g: Ref, addresses: set<Prefix>)
      requires Inv(View()) && MayFileIps(View(), g)
      modifies this`index, this`ips
      ensures View() == FileIps(old(View()), g, addresses) && Grown(old(View()), View(), groups[g].id.Group())
    {
      hide Inv, Moves, NewlyStale;
      FileIpsGrows(View(), g, addresses);
      index, ips := index[groups[g].id := g], ips[groups[g].id.name := addresses];
    }

    /** add of a new object. */
    method AddNew(id: Id, members: set<string>, addresses: set<Prefix>)
      requires Inv(View()) && id !in index
      modifies this
      ensures Grown(old(View()), View(), id.Group())
      ensures id.kind == AppliedTo ==> Stirred(old(View()), View(), {id.Group()})
      ensures policies == old(policies) && pendingDelete == old(pendingDelete) && retryQueue == old(retryQueue)
      ensures index == old(index)[id := old(next)] && ips == if id.IpBlocks() then old(ips)[id.name := addresses]
                else old(ips)
      ensures !id.IpBlocks() ==> Appears(old(View()), View(), id, members)
      ensures forall other :: other != id ==> Unmoved(old(View()), View(), other)
    {
      hide Inv, Evolves, Steady, GroupMachine.AddImpl, Grown, MayFile, MayFileIps, Unmoved, Appears, Harmless;
      ghost var s := View();
      NewMayFile(s, id, members);
      UnusedNext(s);
      NewUnmoves(s, id, members, addresses);
      var g := Allocate(id, members, Init);
      ghost var t := View();
      KeptGrown(s, t, id.Group());
      if id.IpBlocks() {
        AddIps(g, addresses);
      } else {
        AddAppears(s, id, members);
        NewHarmless(s, id, members);
        AddImpl(g, None);
        if id.kind == AppliedTo {
          KeptStirred(s, t, {id.Group()});
          StirredTrans(s, t, View(), {id.Group()});
        }
      }
      GrownTrans(s, t, View(), id.Group());
    }

    method Update(g: Ref, added: set<string>, removed: set<string>)
      requires Inv(View()) && g in groups && (groups[g].id.IpBlocks() || Live(View(), g))
      modifies this
      ensures Stirred(old(View()), View(), {old(groups)[g].id.Group()})
      ensures added == {} && removed == {} ==> Kept(old(View()), View())
      ensures View() == if old(groups)[g].id.IpBlocks() then old(View())
                else GroupMachine.UpdateImpl(old(View()), g, added, removed, None)
      ensures policies == old(policies) && pendingDelete == old(pendingDelete) && retryQueue == old(retryQueue)
      ensures index == old(index)
      ensures SameStates(old(groups), groups) && View().blocks == old(View()).blocks
      ensures old(inflight) <= inflight && synced == old(synced)
    {
      hide Inv, Stirred, Kept, GroupMachine.UpdateImpl;
      KeptSelf(View());
      KeptStirred(View(), View(), {groups[g].id.Group()});
      if !groups[g].id.IpBlocks() {
        UpdateImplStates(View(), g, added, removed, None);
        UpdateImpl(g, added, removed, None);
      }
    }

    method Delete(g: Ref)
      requires Inv(View()) && g in groups && (groups[g].id.IpBlocks() || Deletable(View(), g, None))
      modifies this
      ensures Stirred(old(View()), View(), {old(groups)[g].id.Group()})
      ensures !old(Stable(View(), groups[g].id)) ==> Kept(old(View()), View())
      ensures old(groups[g].id !in index || Namers(policies, groups[g].id.Group()) == {}) ==> policies == old(policies)
      ensures index == old(index) || index == old(index) - {old(groups[g].id)}
      ensures old(groups[g]).state != Garbage && old(Namers(policies, groups[g].id.Group())) == {} ==>
                old(groups[g].id) !in index
      ensures Untouched(old(View()), View(), g) && old(inflight) <= inflight
      ensures View() == if old(groups[g].id.IpBlocks()) then Erase(old(View()), old(groups)[g].id)
                else GroupMachine.DeleteImpl(old(View()), g, None)
    {
      hide Inv, Stirred, Kept, Stable, GroupMachine.DeleteImpl;
      DeleteImplFrame(View(), g, None);
      if groups[g].id.IpBlocks() {
        var id := groups[g].id;
        EraseKeeps(View(), id);
        if id !in index || Namers(policies, id.Group()) == {} {
          LoseNone(View(), id);
        }
        ips, index, policies := ips - {id.name}, index - {id}, Lose(policies, ips, id.name);
      } else {
        DeleteImpl(g, None);
      }
    }

    /** notifyNetworkPolicyChange. */
    method NotifyPolicyChange(id: Id)
      requires Inv(View()) && id in index
      modifies this
      ensures Kept(old(View()), View()) && policies == old(policies)
      ensures index == old(index) || index == old(index) - {id}
      ensures old(Namers(policies, id.Group())) != {} ==>
                pendingDelete == old(pendingDelete) && index == old(index) && retryQueue == old(retryQueue)
      ensures old(Namers(policies, id.Group())) != {} ==> View().blocks == old(View()).blocks
      ensures !past.overlapped ==> id !in Orphans(index, groups, policies)
      ensures Pushed(old(View()), View(), id) && Untouched(old(View()), View(), old(index[id]))
      ensures old(inflight) <= inflight && (old(Namers(policies, id.Group())) != {} ==> AllUnmoved(old(View()), View()))
    {
      ghost var s := View();
      hide Inv, Evolves, Steady, GroupMachine.UpdateRules, GroupMachine.DeleteImpl, RulesRequest, AllUnmoved, Dismissed,
          Erase;
      FiledLive(s, id);
      KeptSelf(s);
      UnmovedSelf(s);
      var g := index[id];
      var namers := Namers(policies, id.Group());
      if namers == {} && groups[g].deletePending {
        DeleteDismisses(s, id);
        Delete(g);
      } else if id.kind == AppliedTo && !groups[g].deletePending {
        UpdateRulesIssues(s, g, None);
        UpdateRulesUnmoves(s, g, None);
        UpdateRules(g, None);
        NotOrphaned(s, View(), id);
      }
    }

    /** Tells every security group of a group that the policies naming it have changed. */
    method NotifyGroup(name: GroupName)
      requires Inv(View())
      modifies this
      ensures Kept(old(View()), View()) && policies == old(policies) && index.Keys <= old(index).Keys
      ensures old(Namers(policies, name)) != {} ==>
                pendingDelete == old(pendingDelete) && index == old(index) && retryQueue == old(retryQueue)
      ensures old(Namers(policies, name)) != {} ==> View().blocks == old(View()).blocks
      ensures !past.overlapped ==> forall id :: id in Orphans(index, groups, policies) ==> id.Group() != name
      ensures OnlyGroup(old(View()), View(), name.kind, [name.name])
      ensures forall id :: id in old(index) && id.Group() == name ==> Pushed(old(View()), View(), id)
      ensures old(Namers(policies, name)) != {} ==> AllUnmoved(old(View()), View())
    {
      ghost var s := View();
      hide Inv, Evolves, Steady, Orphans, Pushed, Notified, Untouched, Namers, OnlyGroup, AllUnmoved;
      KeptSelf(s);
      UnmovedSelf(s);
      IndexLinked(s);
      NoneNotified(s, name);
      var sgs := ByIndex(name);
      var todo := sgs;
      while todo != {}
        invariant todo <= sgs && Kept(s, View()) && policies == s.policies && index.Keys <= s.index.Keys
        invariant Namers(s.policies, name) != {} ==>
                    pendingDelete == s.pendingDelete && index == s.index && retryQueue == s.retryQueue
        invariant todo <= index.Keys && (Namers(s.policies, name) != {} ==> View().blocks == s.blocks)
        invariant !past.overlapped ==> forall id :: id in sgs - todo ==> id !in Orphans(index, groups, policies)
        invariant Notified(s, View(), name, sgs, todo)
        invariant Namers(s.policies, name) != {} ==> AllUnmoved(s, View())
        decreases todo
      {
        var id :| id in todo;
        ghost var t := View();
        NotifyPolicyChange(id);
        KeptTrans(s, t, View());
        if Namers(s.policies, name) != {} {
          AllUnmovedTrans(s, t, View());
        }
        NoneOrphaned(t, View());
        NotifiedNext(s, t, View(), name, sgs, todo, id);
        todo := todo - {id};
      }
      AllNotified(s, View(), name, sgs);
      OrphansFiled(View());
    }

    /** update(nil, true): recompute the rules and push them to the groups the policy applies to. */
    method RecomputePolicy(p: string)
      requires Inv(View()) && p in policies
      modifies this
      ensures Kept(old(View()), View()) && policies == old(policies)[p := Computed(old(View()), old(policies[p]))]
      ensures pendingDelete == old(pendingDelete) && index == old(index) && retryQueue == old(retryQueue)
      ensures View().blocks == old(View()).blocks
      ensures policies[p].ready ==> Told(old(View()).(policies := policies), View(), AppliedTo, policies[p].appliedTo)
      ensures AllUnmoved(old(View()), View())
    {
      ghost var s := View();
      hide Inv, Evolves, Steady, Computed, OnlyGroup, Told, Pushed, AllUnmoved;
      PoliciesUnmove(s, s.policies[p := Computed(s, s.policies[p])]);
      var ready := ComputeRules(p);
      if !ready {
        return;
      }
      var names := policies[p].appliedTo;
      ghost var t := View();
      IndexLinked(t);
      NoneTold(t, AppliedTo);
      for i := 0 to |names|
        invariant Kept(s, View()) && policies == t.policies
        invariant pendingDelete == s.pendingDelete && index == s.index && retryQueue == s.retryQueue
        invariant View().blocks == s.blocks
        invariant OnlyGroup(t, View(), AppliedTo, names[..i]) && Told(t, View(), AppliedTo, names[..i])
        invariant AllUnmoved(s, View())
      {
        ghost var u := View();
        assert p in Namers(policies, GroupName(AppliedTo, names[i]));
        NotifyGroup(GroupName(AppliedTo, names[i]));
        KeptTrans(s, u, View());
        AllUnmovedTrans(s, u, View());
        ToldNext(t, u, View(), AppliedTo, names, i);
      }
      assert names[..|names|] == names;
    }

    /** Rules that have become ready are pushed to every security group of an appliedTo group. */
    method UpdateGroupRules(name: GroupName)
      requires Inv(View()) && name.kind == AppliedTo && Namers(policies, name) != {}
      modifies this
      ensures Kept(old(View()), View()) && policies == old(policies)
      ensures pendingDelete == old(pendingDelete) && index == old(index) && retryQueue == old(retryQueue)
      ensures SameStates(old(groups), groups) && OnlyGroup(old(View()), View(), AppliedTo, [name.name])
      ensures forall id :: id in old(index) && id.Group() == name ==> Pushed(old(View()), View(), id)
    {
      ghost var s := View();
      hide Inv, Evolves, GroupMachine.UpdateRules, Notified, Untouched, RulesRequest, SameStates;
      KeptSelf(s);
      IndexLinked(s);
      NoneNotified(s, name);
      StatesSelf(groups);
      var sgs := ByIndex(name);
      var todo := sgs;
      while todo != {}
        invariant Kept(s, View()) && policies == s.policies && pendingDelete == s.pendingDelete && index == s.index
        invariant retryQueue == s.retryQueue && todo <= sgs && Notified(s, View(), name, sgs, todo)
        invariant SameStates(s.groups, groups)
        decreases todo
      {
        var id :| id in todo;
        ghost var t := View();
        FiledLive(t, id);
        UpdateRulesIssues(t, index[id], None);
        UpdateRulesStates(t, index[id], None);
        UpdateRules(index[id], None);
        KeptTrans(s, t, View());
        NotifiedNext(s, t, View(), name, sgs, todo, id);
        StatesTrans(s.groups, t.groups, groups);
        todo := todo - {id};
      }
      AllNotified(s, View(), name, sgs);
    }

    /** UpdateGroupRules for several groups in turn. */
    method UpdateGroupsRules(names: seq<string>)
      requires Inv(View()) && forall g :: g in names ==> Namers(policies, GroupName(AppliedTo, g)) != {}
      modifies this
      ensures Kept(old(View()), View()) && policies == old(policies)
      ensures pendingDelete == old(pendingDelete) && index == old(index) && retryQueue == old(retryQueue)
      ensures SameStates(old(groups), groups) && Told(old(View()), View(), AppliedTo, names)
    {
      ghost var s := View();
      hide Inv, Evolves, OnlyGroup, Told, Pushed, SameStates;
      KeptSelf(s);
      IndexLinked(s);
      NoneTold(s, AppliedTo);
      StatesSelf(groups);
      for i := 0 to |names|
        invariant Kept(s, View()) && policies == s.policies && pendingDelete == s.pendingDelete && index == s.index
        invariant retryQueue == s.retryQueue && SameStates(s.groups, groups)
        invariant OnlyGroup(s, View(), AppliedTo, names[..i]) && Told(s, View(), AppliedTo, names[..i])
      {
        ghost var t := View();
        UpdateGroupRules(GroupName(AppliedTo, names[i]));
        KeptTrans(s, t, View());
        ToldNext(s, t, View(), AppliedTo, names, i);
        StatesTrans(s.groups, t.groups, groups);
      }
      assert names[..|names|] == names;
    }

    /** notifyAddrGrpChanges: a policy all of whose address groups are ready becomes ready, and its rules are pushed. */
    method NotifyAddrGrpChanges(p: string)
      requires Inv(View()) && p in policies
      modifies this
      ensures Kept(old(View()), View()) && pendingDelete == old(pendingDelete) && index == old(index)
      ensures retryQueue == old(retryQueue)
      ensures SameStates(old(groups), groups)
      ensures policies == old(policies)[p := old(policies[p]).(ready :=
                old(policies[p].ready || AllReady(index, groups, policies[p].rules)))]
      ensures policies[p].ready && !old(policies[p].ready) ==>
                Told(old(View()).(policies := policies), View(), AppliedTo, policies[p].appliedTo)
    {
      ghost var s := View();
      hide Inv, Evolves, AllReady, SameStates, Told;
      KeptSelf(s);
      StatesSelf(groups);
      if policies[p].ready {
        return;
      }
      IndexLinked(s);
      if AllReady(index, groups, policies[p].rules) {
        ReadyKeeps(s, p);
      }
      ComputeRulesReady(p);
      if !policies[p].ready {
        assert policies == s.policies;
        return;
      }
      ghost var t := View();
      forall g | g in policies[p].appliedTo ensures p in Namers(policies, GroupName(AppliedTo, g)) {}
      UpdateGroupsRules(policies[p].appliedTo);
      KeptTrans(s, t, View());
    }

    /**
     Notifies the security groups of several groups in turn: their orphans are gone, the others have what they are
     owed.
     */
    method NotifyGroups(kind: Kind, names: seq<string>, ghost addr: seq<string>, ghost applied: seq<string>)
      requires Inv(View()) && Left(View(), addr, applied)
      modifies this
      ensures Kept(old(View()), View()) && policies == old(policies)
      ensures (forall g :: g in (if kind == Addr then addr else applied) ==> g in names) ==>
                Left(View(), if kind == Addr then [] else addr, if kind == Addr then applied else [])
      ensures OnlyGroup(old(View()), View(), kind, names) && Told(old(View()), View(), kind, names)
    {
      ghost var s := View();
      hide Inv, Evolves, Orphans, OnlyGroup, Told;
      KeptSelf(s);
      NoneTold(s, kind);
      for i := 0 to |names|
        invariant Kept(s, View()) && policies == s.policies && Left(View(), addr, applied)
        invariant !past.overlapped ==> forall id :: id in Orphans(index, groups, policies) ==>
                    !(id.kind == kind && id.name in names[..i])
        invariant OnlyGroup(s, View(), kind, names[..i]) && Told(s, View(), kind, names[..i])
      {
        ghost var t := View();
        NotifyGroup(GroupName(kind, names[i]));
        KeptTrans(s, t, View());
        NoneOrphaned(t, View());
        IndexLinked(s);
        ToldNext(s, t, View(), kind, names, i);
      }
      assert names[..|names|] == names;
    }

    /** A policy disappears: groups that were only kept for it are deleted now. */
    method DeletePolicy(p: string)
      requires Inv(View()) && past.reporting.None? && Left(View(), [], []) && Fresh(View(), {p}) && p in policies
      modifies this
      ensures Settled(View()) && Advances(old(View()), View()) && policies == old(policies) - {p}
      ensures Told(old(View()).(policies := policies), View(), AppliedTo, old(policies[p].appliedTo))
      ensures Steady(old(View()), View(), {}) && Freed(old(View()), View())
    {
      ghost var s := View();
      hide Settled, Inv, Evolves, Steady, Advances, Left, Fresh, Told, OnlyGroup, Freed;
      PolicyGone(s, p);
      ListedIsNamed(policies[p].rules);
      IndexLinked(s);
      var n := policies[p];
      policies := policies - {p};
      ghost var t := View();
      PoliciesSteady(s, policies);
      ghost var addr := AddressGroupList(n.rules);
      NotifyGroups(AppliedTo, n.appliedTo, addr, n.appliedTo);
      ghost var u := View();
      NotifyGroups(Addr, AddressGroupList(n.rules), addr, []);
      OnlyGroupGrows(u, View(), Addr, addr);
      ToldLater(t, u, View(), AppliedTo, n.appliedTo);
      ToldSince(t, u, View(), AppliedTo, n.appliedTo, Addr, addr);
      ToldFrees(s, View(), p, addr, n.appliedTo);
      KeptTrans(t, u, View());
      KeptAdvances(t, View());
      FreshKept(t, View(), {});
      LeftSettled(View());
      AdvancesTrans(s, t, View());
      SteadyTrans(s, t, View(), {});
    }

    /** New rules: the groups that lost occurrences, and whether the new rules are ready. */
    method ChangeRules(p: string, rules: seq<PolicyRule>) returns (removed: seq<string>, ready: bool)
      requires Settled(View()) && p in policies
      modifies this
      ensures Inv(View()) && Advances(old(View()), View()) && Left(View(), removed, []) && Fresh(View(), {})
      ensures policies.Keys == old(policies).Keys && policies[p].rules == rules
      ensures policies[p].appliedTo == old(policies[p].appliedTo)
      ensures View().(policies := old(policies)) == old(View())
      ensures policies[p] == Computed(old(View()), old(policies[p]).(rules := rules)) && ready == policies[p].ready
      ensures OffBy(old(policies), policies, p)
      ensures forall g :: g in removed <==>
                multiset(AddressGroupList(old(policies[p].rules)))[g] > multiset(AddressGroupList(rules))[g]
    {
      hide Settled, Inv, Evolves, Steady, Advances, Left, Fresh, Computed;
      ghost var s := View();
      var added, lost := DiffGroups(AddressGroupList(policies[p].rules), AddressGroupList(rules));
      RulesChanged(View(), p, rules, lost);
      policies := policies[p := policies[p].(rules := rules).Bare()];
      ghost var t := View();
      ready := ComputeRules(p);
      KeptAdvances(t, View());
      LeftKept(t, View(), lost, []);
      FreshComputed(t, View(), p);
      AdvancesTrans(s, t, View());
      ComputedSame(t, t.policies[p]);
      ComputedBare(s, t.policies, s.policies[p].(rules := rules));
      return lost, ready;
    }

    /** New appliedTo groups: those that gained and those that lost occurrences. */
    method ChangeAppliedTo(p: string, appliedTo: seq<string>, ghost addr: seq<string>)
      returns (added: seq<string>, removed: seq<string>)
      requires Inv(View()) && p in policies && Left(View(), addr, []) && Fresh(View(), {})
      modifies this`policies
      ensures Inv(View()) && Advances(old(View()), View()) && Left(View(), addr, removed) && Fresh(View(), {})
      ensures policies == old(policies)[p := old(policies[p]).(appliedTo := appliedTo)]
      ensures forall g :: g in added <==> multiset(old(policies[p].appliedTo))[g] < multiset(appliedTo)[g]
      ensures forall g :: g in removed <==> multiset(old(policies[p].appliedTo))[g] > multiset(appliedTo)[g]
    {
      hide Inv, Advances, Left, Fresh;
      added, removed := DiffGroups(policies[p].appliedTo, appliedTo);
      AppliedToChanged(View(), p, appliedTo, addr, removed);
      policies := policies[p := policies[p].(appliedTo := appliedTo)];
    }

    /** The notifications at the end of update. */
    method NotifyChanged(removedAddr: seq<string>, applied: seq<string>, ghost removed: seq<string>)
      requires Inv(View()) && past.reporting.None? && Left(View(), removedAddr, removed) && Fresh(View(), {})
      requires forall g :: g in removed ==> g in applied
      modifies this
      ensures Settled(View()) && Advances(old(View()), View()) && policies == old(policies)
      ensures Told(old(View()), View(), AppliedTo, applied) && Told(old(View()), View(), Addr, removedAddr)
      ensures Steady(old(View()), View(), {})
    {
      hide Settled, Inv, Evolves, Steady, Advances, Left, Fresh, Told, OnlyGroup;
      ghost var s := View();
      IndexLinked(s);
      NotifyGroups(Addr, removedAddr, removedAddr, removed);
      ghost var t := View();
      NotifyGroups(AppliedTo, applied, [], removed);
      OnlyGroupGrows(t, View(), AppliedTo, applied);
      ToldSince(s, t, View(), Addr, removedAddr, AppliedTo, applied);
      ToldLater(s, t, View(), Addr, removedAddr);
      KeptTrans(s, t, View());
      KeptAdvances(s, View());
      FreshKept(s, View(), {});
      LeftSettled(View());
    }

    /** The first half of update: the policy changes; returns the groups to be notified. */
    method ChangePolicy(p: string, rules: seq<PolicyRule>, appliedTo: seq<string>)
      returns (removedAddr: seq<string>, applied: seq<string>, ghost removed: seq<string>)
      requires Settled(View()) && p in policies
      modifies this
      ensures Inv(View()) && Advances(old(View()), View()) && Left(View(), removedAddr, removed) && Fresh(View(), {})
      ensures forall g :: g in removed ==> g in applied
      ensures View() == old(View()).(policies := policies)
      ensures policies.Keys == old(policies).Keys && policies[p].rules == rules && policies[p].appliedTo == appliedTo
      ensures forall g :: Affected(old(policies[p]), policies[p], g) ==> g in applied
      ensures OffBy(old(policies), policies, p)
      ensures forall g: GroupName :: old(policies[p]).Names(g) && !policies[p].Names(g) ==>
                g.name in (if g.kind == Addr then removedAddr else applied)
    {
      hide Settled, Inv, Advances, Left, Fresh, Computed;
      ListedIsNamed(policies[p].rules);
      ListedIsNamed(rules);
      ghost var s := View();
      SettledLeft(s);
      AdvancesSelf(s);
      var modified, lost, added := [], [], [];
      removedAddr := [];
      if policies[p].rules != rules {
        var ready: bool;
        removedAddr, ready := ChangeRules(p, rules);
        modified := if ready then policies[p].appliedTo else [];
      }
      ghost var t := View();
      if policies[p].appliedTo != appliedTo {
        added, lost := ChangeAppliedTo(p, appliedTo, removedAddr);
        AdvancesTrans(s, t, View());
      }
      removed := lost;
      applied := modified + lost + added;
      assert forall g :: g in modified || g in lost || g in added ==> g in applied;
    }

    /** update from the Antrea controller. */
    method UpdatePolicy(p: string, rules: seq<PolicyRule>, appliedTo: seq<string>)
      requires Settled(View()) && p in policies
      modifies this
      ensures Settled(View()) && Advances(old(View()), View())
      ensures policies.Keys == old(policies).Keys && policies[p].rules == rules && policies[p].appliedTo == appliedTo
      ensures forall id: Id :: id.kind == AppliedTo && Affected(old(policies[p]), policies[p], id.name) ==>
                Pushed(old(View()).(policies := policies), View(), id)
      ensures OffBy(old(policies), policies, p) && Steady(old(View()), View(), {}) && Freed(old(View()), View())
    {
      ghost var s := View();
      hide Settled, Inv, Advances, Steady, Left, Fresh, Pushed, Affected, Freed;
      var removedAddr, applied;
      ghost var removed;
      SettledLeft(s);
      removedAddr, applied, removed := ChangePolicy(p, rules, appliedTo);
      ghost var t := View();
      PoliciesSteady(s, policies);
      NotifyChanged(removedAddr, applied, removed);
      ToldFrees(s, View(), p, removedAddr, applied);
      AdvancesTrans(s, t, View());
      SteadyTrans(s, t, View(), {});
    }

    /** Recomputation of a policy, as a whole event. */
    method RefreshPolicy(p: string)
      requires Inv(View()) && past.reporting.None? && Left(View(), [], []) && Fresh(View(), {p}) && p in policies
      modifies this
      ensures Settled(View()) && Advances(old(View()), View())
      ensures policies == old(policies)[p := Computed(old(View()), old(policies[p]))]
      ensures policies[p].ready ==> Told(old(View()).(policies := policies), View(), AppliedTo, policies[p].appliedTo)
      ensures Steady(old(View()), View(), {})
    {
      hide Settled, Inv, Evolves, Steady, Advances, Left, Fresh, Computed, Told;
      RecomputePolicy(p);
      KeptAdvances(old(View()), View());
      OverlapStays(old(View()), View());
      FreshComputed(old(View()), View(), p);
      LeftKept(old(View()), View(), [], []);
      LeftSettled(View());
    }

    /** A policy not seen before; announced as deleted, it goes again. */
    method CreatePolicy(kind: EventType, p: string, rules: seq<PolicyRule>, appliedTo: seq<string>)
      requires Settled(View()) && p !in policies
      modifies this
      ensures Settled(View()) && Advances(old(View()), View())
      ensures Announced(old(View()), View(), kind, p, rules, appliedTo)
    {
      hide Settled, Inv, Advances, Steady, Left, Fresh, Told, AllKnown, AllReady, Resolved, ResolvedIps, Freed, Pushed;
      ghost var s := View();
      SettledLeft(s);
      PolicyNew(s, p, Policy(rules, appliedTo, {}, map[], false, false, {}));
      policies := policies[p := Policy(rules, appliedTo, {}, map[], false, false, {})];
      ghost var t := View();
      PoliciesSteady(s, policies);
      if kind == Deleted {
        DeletePolicy(p);
      } else {
        RefreshPolicy(p);
        ToldAll(s.(policies := policies), View(), appliedTo);
      }
      NothingFreed(s, View(), p);
      AdvancesTrans(s, t, View());
      SteadyTrans(s, t, View(), {});
    }

    /** processNetworkPolicy. */
    method ProcessNetworkPolicy(kind: EventType, p: string, rules: seq<PolicyRule>, appliedTo: seq<string>)
      requires Settled(View())
      modifies this
      ensures Settled(View()) && Advances(old(View()), View())
      ensures Announced(old(View()), View(), kind, p, rules, appliedTo)
    {
      hide Settled, Inv, Advances, Steady, Left, Fresh, Told, Pushed, Freed;
      AdvancesSelf(View());
      SteadySame(View(), View());
      NothingChanges(View(), p);
      ghost var s := View();
      if p !in policies {
        CreatePolicy(kind, p, rules, appliedTo);
      } else if kind == Deleted {
        SettledLeft(View());
        FreshWider(View(), {}, {p});
        DeletePolicy(p);
        ToldAll(s.(policies := policies), View(), s.policies[p].appliedTo);
      } else if policies[p].rules != rules || policies[p].appliedTo != appliedTo {
        UpdatePolicy(p, rules, appliedTo);
      }
    }

    // -------------------------------------------------------------- member groups

    /** removeStaleMembers on the security groups of one group: they lose the members that occur in missing names. */
    method RemoveStale(name: GroupName, missing: set<string>)
      requires Inv(View())
      modifies this`groups
      ensures Stirred(old(View()), View(), {name}) && Pruning(old(View()), groups, name, missing, {})
    {
      ghost var s := View();
      hide Inv, Evolves, Steady, Vanished, Pruning;
      KeptSelf(s);
      KeptStirred(s, s, {name});
      IndexLinked(s);
      NonePruned(s, name, missing);
      var todo := ByIndex(name);
      while todo != {}
        invariant Stirred(s, View(), {name}) && todo <= Members(index, name)
        invariant Pruning(s, groups, name, missing, todo)
        decreases todo
      {
        var id :| id in todo;
        ghost var t := View();
        FiledLive(t, id);
        var kept := Pruned(groups[index[id]], missing);
        MembersStir(t, index[id], kept);
        PruningNext(s, groups, name, missing, todo, id);
        groups := groups[index[id] := kept];
        StirredTrans(s, t, View(), {name});
        todo := todo - {id};
      }
    }

    /** Members of one VPC join a group; returns whether their removals were dealt with too. */
    method AddMember(id: Id, added: set<string>, removed: set<string>) returns (merged: bool)
      requires Inv(View()) && added != {}
      modifies this
      ensures GrownUnless(old(View()), View(), id.Group(), id in old(index) || id.kind == AppliedTo)
      ensures policies == old(policies) && pendingDelete == old(pendingDelete) && retryQueue == old(retryQueue)
      ensures index.Keys == old(index).Keys + {id}
      ensures !id.IpBlocks() ==> Joins(old(View()), View(), id, added, removed, if merged then {} else removed)
      ensures forall other :: other != id ==> Unmoved(old(View()), View(), other)
      ensures SameIps(old(View()), View())
    {
      hide Inv, Evolves, Steady, Moves, NewlyStale, GroupMachine.UpdateImpl, GroupMachine.AddImpl, Changed, Appears,
          Unmoved;
      ghost var s := View();
      KeptSelf(s);
      UnmovedSelf(s);
      IndexLinked(s);
      merged := false;
      if id in index {
        FiledLive(View(), id);
        KeptStirred(s, s, {id.Group()});
        if added != groups[index[id]].members {
          UpdateChanges(s, id, added, removed);
          forall other | other != id
            ensures Unmoved(s, GroupMachine.UpdateImpl(s, index[id], added, removed, None), other)
          {
            UpdateUnmoves(s, index[id], added, removed, other);
          }
          Update(index[id], added, removed);
          merged := true;
        }
        StirredGrownUnless(s, View(), id.Group());
      } else {
        HousedAt(s, id.name);
        AddNew(id, added, {});
      }
    }

    /** The members added to a group, VPC by VPC; returns what is left to remove and whether groups appeared. */
    method AddMembers(name: GroupName, added: map<string, set<string>>, removed: map<string, set<string>>)
      returns (rest: map<string, set<string>>, changes: bool)
      requires Inv(View()) && forall vpc :: vpc in added ==> added[vpc] != {}
      modifies this
      ensures GrownUnless(old(View()), View(), name, !changes || name.kind == AppliedTo)
      ensures policies == old(policies) && pendingDelete == old(pendingDelete) && retryQueue == old(retryQueue)
      ensures index.Keys == old(index).Keys + Ids(name, added.Keys)
      ensures changes <==> !(Ids(name, added.Keys) <= old(index).Keys)
      ensures rest.Keys <= removed.Keys && forall vpc :: vpc in rest ==> rest[vpc] == removed[vpc]
      ensures Joining(old(View()), View(), name, added, removed, rest, {}) && SameIps(old(View()), View())
    {
      ghost var s := View();
      hide Inv, Evolves, GrownUnless, Ids, Placing, Joining, Addresses;
      NonePlaced(s, name);
      IndexLinked(s);
      NoneJoined(s, name, added, removed);
      rest, changes := removed, false;
      var todo := added.Keys;
      ghost var done := {};
      while todo != {}
        invariant todo !! done && todo + done == added.Keys && Inv(View()) && Placing(s, View(), name, done, changes)
        invariant rest.Keys <= removed.Keys && forall vpc :: vpc in rest ==> rest[vpc] == removed[vpc]
        invariant Joining(s, View(), name, added, removed, rest, todo) && SameIps(s, View())
        decreases todo
      {
        var vpc :| vpc in todo;
        var id := Id(name.kind, name.name, vpc);
        ghost var t := View();
        ghost var before, were := changes, rest;
        changes := changes || id !in index;
        var merged := AddMember(id, added[vpc], if vpc in rest then rest[vpc] else {});
        if merged {
          rest := rest - {vpc};
        }
        PlacingNext(s, t, View(), name, done, vpc, before);
        JoiningNext(s, t, View(), name, added, removed, were, merged, todo, vpc);
        todo, done := todo - {vpc}, done + {vpc};
      }
      assert done == added.Keys;
      AllPlaced(s, View(), name, done, changes);
    }

    method RemoveMembers(name: GroupName, removed: map<string, set<string>>)
      requires Inv(View()) && forall vpc :: vpc in removed ==> removed[vpc] != {}
      modifies this
      ensures Stirred(old(View()), View(), {name})
      ensures policies == old(policies) && pendingDelete == old(pendingDelete) && retryQueue == old(retryQueue)
      ensures index == old(index) && Leaving(old(View()), View(), name, removed, {})
      ensures View().blocks == old(View()).blocks
    {
      ghost var s := View();
      hide Inv, Evolves, Steady, Leaving, GroupMachine.UpdateImpl, Unmoved, Changed;
      KeptSelf(s);
      KeptStirred(s, s, {name});
      IndexLinked(s);
      NoneDeparted(s, name, removed);
      var todo := removed.Keys;
      while todo != {}
        invariant todo <= removed.Keys && Stirred(s, View(), {name})
        invariant policies == s.policies && pendingDelete == s.pendingDelete && retryQueue == s.retryQueue
        invariant index == s.index && View().blocks == s.blocks && Leaving(s, View(), name, removed, todo)
        decreases todo
      {
        var vpc :| vpc in todo;
        var id := Id(name.kind, name.name, vpc);
        ghost var t := View();
        IndexLinked(t);
        UnmovedSelf(t);
        if id in index {
          FiledLive(t, id);
          UpdateChanges(t, id, {}, removed[vpc]);
          forall other | other != id
            ensures Unmoved(t, GroupMachine.UpdateImpl(t, index[id], {}, removed[vpc], None), other)
          {
            UpdateUnmoves(t, index[id], {}, removed[vpc], other);
          }
          Update(index[id], {}, removed[vpc]);
          StirredTrans(s, t, View(), {name});
        }
        LeavingNext(s, t, View(), name, removed, todo, vpc);
        todo := todo - {vpc};
      }
    }

    /** The policies naming an address group recompute their rules: none of them is stale. */
    method RecomputeNamers(name: GroupName)
      requires Inv(View())
      modifies this
      ensures Kept(old(View()), View())
      ensures pendingDelete == old(pendingDelete) && index == old(index) && retryQueue == old(retryQueue)
      ensures View().blocks == old(View()).blocks
      ensures forall p :: p in Namers(policies, name) ==> p !in Stale(index, View().blocks, policies)
      ensures AllUnmoved(old(View()), View())
    {
      ghost var s := View();
      hide Inv, Evolves, Steady, Computed, Stale, Told, AllUnmoved;
      KeptSelf(s);
      UnmovedSelf(s);
      var namers := Namers(policies, name);
      var todo := namers;
      while todo != {}
        invariant Kept(s, View()) && todo <= namers && namers <= policies.Keys
        invariant pendingDelete == s.pendingDelete && index == s.index && retryQueue == s.retryQueue
        invariant View().blocks == s.blocks && forall p :: p in namers - todo ==> p !in Stale(index, s.blocks, policies)
        invariant AllUnmoved(s, View())
        decreases todo
      {
        var p :| p in todo;
        ghost var t := View();
        RecomputePolicy(p);
        ComputedFresh(t, p);
        KeptTrans(s, t, View());
        AllUnmovedTrans(s, t, View());
        todo := todo - {p};
      }
      SameNamers(s, View(), name);
    }

    /** updateIPs. */
    method UpdateIps(name: string, joined: set<Prefix>, left: set<Prefix>)
      requires Inv(View()) && Id(Addr, name, "") in index
      modifies this`ips
      ensures Grown(old(View()), View(), GroupName(Addr, name))
      ensures name in old(ips) && ips == old(ips)[name := old(ips)[name] - left + joined]
    {
      assert name in ips;
      hide Inv, Moves, NewlyStale;
      SetIpsGrows(View(), name, ips[name] - left + joined);
      ips := ips[name := ips[name] - left + joined];
    }

    /** The IP-block group of an address group takes the addresses; returns whether the policies must be told. */
    method PlaceIpBlocks(name: GroupName, joined: set<Prefix>, left: set<Prefix>, e: GroupEvent) returns (changes: bool)
      requires Inv(View())
      modifies this
      ensures GrownUnless(old(View()), View(), name, !changes) && (changes ==> name.kind == Addr)
      ensures policies == old(policies) && pendingDelete == old(pendingDelete) && retryQueue == old(retryQueue)
      ensures old(index).Keys <= index.Keys
      ensures Lodges(old(View()), View(), name, joined, left, e, changes)
      ensures forall other: Id :: !other.IpBlocks() ==> Unmoved(old(View()), View(), other)
    {
      ghost var s := View();
      hide Inv, Evolves, Steady, Moves, NewlyStale, Unmoved, Appears;
      KeptSelf(s);
      KeptGrown(s, s, name);
      UnmovedSelf(s);
      HousedAt(s, name.name);
      changes := false;
      var id := Id(Addr, name.name, "");
      if name.kind == Addr {
        if joined != {} || left != {} {
          changes := true;
          if id in index {
            UpdateIps(name.name, joined, left);
            IpsUnmove(s, View());
          } else if e.kind == Added {
            AddNew(id, {}, joined);
          }
        } else if e.kind == Added && e.added == [] && e.removed == [] && id !in index {
          changes := true;
          AddNew(id, {}, {});
        }
      }
    }

    /** processMemberGrp for a creation or patch of a group that is not being deleted. */
    method ApplyGroup(name: GroupName, e: GroupEvent, world: World) returns (failed: bool)
      requires Inv(View()) && (e.kind == Added || e.kind == Modified)
      modifies this
      ensures Stirred(old(View()), View(), Concerns(name, e, world))
      ensures pendingDelete == old(pendingDelete) && retryQueue == old(retryQueue)
      ensures failed <==> Unresolved(world, e)
      ensures failed ==> View() == old(View())
      ensures !failed ==> Attended(old(View()), View(), name, world, e) && Filed(index, name, world, e.added)
      ensures !failed ==> Addressed(old(View()), View(), name, world, e)
    {
      ghost var s, but := View(), Concerns(name, e, world);
      hide Inv, Evolves, Steady, Unresolved, Moves, NewlyStale, Stale, Has, Sorted, Shifted, AllUnmoved, Attended,
          Sheds, Addressed, Settles, Filed;
      KeptSelf(s);
      KeptStirred(s, s, but);
      IndexLinked(s);
      var placed, gone, joined, left, missing;
      failed, placed, gone, joined, left, missing := ResolveEvent(world, e);
      if failed {
        return;
      }
      Shed(name.name, missing);
      ghost var v := View();
      StirredWider(s, v, if missing == {} then {} else BothKinds(name.name), but);
      SortedFull(world, e.added, placed);
      SortedFull(world, if e.kind == Modified then e.removed else [], gone);
      var changes := PlaceMembers(name, placed, gone, joined, left, e);
      PlacedFiled(View(), name, world, e.added, placed);
      SettledAddressed(s, v, View(), name, world, e, placed, joined, left);
      ghost var u := View();
      UnmovedSelf(u);
      if changes && name.kind == Addr {
        RecomputeNamers(name);
        GrownKept(v, u, View(), name);
      } else {
        GrownUnlessStirred(v, u, name);
      }
      StillShifted(v, u, View(), name, placed, gone);
      AllAttended(s, v, View(), name, world, e, placed, gone);
      StillAddressed(s, u, View(), name, world, e);
      StirredWider(v, View(), {name}, but);
      StirredTrans(s, v, View(), but);
    }

    /** Groups of a name, of both kinds, lose the members that occur in missing names. */
    method Shed(name: string, missing: set<string>)
      requires Inv(View())
      modifies this`groups
      ensures Stirred(old(View()), View(), if missing == {} then {} else BothKinds(name))
      ensures forall id: Id :: id.name == name ==> Sheds(old(View()), View(), id, missing)
    {
      ghost var s, but := View(), BothKinds(name);
      hide Inv, Evolves, Steady, Pruning, Sheds;
      KeptSelf(s);
      IndexLinked(s);
      if missing == {} {
        NoneShed(s);
        return;
      }
      RemoveStale(GroupName(Addr, name), missing);
      ghost var t := View();
      RemoveStale(GroupName(AppliedTo, name), missing);
      forall id: Id | id.name == name ensures Sheds(s, View(), id, missing) {
        PruningSheds(s, t, View(), name, missing, id);
      }
      StirredWider(s, t, {GroupName(Addr, name)}, but);
      StirredWider(t, View(), {GroupName(AppliedTo, name)}, but);
      StirredTrans(s, t, View(), but);
    }

    /** Members and addresses find their security groups; returns whether the policies must be told. */
    method PlaceMembers(name: GroupName, placed: map<string, set<string>>, gone: map<string, set<string>>,
                        joined: set<Prefix>, left: set<Prefix>, e: GroupEvent)
      returns (changes: bool)
      requires Inv(View()) && (forall vpc :: vpc in placed ==> placed[vpc] != {})
      requires forall vpc :: vpc in gone ==> gone[vpc] != {}
      modifies this
      ensures GrownUnless(old(View()), View(), name, !changes || name.kind == AppliedTo)
      ensures policies == old(policies) && pendingDelete == old(pendingDelete) && retryQueue == old(retryQueue)
      ensures forall vpc :: Shifted(old(View()), View(), Id(name.kind, name.name, vpc), At(placed, vpc), At(gone, vpc))
      ensures Ids(name, placed.Keys) <= index.Keys && Settles(old(View()), View(), name, placed, joined, left, e)
    {
      hide Inv, Evolves, Steady, GrownUnless, Joining, Leaving, Unmoved, Shifted, Lodges, Settles, SameIps;
      ghost var s := View();
      IndexLinked(s);
      var rest;
      rest, changes := AddMembers(name, placed, gone);
      ghost var t, kept := View(), !changes || name.kind == AppliedTo;
      NowInv(s, t, name, kept);
      RemoveMembers(name, rest);
      StirredGrownUnless(t, View(), name);
      GrownUnlessTrans(s, t, View(), name, kept, true);
      ghost var u := View();
      SameBlocks(s, t, u);
      var appeared := PlaceIpBlocks(name, joined, left, e);
      LodgedSettles(s, u, View(), name, placed, joined, left, e, appeared);
      GrownUnlessTrans(s, u, View(), name, kept, !appeared);
      AllShifted(s, t, u, View(), name, placed, gone, rest);
      changes := changes || appeared;
    }

    /** A deleted group: every security group of it goes, or waits for the policies that name it. */
    method DeleteGroup(name: GroupName)
      requires Inv(View())
      modifies this
      ensures Stirred(old(View()), View(), {name})
      ensures Retired(old(View()), View(), name)
    {
      ghost var s := View();
      hide Inv, Evolves, Steady, Withdrawn, Untouched, Same, GroupMachine.DeleteImpl, Lose, SameShelf;
      ShelfKept(s, s);
      KeptSelf(s);
      KeptStirred(s, s, {name});
      IndexLinked(s);
      var todo := ByIndex(name);
      NoneWithdrawn(s, name);
      while todo != {}
        invariant Stirred(s, View(), {name}) && todo <= Members(s.index, name) && index.Keys <= s.index.Keys
        invariant Withdrawing(s, View(), Members(s.index, name), todo) && SameShelf(s, View(), name)
        decreases todo
      {
        var id :| id in todo;
        ghost var t := View();
        assert Same(s, t, id);
        SameFiled(s, t, id);
        FiledLive(t, id);
        SameNamers(s, t, name);
        Delete(index[id]);
        if id.IpBlocks() {
          EraseWithdraws(t, id);
        } else {
          DeleteWithdraws(t, id);
          DeleteShelf(t, t.index[id]);
        }
        ShelfTrans(s, t, View(), name);
        WithdrawingNext(s, t, View(), Members(s.index, name), todo, id);
        StirredTrans(s, t, View(), {name});
        todo := todo - {id};
      }
    }

    /** An event that could not be resolved joins the retry item of its group. */
    method QueueFailed(name: GroupName, e: GroupEvent)
      requires Inv(View()) && e.kind != Bookmark
      modifies this`retryQueue
      ensures Stirred(old(View()), View(), {name}) && Shelved(old(View()), View(), name, e)
    {
      hide Inv, Evolves, Coalesce;
      if GroupKey(name) in retryQueue {
        QueuedGroup(View(), name);
      }
      var item := if GroupKey(name) in retryQueue then retryQueue[GroupKey(name)]
          else GroupItem(PENDING_RETRY, OPERATION_COUNT, 0, 0);
      CoalesceProper(item.pending, e);
      var pending := UpdatePendingItem(item.pending, e);
      QueueGroupKeeps(View(), name, GroupItem(pending, item.opCnt, item.runs, item.asks));
      retryQueue := retryQueue[GroupKey(name) := GroupItem(pending, item.opCnt, item.runs, item.asks)];
    }

    /** processMemberGrp. */
    method ProcessMemberGroup(name: GroupName, e: GroupEvent, world: World) returns (failed: bool)
      requires Inv(View()) && e.kind != Bookmark
      modifies this
      ensures Stirred(old(View()), View(), Concerns(name, e, world)) && Enrolled(old(View()), View(), name, e, world)
      ensures failed <==> name !in old(pendingDelete) && e.kind != Deleted && Unresolved(world, e)
    {
      ghost var s, but := View(), Concerns(name, e, world);
      hide Inv, Evolves, Steady, Coalesce, Unresolved, Attended, Addressed, Filed, Withdrawn, Shelved;
      failed := false;
      if name in pendingDelete {
        BufferKeeps(s, name, e);
        StirredWider(s, Buffer(s, name, e), {name}, but);
        var pending := UpdatePendingItem(pendingDelete[name], e);
        pendingDelete := pendingDelete[name := pending];
      } else if e.kind == Deleted {
        DeleteGroup(name);
        StirredWider(s, View(), {name}, but);
      } else {
        failed := ApplyGroup(name, e, world);
      }
      ghost var t := View();
      if failed {
        QueueFailed(name, e);
        StirredWider(t, View(), {name}, but);
        StirredTrans(s, t, View(), but);
      }
      if e.kind == Deleted {
        DequeueKeeps(t, GroupKey(name));
        retryQueue := retryQueue - {GroupKey(name)};
        StillRetired(s, t, name, retryQueue);
        KeptStirred(t, View(), but);
        StirredTrans(s, t, View(), but);
      }
    }

    // -------------------------------------------------------------- the ticker

    /** RunPendingItem of a pending group: replays its members; returns whether it is done. */
    method Replay(name: GroupName, p: PendingGroup, world: World) returns (done: bool)
      requires Inv(View()) && Proper(p)
      modifies this
      ensures Stirred(old(View()), View(), {name}) && Replayed(old(View()), View(), name, p, world, done)
    {
      hide Inv, Evolves, Steady, Enrolled, Unresolved;
      KeptSelf(View());
      KeptStirred(View(), View(), {name});
      if p.added == map[] {
        return true;
      }
      ghost var s := View();
      var members := ReplayedMembers(p);
      var e := GroupEvent(p.event.value, members, []);
      var failed := ProcessMemberGroup(name, e, world);
      assert Redone(s, View(), name, p, world, !failed, members);
      return !failed;
    }

    /** CheckToRun for a group that waits for its members. */
    method RunGroup(key: QueueKey, world: World)
      requires Inv(View()) && key in retryQueue && key.GroupKey?
      modifies this
      ensures Stirred(old(View()), View(), {key.group}) && Tried(old(View()), View(), key, world)
      ensures SameGroupItems(old(retryQueue), retryQueue, key) && Spent(old(retryQueue), retryQueue, key)
    {
      ghost var s := View();
      hide Inv, Evolves, Steady, LastRun, Proper, Replayed;
      QueuedGroup(s, key.group);
      var item := retryQueue[key];
      if item.opCnt <= 0 {
        DequeueKeeps(s, key);
        retryQueue := retryQueue - {key};
        KeptStirred(s, View(), {key.group});
        return;
      }
      var done := Replay(key.group, item.pending, world);
      ghost var t := View();
      ReplayedQueue(s, t, key.group, item.pending, world, done);
      QueuedGroup(t, key.group);
      ghost var run := Ran(key, None, item.runs + 1, true);
      var left := if done then None else Some(Charged(retryQueue[key], true));
      ConcludeKeeps(t, run, false, left);
      Conclude(key, left, run, false);
      assert TriedVia(s, t, View(), key, world, done);
      StirredTrans(s, t, View(), {key.group});
    }

    /** CheckToRun for one item of the retry queue. */
    method RunQueued(key: QueueKey, world: World)
      requires Inv(View()) && key in retryQueue
      modifies this
      ensures Stirred(old(View()), View(), Waiters({key})) && Tried(old(View()), View(), key, world)
      ensures SameGroupItems(old(retryQueue), retryQueue, key)
      ensures key.GroupKey? ==> Spent(old(retryQueue), retryQueue, key)
    {
      ghost var s := View();
      hide Inv, Evolves, Steady, GroupMachine.TickItem, InRecord, Spent, Replayed;
      if key.SgKey? {
        QueuedLive(s, key);
        TickItemKeeps(s, retryQueue[key]);
        TickFrame(s, retryQueue[key]);
        TickItem(retryQueue[key]);
        KeptStirred(s, View(), Waiters({key}));
      } else {
        assert Waiters({key}) == {key.group};
        RunGroup(key, world);
      }
    }

    /** CheckToRun: every item gets its turn; every group waiting for its members is tried once, or given up. */
    method CheckToRun(world: World)
      requires Inv(View())
      modifies this
      ensures Stirred(old(View()), View(), Waiters(old(retryQueue).Keys))
      ensures Ticked(old(View()), View(), world, old(retryQueue).Keys)
      ensures forall k :: k in old(retryQueue) && k.GroupKey? ==> Spent(old(retryQueue), retryQueue, k)
    {
      ghost var s := View();
      ghost var but := Waiters(s.retryQueue.Keys);
      hide Inv, Evolves, Steady, Tried, Ticked;
      KeptSelf(s);
      KeptStirred(s, s, but);
      NoneTicked(s, world);
      var todo := retryQueue.Keys;
      ghost var done := {};
      while todo != {}
        invariant Stirred(s, View(), but) && todo + done == s.retryQueue.Keys && todo !! done
        invariant Ticked(s, View(), world, done)
        invariant forall k :: k in todo && k.GroupKey? ==> k in retryQueue && retryQueue[k] == s.retryQueue[k]
        invariant forall k :: k in done && k.GroupKey? ==> Spent(s.retryQueue, retryQueue, k)
        decreases todo
      {
        var key :| key in todo;
        ghost var t := View();
        if key in retryQueue {
          RunQueued(key, world);
          StirredWider(t, View(), Waiters({key}), but);
          StirredTrans(s, t, View(), but);
        }
        TickedNext(s, t, View(), world, done, key);
        todo, done := todo - {key}, done + {key};
      }
      assert done == s.retryQueue.Keys;
    }

    // -------------------------------------------------------------- cloud responses

    method SetStatus(g: Ref, failed: bool)
      requires Inv(View()) && g in groups
      requires groups[g].state == Init && !past.overlapped ==> forall j :: 0 <= j < |inflight| ==> inflight[j].ref != g
      modifies this`groups
      ensures View() == Put(old(View()), g, old(groups)[g].(status := if failed then Failed else Fine))
      ensures Kept(old(View()), View())
    {
      hide Inv, Evolves;
      var o := groups[g].(status := if failed then Failed else Fine);
      PutKeeps(View(), g, o);
      groups := groups[g := o];
    }

    /** notifyAddrGrpChanges for several policies: those whose address groups are all ready are ready. */
    method NotifyNamers(namers: set<string>)
      requires Inv(View()) && namers <= policies.Keys
      modifies this
      ensures Kept(old(View()), View()) && index == old(index) && pendingDelete == old(pendingDelete)
      ensures retryQueue == old(retryQueue)
      ensures SameStates(old(groups), groups) && namers <= policies.Keys && old(inflight) <= inflight
      ensures forall p :: p in namers && AllReady(index, groups, policies[p].rules) ==> policies[p].ready
    {
      ghost var s := View();
      hide Inv, Evolves, AllReady, SameStates, Told;
      KeptSelf(s);
      StatesSelf(groups);
      var todo := namers;
      while todo != {}
        invariant todo <= namers <= policies.Keys && Kept(s, View()) && SameStates(s.groups, groups)
        invariant index == s.index && pendingDelete == s.pendingDelete && retryQueue == s.retryQueue
        invariant forall p :: p in namers - todo && AllReady(index, s.groups, policies[p].rules) ==> policies[p].ready
        decreases todo
      {
        var p :| p in todo;
        ghost var t := View();
        NotifyAddrGrpChanges(p);
        KeptTrans(s, t, View());
        ReadyFrame(index, s.groups, t.groups, policies[p].rules);
        StatesTrans(s.groups, t.groups, groups);
        todo := todo - {p};
      }
      forall p | p in namers ensures AllReady(index, groups, policies[p].rules) ==> policies[p].ready {
        ReadyFrame(index, s.groups, groups, policies[p].rules);
      }
    }

    method MarkCreated(g: Ref)
      requires Inv(View()) && Live(View(), g)
      modifies this`groups, this`past
      ensures View() == if old(groups)[g].state == Init then Confirm(old(View()), g) else old(View())
      ensures Kept(old(View()), View()) && Live(View(), g)
    {
      ghost var s := View();
      hide Inv, Evolves, Steady;
      KeptSelf(s);
      if groups[g].state == Init {
        ConfirmKeeps(s, g);
        StillLive(s, Confirm(s, g), g);
        past := past.(acked := past.acked + {groups[g].id});
        groups := groups[g := groups[g].(state := Created)];
      }
    }

    /**
     The address-group part of notify for a successful Create: the group is ready, and every policy that was only
     waiting for it is.
     */
    method AddrCreated(g: Ref)
      requires Inv(View()) && Live(View(), g)
      modifies this
      ensures Kept(old(View()), View()) && index == old(index) && pendingDelete == old(pendingDelete)
      ensures retryQueue == old(retryQueue) && AddrReady(old(View()), View(), g)
    {
      ghost var s := View();
      hide Inv, Evolves, AllReady, SameStates, Told, Steady, Sent, GroupMachine.UpdateImpl;
      var namers := Namers(policies, groups[g].id.Group());
      MarkCreated(g);
      ghost var t := View();
      Update(g, {}, {});
      KeptTrans(s, t, View());
      ghost var u := View();
      NotifyNamers(namers);
      KeptTrans(s, u, View());
      MembersSent(s, t, u, View(), g);
      StatesTrans(t.groups, u.groups, groups);
      StateShows(t.groups, groups, g);
    }

    method CreateDone(g: Ref)
      requires Inv(View()) && Live(View(), g) && groups[g].id.kind == AppliedTo
      modifies this
      ensures View() == Rollout(old(View()), g, CreateOp) && Kept(old(View()), View())
    {
      ghost var s := View();
      hide Inv, Evolves, GroupMachine.UpdateRules;
      KeptSelf(s);
      if groups[g].state == Init {
        MarkCreated(g);
        UpdateRules(g, None);
        KeptTrans(s, Confirm(s, g), View());
      }
    }

    method RulesDone(g: Ref)
      requires Inv(View()) && Live(View(), g) && groups[g].id.kind == AppliedTo
      modifies this
      ensures View() == Rollout(old(View()), g, UpdateRulesOp) && Kept(old(View()), View())
    {
      ghost var s := View();
      hide Inv, Evolves, GroupMachine.UpdateImpl;
      TouchKeeps(s, g, groups[g].(hasRules := true));
      groups := groups[g := groups[g].(hasRules := true)];
      if !groups[g].hasMembers {
        ghost var t := View();
        UpdateImpl(g, {}, {}, None);
        KeptTrans(s, t, View());
      }
    }

    method ClearDone(g: Ref)
      requires Inv(View()) && Live(View(), g) && groups[g].id.kind == AppliedTo
      modifies this
      ensures View() == Rollout(old(View()), g, ClearMembersOp) && Kept(old(View()), View())
    {
      ghost var s := View();
      hide Inv, Evolves, GroupMachine.UpdateRules;
      TouchKeeps(s, g, groups[g].(hasMembers := false));
      groups := groups[g := groups[g].(hasMembers := false)];
      if groups[g].hasRules {
        ghost var t := View();
        UpdateRules(g, None);
        KeptTrans(s, t, View());
      }
    }

    /** The appliedTo-group part of notify for a success: created, then rules, then members; cleared, then no rules. */
    method AppliedToDone(g: Ref, op: Op)
      requires Inv(View()) && Live(View(), g) && groups[g].id.kind == AppliedTo
      modifies this
      ensures View() == Rollout(old(View()), g, op) && Kept(old(View()), View())
      ensures index == old(index) && pendingDelete == old(pendingDelete) && retryQueue == old(retryQueue)
    {
      RolloutFrame(View(), g, op);
      hide Inv, Evolves, GroupMachine.UpdateRules, GroupMachine.UpdateImpl;
      KeptSelf(View());
      match op
      case CreateOp => CreateDone(g);
      case UpdateMembersOp =>
        TouchKeeps(View(), g, groups[g].(hasMembers := true));
        groups := groups[g := groups[g].(hasMembers := true)];
      case UpdateRulesOp => RulesDone(g);
      case ClearMembersOp => ClearDone(g);
      case DeleteOp =>
    }

    /** What a success sets in motion, before retries are looked at. */
    method Succeeded(g: Ref, op: Op)
      requires Inv(View()) && Live(View(), g) && Heard(View(), groups[g].id, op)
      modifies this
      ensures Kept(old(View()), View()) && index == old(index) && Live(View(), g)
      ensures op == DeleteOp ==> inflight == old(inflight)
      ensures op == CreateOp ==> groups[g].state != Init
      ensures if old(groups)[g].id.kind == AppliedTo || op != CreateOp then View() == Success(old(View()), g, op)
              else AddrReady(Eased(old(View()), g, op), View(), g)
    {
      ghost var s := View();
      hide Inv, Evolves, UpdateItem, Rollout, RulesRequest, AllReady, GroupMachine.CheckItem, Stray, Namers, Sent;
      KeptSelf(s);
      var key := SgKey(groups[g].id);
      if key in retryQueue {
        UpdateRetryQueue(key, false, op);
      }
      ghost var t := View();
      StillLive(s, t, g);
      RankGrows(s, t, g);
      if groups[g].id.kind == AppliedTo {
        RolloutCreates(t, g, op);
        AppliedToDone(g, op);
        KeptTrans(s, t, View());
      } else if op == CreateOp {
        AddrCreated(g);
        KeptTrans(s, t, View());
      }
      StillLive(s, View(), g);
    }

    /** notify up to the settling of retries. */
    method TakeUpOutcome(g: Ref, op: Op, failed: bool)
      requires Inv(View()) && Live(View(), g) && Reported(View(), g, op)
      requires groups[g].state == Init && !past.overlapped ==> forall j :: 0 <= j < |inflight| ==> inflight[j].ref != g
      modifies this
      ensures Kept(old(View()), View()) && Live(View(), g) && (op == DeleteOp ==> inflight == old(inflight))
      ensures (!failed && op == CreateOp ==> groups[g].state != Init)
      ensures Outcome(old(View()), View(), g, op, failed) && (failed ==> groups[g].state == old(groups)[g].state)
    {
      ghost var s := View();
      hide Inv, Evolves, Success, Eased, AddrReady;
      KeptSelf(s);
      if groups[g].state != Garbage || op == DeleteOp {
        SetStatus(g, failed);
        StillLive(s, View(), g);
      }
      ghost var t := View();
      if !failed {
        Succeeded(g, op);
        KeptTrans(s, t, View());
      }
    }

    /** notify: the answer to a request for g, still counted in flight if it is a Delete. */
    method Notify(g: Ref, op: Op, failed: bool) returns (moreOps: bool)
      requires Inv(View()) && Live(View(), g) && Reported(View(), g, op)
      requires groups[g].state == Init && !past.overlapped ==> forall j :: 0 <= j < |inflight| ==> inflight[j].ref != g
      modifies this
      ensures Kept(old(View()), View())
      ensures op == DeleteOp ==> old(inflight) <= inflight
      ensures g in groups && (!failed && op == CreateOp ==> groups[g].state != Init)
      ensures failed && (old(groups)[g].state != Garbage || op == DeleteOp) ==> SgKey(old(groups)[g].id) in retryQueue
      ensures Noticed(old(View()), View(), g, op, failed)
      ensures moreOps <==> WillRetry(View(), SgKey(old(groups)[g].id))
    {
      ghost var s := View();
      hide Inv, Evolves, GroupMachine.SettleRetry, Outcome, Heard, WillRetry;
      TakeUpOutcome(g, op, failed);
      ghost var t := View();
      RankGrows(s, t, g);
      StillReported(s, t, g, op);
      moreOps := SettleRetry(g, op, failed);
      RankGrows(t, View(), g);
      KeptTrans(s, t, View());
      assert NoticedVia(s, t, View(), g, op, failed);
    }

    /** No more Deletes of a group are counted: what was kept for it is replayed. */
    method Unleash(name: GroupName, world: World) returns (ghost done: bool)
      requires Inv(View()) && name in pendingDelete && RefCnt(pendingDelete, name) <= 0
      modifies this
      ensures Stirred(old(View()), View(), {name}) && old(retryQueue).Keys <= retryQueue.Keys
      ensures Replayed(old(View()).(pendingDelete := old(pendingDelete) - {name}), View(), name,
                       old(pendingDelete)[name], world, done)
    {
      ghost var s, but := View(), {name};
      hide Inv, Evolves, Calm, CountDeletes, Replayed;
      var p := pendingDelete[name];
      PendingProper(s, name);
      ForgetKeeps(s, name);
      pendingDelete := pendingDelete - {name};
      ghost var t := View();
      var over := Replay(name, p, world);
      done := over;
      ReplayedQueue(t, View(), name, p, world, done);
      StirredTrans(s, t, View(), but);
    }

    /** The answer to a Delete is no longer counted; returns how many are left. */
    method Uncount(i: nat, runOnClear: bool) returns (left: int)
      requires Inv(View()) && i < |inflight| && inflight[i].what.DeleteCall?
      modifies this`pendingDelete, this`inflight
      ensures old(inflight[i]).id.Group() in old(pendingDelete)
      ensures View() == GroupMachine.CountDown(old(View()), i, runOnClear) && Brought(old(View()), View(), {})
      ensures old(inflight[i]).id.Group() in pendingDelete
      ensures left == RefCnt(pendingDelete, old(inflight[i]).id.Group())
    {
      hide Inv, Carried, Calm, CountDeletes;
      InflightLive(View(), i);
      CountDownKeeps(View(), i, runOnClear);
      var name := inflight[i].id.Group();
      left := RefCnt(pendingDelete, name) - 1;
      pendingDelete := pendingDelete[name := pendingDelete[name].(refCnt := Some(left), runOnClear := runOnClear)];
      inflight := Drop(inflight, i);
    }

    /** The answer to a Delete is uncounted; the last one of a group releases what was buffered for it. */
    method CountDown(i: nat, runOnClear: bool, world: World)
      requires Inv(View()) && i < |inflight| && inflight[i].what.DeleteCall?
      modifies this
      ensures Brought(old(View()), View(), {old(inflight[i]).id.Group()}) && Drop(old(inflight), i) <= inflight
      ensures Uncounted(old(View()), View(), i, runOnClear, world) && old(retryQueue).Keys <= retryQueue.Keys
    {
      ghost var s, but := View(), {inflight[i].id.Group()};
      hide Inv, Evolves, Calm, Replayed, Uncounted, Drop;
      var name := inflight[i].id.Group();
      var left := Uncount(i, runOnClear);
      ghost var t := View();
      BroughtWider(s, t, {}, but);
      if left > 0 || !runOnClear {
        UncountedSoon(s, i, runOnClear, world);
        return;
      }
      ghost var done := Unleash(name, world);
      UncountedLast(s, View(), i, runOnClear, world, done);
      StirredBrought(t, View(), but);
      BroughtTrans(s, t, View(), but);
    }

    /** The answer to a Delete. */
    method DeleteAnswered(i: nat, failed: bool, world: World)
      requires Inv(View()) && i < |inflight| && inflight[i].what.DeleteCall?
      modifies this
      ensures Brought(old(View()), View(), {old(inflight[i]).id.Group()}) && Drop(old(inflight), i) <= inflight
      ensures failed ==> SgKey(old(inflight[i]).id) in retryQueue
      ensures Undone(old(View()), View(), i, failed, world)
    {
      ghost var s, but := View(), {inflight[i].id.Group()};
      hide Inv, Evolves, Calm, Noticed, WillRetry, Uncounted, Drop;
      InflightLive(s, i);
      var c := inflight[i];
      var moreOps := Notify(c.ref, DeleteOp, failed);
      ghost var t := View();
      KeptStirred(s, t, but);
      StirredBrought(s, t, but);
      CountDown(i, !moreOps, world);
      DropGrows(s.inflight, t.inflight, inflight, i);
      OverlapStays(t, View());
      assert UndoneVia(s, t, View(), i, failed, world);
      BroughtTrans(s, t, View(), but);
    }

    /** An answered request is no longer in flight. */
    method TakeUp(i: nat, ghost op: Op) returns (c: Call)
      requires Inv(View()) && MayAnswer(View(), i, op)
      modifies this`inflight, this`past
      ensures c == old(inflight[i]) && View() == Answer(old(View()), i, op)
      ensures Inv(View()) && Live(View(), c.ref) && Reported(View(), c.ref, op)
      ensures c.ref in groups && groups[c.ref].id == c.id
      ensures groups[c.ref].state == Init && !past.overlapped ==> forall j :: 0 <= j < |inflight| ==>
                inflight[j].ref != c.ref
    {
      ghost var s := View();
      hide Inv, Live, Reported;
      InflightLive(s, i);
      c := inflight[i];
      AnswerReported(s, i, op);
      past := Answer(s, i, op).past;
      inflight := Drop(inflight, i);
    }

    /** The answer to any other request. */
    method RequestAnswered(i: nat, op: Op, failed: bool)
      requires Inv(View()) && MayAnswer(View(), i, op) && past.reporting.None?
      modifies this
      ensures Brought(old(View()), View(), {}) && Drop(old(inflight), i) <= inflight
      ensures !failed && op == CreateOp ==> old(inflight[i]).ref in groups && groups[old(inflight[i]).ref].state != Init
      ensures failed && old(inflight[i].ref in groups && groups[inflight[i].ref].state != Garbage) ==>
                SgKey(old(inflight[i]).id) in retryQueue
      ensures Replied(old(View()), View(), i, op, failed)
    {
      hide Inv, Evolves, Calm, Outcome, GroupMachine.SettleRetry, Live, Held, Reported, Noticed;
      assert op != DeleteOp;
      var c := TakeUp(i, op);
      var moreOps := Notify(c.ref, op, failed);
      AnsweredKeeps(old(View()), i, op, View());
      ghost var t := View();
      past := Rest(View()).past;
      assert RepliedVia(old(View()), t, View(), i, op, failed);
    }

    /** processCloudResponse. */
    method ProcessResponse(i: nat, failed: bool, cleared: bool, world: World)
      requires Inv(View()) && past.reporting.None? && i < |inflight|
      modifies this
      ensures Brought(old(View()), View(),
                      if old(inflight[i]).what.DeleteCall? then {old(inflight[i]).id.Group()} else {})
      ensures Answered(old(View()), View(), i, failed, cleared, world)
    {
      hide Inv, Evolves, Calm, Undone, Replied;
      InflightLive(View(), i);
      var c := inflight[i];
      if c.what.DeleteCall? {
        DeleteAnswered(i, failed, world);
      } else {
        RequestAnswered(i, Label(c.what, cleared), failed);
      }
    }

    // -------------------------------------------------------------- synchronization with the cloud

    /** syncImpl. */
    method SyncImpl(id: Id, c: Option<CloudGroup>) returns (same: bool)
      requires Inv(View()) && id in index && !id.IpBlocks()
      modifies this
      ensures Kept(old(View()), View()) && index == old(index)
      ensures old(index[id] in groups) && View() ==
                Synced(old(View()), old(index[id]), c.Some?, c.Some? && c.value.sameMembers)
      ensures same <==> if c.Some? then c.value.sameMembers else old(groups)[old(index[id])].members == {}
    {
      ghost var s := View();
      hide Inv, Evolves, GroupMachine.AddImpl, GroupMachine.UpdateImpl;
      FiledLive(s, id);
      KeptSelf(s);
      var g := index[id];
      if c.Some? {
        ConfirmKeeps(s, g);
        StillLive(s, Confirm(s, g), g);
        past := past.(acked := past.acked + {id});
        groups := groups[g := groups[g].(state := Created)];
        if c.value.sameMembers {
          return true;
        }
      } else if groups[g].members == {} {
        return true;
      }
      ghost var t := View();
      if groups[g].state == Created {
        UpdateImpl(g, {}, {}, None);
        KeptTrans(s, t, View());
      } else {
        AddImpl(g, None);
        assert index == s.index;
      }
      return false;
    }

    /**
     Do all policies applied to a group have rules that are ready, once recomputed? Stops at the first that has not.
     */
    method ComputeAll(namers: set<string>) returns (ready: bool)
      requires Inv(View()) && namers <= policies.Keys
      modifies this
      ensures Kept(old(View()), View()) && View() == old(View()).(policies := policies)
      ensures SomeComputed(old(View()), policies, namers)
      ensures ready <==> forall p :: p in namers ==> Computed(old(View()), old(policies)[p]).ready
      ensures ready ==> policies == AllComputed(old(View()), namers)
    {
      ghost var s := View();
      hide Inv, Evolves, Computed, Computing, SomeComputed, AllComputed;
      KeptSelf(s);
      NoneComputed(s, namers);
      var todo := namers;
      while todo != {}
        invariant Kept(s, View()) && View() == s.(policies := policies) && todo <= namers <= policies.Keys
        invariant Computing(s, policies, namers, todo)
        decreases todo
      {
        var p :| p in todo;
        ghost var t := View();
        ComputingNext(s, policies, namers, todo, p);
        ComputedFrame(s, t, s.policies[p]);
        ready := ComputeRules(p);
        KeptTrans(s, t, View());
        if !ready {
          return;
        }
        todo := todo - {p};
      }
      AllAreComputed(s, policies, namers);
      return true;
    }

    /** sync of an appliedTo group, after its members. */
    method SyncRules(id: Id, c: Option<CloudGroup>)
      requires Inv(View()) && id in index && id.kind == AppliedTo
      modifies this
      ensures Kept(old(View()), View()) && index == old(index) && synced == old(synced)
      ensures old(index[id] in groups) && Untouched(old(View()), View(), old(index[id])) && old(inflight) <= inflight
      ensures RulesOutcome(old(View()), View(), old(index[id]), id, c.Some? && c.value.sameRules)
    {
      ghost var s := View();
      hide Inv, Evolves, GroupMachine.UpdateRules, Computed, RulesRequest, AllComputed, SomeComputed;
      FiledLive(s, id);
      var namers := Namers(policies, id.Group());
      var ready := ComputeAll(namers);
      if !ready {
        return;
      }
      ghost var t := View();
      SameNamers(s, t, id.Group());
      hide Namers, SyncedRules;
      PushRules(id, c.Some? && c.value.sameRules);
      KeptTrans(s, t, View());
    }

    /** The rules of an appliedTo group whose policies are all ready. */
    method PushRules(id: Id, sameRules: bool)
      requires Inv(View()) && id in index && id.kind == AppliedTo
      modifies this
      ensures Kept(old(View()), View()) && index == old(index) && synced == old(synced)
      ensures old(index[id] in groups) && Untouched(old(View()), View(), old(index[id])) && old(inflight) <= inflight
      ensures View() == SyncedRules(old(View()), old(index[id]), sameRules)
    {
      ghost var s := View();
      hide Inv, Evolves, GroupMachine.UpdateRules, RulesRequest;
      FiledLive(s, id);
      KeptSelf(s);
      UpdateRulesIssues(s, index[id], None);
      if !sameRules {
        UpdateRules(index[id], None);
      } else if Namers(policies, id.Group()) != {} {
        var o := groups[index[id]].(hasRules := true);
        TouchKeeps(s, index[id], o);
        groups := groups[index[id] := o];
      }
    }

    /** The members of an appliedTo group. */
    method SyncMembers(id: Id, c: Option<CloudGroup>)
      requires Inv(View()) && id in index && id.kind == AppliedTo && synced
      modifies this
      ensures Kept(old(View()), View()) && index == old(index) && synced && old(index[id] in groups)
      ensures Untouched(old(View()), View(), old(index[id])) && old(inflight) <= inflight
      ensures CaughtUp(old(View()), View(), id, c)
      ensures View() == SyncedMembers(old(View()), old(index[id]), c.Some?, c.Some? && c.value.sameMembers)
    {
      ghost var s := View();
      hide Inv, Evolves, Synced, CaughtUp;
      FiledLive(s, id);
      SyncedCatchesUp(s, index[id], id, c);
      var same := SyncImpl(id, c);
      ghost var t := View();
      FiledLive(t, id);
      if same && groups[index[id]].members != {} {
        var o := groups[index[id]].(hasMembers := true);
        TouchKeeps(t, index[id], o);
        groups := groups[index[id] := o];
        KeptTrans(s, t, View());
        StillCaughtUp(s, t, View(), id, c);
      }
    }

    /** sync of one group. */
    method SyncGroup(id: Id, c: Option<CloudGroup>)
      requires Inv(View()) && id in index && !id.IpBlocks() && synced
      modifies this
      ensures Kept(old(View()), View()) && index == old(index) && synced && old(index[id] in groups)
      ensures Untouched(old(View()), View(), old(index[id])) && old(inflight) <= inflight
      ensures CaughtUp(old(View()), View(), id, c)
      ensures SyncedOne(old(View()), View(), id, c)
    {
      ghost var s := View();
      hide Inv, Evolves, Synced, SyncedMembers, RulesOutcome;
      FiledLive(s, id);
      KeptSelf(s);
      if groups[index[id]].deletePending {
        return;
      }
      hide CaughtUp;
      if id.kind == Addr {
        SyncedCatchesUp(s, index[id], id, c);
        var same := SyncImpl(id, c);
        return;
      }
      SyncMembers(id, c);
      ghost var t := View();
      SyncRules(id, c);
      KeptTrans(s, t, View());
      StillCaughtUp(s, t, View(), id, c);
    }

    /** A group only the cloud knows is deleted there, if no policy names it. */
    method DeleteForeign(id: Id)
      requires Inv(View()) && id !in index
      modifies this
      ensures Kept(old(View()), View()) && index == old(index) && policies == old(policies)
      ensures Untouched(old(View()), View(), old(next)) && old(inflight) <= inflight
      ensures !id.IpBlocks() && old(Namers(policies, id.Group())) == {} ==>
                Sent(old(inflight), inflight, Call(old(next), id, DeleteCall))
      ensures !id.IpBlocks() ==> id.Group() in pendingDelete
    {
      ghost var s := View();
      UnusedNext(s);
      AllocatedFacts(s, id);
      hide Inv, Evolves, Steady, GroupMachine.DeleteImpl, Namers, Sent, SameShelf, SameShelves, GroupMachine.Allocate,
          Lose, Deletable, Stable, Untouched;
      var g := Allocate(id, {}, Created);
      ghost var t := View();
      if !id.IpBlocks() && Namers(policies, id.Group()) == {} {
        DeleteSends(t, g);
      }
      DeleteShelf(t, g);
      Delete(g);
      UntouchedTrans(s, t, View(), g);
      KeptTrans(s, t, View());
    }

    /** Groups the cloud has and the reconciler does not know are deleted; the others are returned. */
    method DeleteUnknown(found: seq<(Id, CloudGroup)>) returns (known: map<Id, CloudGroup>)
      requires Inv(View())
      modifies this
      ensures Kept(old(View()), View()) && index == old(index) && policies == old(policies) && old(inflight) <= inflight
      ensures forall r :: r in old(groups) ==> r in groups && groups[r] == old(groups)[r]
      ensures known.Keys <= index.Keys && forall id :: id in index ==> Found(known, id) == Latest(found, id)
      ensures Expelled(old(View()), View(), found)
    {
      ghost var s := View();
      hide Inv, Evolves, Steady, Expelled;
      KeptSelf(s);
      known := map[];
      NoneExpelled(s);
      for i := 0 to |found|
        invariant Kept(s, View()) && index == s.index && policies == s.policies && s.inflight <= inflight
        invariant forall r :: r in s.groups ==> r in groups && groups[r] == s.groups[r]
        invariant known.Keys <= index.Keys && forall id :: id in index ==> Found(known, id) == Latest(found[..i], id)
        invariant Expelled(s, View(), found[..i])
      {
        ghost var t := View();
        var id := found[i].0;
        KeptSelf(t);
        if id in index {
          known := known[id := found[i].1];
        } else {
          UnusedNext(t);
          DeleteForeign(id);
          KeptTrans(s, t, View());
        }
        assert found[..i + 1][..i] == found[..i];
        ExpelledNext(s, t, View(), found, i);
      }
      assert found[..|found|] == found;
    }

    method SyncAll(kind: Kind, known: map<Id, CloudGroup>)
      requires Inv(View()) && synced
      modifies this
      ensures Kept(old(View()), View()) && index == old(index) && synced && old(inflight) <= inflight
      ensures Swept(old(View()), View(), known, Syncable(index, kind))
      ensures forall id :: id in Syncable(index, kind) ==> CaughtUp(old(View()), View(), id, Found(known, id))
      ensures forall r :: r in old(groups) && old(groups)[r].id.kind != kind ==>
                r in groups && groups[r] == old(groups)[r]
    {
      ghost var s := View();
      hide Inv, Evolves, Steady, SyncedOne, CaughtUp, Untouched, Syncing, Swept;
      KeptSelf(s);
      IndexLinked(s);
      var all := Syncable(index, kind);
      NoneSynced(s, kind, known, all);
      NoneSwept(s, known);
      var todo := all;
      ghost var done := {};
      while todo != {}
        invariant Kept(s, View()) && index == s.index && synced && todo + done == all && todo !! done
        invariant Syncing(s, View(), kind, known, all, todo) && Swept(s, View(), known, done)
        decreases todo
      {
        var id :| id in todo;
        ghost var t := View();
        SyncGroup(id, Found(known, id));
        KeptTrans(s, t, View());
        FiledLive(View(), id);
        SyncingNext(s, t, View(), kind, known, all, todo, id);
        SweptNext(s, t, View(), known, done, id);
        todo, done := todo - {id}, done + {id};
      }
      assert done == all;
      AllSynced(s, View(), kind, known, all);
    }

    /** An empty update for one group of each resource that carries foreign security groups. */
    method Touch(touched: seq<Id>)
      requires Inv(View())
      modifies this
      ensures Kept(old(View()), View()) && index == old(index) && synced == old(synced) && old(inflight) <= inflight
      ensures View() == TouchedAll(old(View()), touched)
    {
      ghost var s := View();
      hide Inv, Evolves, GroupMachine.UpdateImpl;
      KeptSelf(s);
      for i := 0 to |touched|
        invariant Kept(s, View()) && index == s.index && synced == s.synced && s.inflight <= inflight
        invariant View() == TouchedAll(s, touched[..i])
      {
        assert touched[..i + 1][..i] == touched[..i];
        if touched[i].kind == AppliedTo && touched[i] in index {
          ghost var t := View();
          FiledLive(t, touched[i]);
          Update(index[touched[i]], {}, {});
          KeptTrans(s, t, View());
        }
      }
      assert touched[..|touched|] == touched;
    }

    /** All groups in turn, address groups first. */
    method SyncGroups(known: map<Id, CloudGroup>, touched: seq<Id>)
      requires Inv(View()) && synced
      modifies this
      ensures Kept(old(View()), View()) && index == old(index) && synced && old(inflight) <= inflight
      ensures forall id :: id in index && !id.IpBlocks() ==> CaughtUp(old(View()), View(), id, Found(known, id))
      ensures exists t, u :: SweptAll(old(View()), t, u, View(), known, touched)
    {
      ghost var s := View();
      hide Inv, Evolves, CaughtUp, Swept, TouchedAll;
      IndexLinked(s);
      SyncAll(Addr, known);
      ghost var t := View();
      SyncAll(AppliedTo, known);
      ghost var u := View();
      Touch(touched);
      assert SweptAll(s, t, u, View(), known, touched);
      KeptTrans(t, u, View());
      KeptTrans(s, t, View());
      forall id | id in index && !id.IpBlocks() ensures CaughtUp(s, View(), id, Found(known, id)) {
        if id.kind == Addr {
          StillCaughtUp(s, t, View(), id, Found(known, id));
        } else {
          CaughtUpSince(s, t, u, id, Found(known, id));
          StillCaughtUp(s, u, View(), id, Found(known, id));
        }
      }
    }

    /**
     syncWithCloud: groups only the cloud knows and no policy names are deleted, those it has count as created, and
     those it lacks are added again.
     */
    method SyncWithCloud(found: seq<(Id, CloudGroup)>, touched: seq<Id>)
      requires Inv(View())
      modifies this
      ensures Kept(old(View()), View()) && Resynced(old(View()), View(), found, touched)
    {
      ghost var s := View();
      hide Inv, Evolves, Steady, CaughtUp, Expelled, SweptAll, Latest;
      KeptSelf(s);
      if bookmarks < SYNC_READY_BOOKMARKS {
        return;
      }
      IndexLinked(s);
      var known := DeleteUnknown(found);
      ghost var t := View();
      MarkKeeps(t, true, bookmarks);
      synced := true;
      KeptTrans(s, t, View());
      ghost var u := View();
      SyncGroups(known, touched);
      KeptTrans(s, u, View());
      forall id | id in index && !id.IpBlocks() ensures CaughtUp(s, View(), id, Latest(found, id)) {
        CaughtUpSince(s, u, View(), id, Found(known, id));
      }
      KeptTrans(t, u, View());
      StillExpelled(s, t, View(), found);
      ghost var v, w :| SweptAll(u, v, w, View(), known, touched);
      assert SweptSince(s, u, v, w, View(), known, found, touched);
    }

    /** processBookMark. */
    method ProcessBookmark(found: seq<(Id, CloudGroup)>, touched: seq<Id>)
      requires Inv(View())
      modifies this
      ensures Kept(old(View()), View())
      ensures if old(synced) then View() == old(View())
              else Resynced(old(View()).(bookmarks := old(bookmarks) + 1), View(), found, touched)
    {
      hide Inv, Evolves, Resynced;
      KeptSelf(View());
      if synced {
        return;
      }
      MarkKeeps(View(), synced, bookmarks + 1);
      bookmarks := bookmarks + 1;
      ghost var t := View();
      SyncWithCloud(found, touched);
      KeptTrans(old(View()), t, View());
    }

    // -------------------------------------------------------------- the event loop

    /** computeRulesReady(true), as getStatus calls it: errors and groups not ready leave the policy as it is. */
    method ProbeStatus(p: string)
      requires Inv(View()) && p in policies
      modifies this
      ensures Kept(old(View()), View()) && Probed(old(View()), View(), p)
    {
      ghost var s := View();
      hide Inv, Evolves, Steady, AllReady, AllFine;
      KeptSelf(s);
      IndexLinked(s);
      var names := NamedAddressGroups(policies[p].rules);
      var todo, fine := names, true;
      while todo != {} && fine
        invariant View() == s && todo <= names && (fine <==> forall g :: g in names - todo ==> AllFine(s, g))
        decreases todo
      {
        var g :| g in todo;
        fine := IsFine(g);
        todo := todo - {g};
      }
      if fine {
        if AllReady(s.index, s.groups, s.policies[p].rules) {
          ReadyKeeps(s, p);
        }
        ComputeRulesReady(p);
        AlreadyReady(s.policies, p);
      }
    }

    method IsFine(g: string) returns (fine: bool)
      requires forall id :: id in index ==> index[id] in groups
      ensures fine <==> AllFine(View(), g)
    {
      var sgs := ByIndex(GroupName(Addr, g));
      fine := forall id :: id in sgs ==> groups[index[id]].status == Fine;
    }

    /** Events whose steps all keep what the policies name. */
    method Handle(e: Event)
      requires Inv(View()) && past.reporting.None? && e.Dispatched() && !e.PolicyEvent?
      modifies this
      ensures Brought(old(View()), View(), Stirs(old(View()), e)) && Handled(old(View()), e, View())
    {
      ghost var s := View();
      hide Inv, Evolves, Calm, Enrolled, Answered, Ticked, Probed, Resynced;
      KeptSelf(s);
      StirredBrought(s, s, {});
      match e
      case MemberEvent(group, event, world) =>
        var failed := ProcessMemberGroup(group, event, world);
        StirredBrought(s, View(), Concerns(group, event, world));
      case Response(call, failed, cleared, world) =>
        if call < |inflight| {
          ProcessResponse(call, failed, cleared, world);
        }
      case Tick(world) =>
        CheckToRun(world);
        StirredBrought(s, View(), Waiters(s.retryQueue.Keys));
      case StatusProbe(p) =>
        NotProbed(s, p);
        if p in policies {
          ProbeStatus(p);
          StirredBrought(s, View(), {});
        }
      case Synchronize(found, touched) =>
        SyncWithCloud(found, touched);
        StirredBrought(s, View(), {});
      case BookmarkEvent(found, touched) =>
        ProcessBookmark(found, touched);
        StirredBrought(s, View(), {});
    }

    /** One turn of the event loop. */
    method Step(e: Event)
      requires Settled(View()) && e.Dispatched()
      modifies this
      ensures LeadsTo(old(View()), e, View())
    {
      hide Inv, Advances, Settled, Evolves, Steady, Calm, Freed, Pushed, BearsUpon;
      ghost var s := View();
      SettledLeft(s);
      if e.PolicyEvent? {
        ProcessNetworkPolicy(e.kind, e.policy, e.rules, e.appliedTo);
        AnnouncedLeads(s, e, View());
      } else {
        Handle(e);
        KeptSettled(s, View());
        BroughtLeads(s, e, View());
      }
    }

    /** Any run of the event loop. */
    method Run(events: seq<Event>) returns (ghost states: seq<State>)
      requires Settled(View()) && forall i :: 0 <= i < |events| ==> events[i].Dispatched()
      modifies this
      ensures Settled(View()) && Advances(old(View()), View())
      ensures Chronicle(states, events) && states[0] == old(View()) && states[|events|] == View()
      ensures Written(policies) == WrittenBy(Written(old(policies)), events)
      // a stranded retry stays stranded, and is asked nothing for, until its group is released; only Deletes follow
      ensures !past.overlapped ==> forall g :: Stranded(old(View()), g) ==>
                Stays(old(View()), View(), g) && OnlyDeletes(old(past.trace), past.trace, g)
    {
      ghost var s := View();
      hide Settled, Advances, Stranded, Stays, OnlyDeletes, LeadsTo, Written, WrittenBy;
      AdvancesSelf(s);
      states := [s];
      NoneWritten(policies);
      for i := 0 to |events|
        invariant Settled(View()) && Advances(s, View())
        invariant Chronicle(states, events[..i]) && states[0] == s && states[i] == View()
        invariant Written(policies) == WrittenBy(Written(s.policies), events[..i])
      {
        ghost var t := View();
        Step(events[i]);
        LeadsOn(t, events[i], View());
        AdvancesTrans(s, t, View());
        assert events[..i + 1] == events[..i] + [events[i]];
        WrittenNext(s, t, View(), events[..i], events[i]);
        ChronicleNext(states, events[..i], events[i], View());
        states := states + [View()];
      }
      assert events[..|events|] == events;
      AdvancesPatient(s, View());
    }
  }

  /** The reconciler from its start through any run of events. */
  method Execute(events: seq<Event>) returns (r: NetworkPolicyReconciler, ghost states: seq<State>)
    requires forall i :: 0 <= i < |events| ==> events[i].Dispatched()
    ensures fresh(r) && Settled(r.View()) && Advances(EMPTY, r.View())
    ensures Chronicle(states, events) && states[0] == EMPTY && states[|events|] == r.View()
    ensures Written(r.policies) == WrittenBy(map[], events)
  {
    hide Settled, Advances, Chronicle, WrittenBy;
    r := new NetworkPolicyReconciler();
    states := r.Run(events);
  }
}
