/** Every operation of the reconciler keeps the invariant: small moves first, whole operations after. */
module GroupInvariants {
  import opened PolicyTypes
  import opened PendingGroups
  import opened GroupMachine

  lemma ProgressesTrans(s: State, t: State, u: State)
    requires Progresses(s, t) && Progresses(t, u)
    ensures Progresses(s, u)
  {
  }

  lemma PatientTrans(s: State, t: State, u: State)
    requires Patient(s, t) && Patient(t, u) && Progresses(s, t) && Progresses(t, u)
    ensures Patient(s, u)
  {
    hide Stranded;
  }

  lemma AdvancesTrans(s: State, t: State, u: State)
    requires Advances(s, t) && Advances(t, u)
    ensures Advances(s, u)
  {
    hide Progresses, Patient;
    ProgressesTrans(s, t, u);
    PatientTrans(s, t, u);
  }

  lemma AdvancesPatient(s: State, t: State)
    requires Advances(s, t)
    ensures Patient(s, t)
  {
    hide Progresses, Patient;
  }

  lemma PatientSelf(s: State)
    ensures Patient(s, s)
  {
    hide Awaited, Quiet, Affords;
  }

  lemma AdvancesSelf(s: State)
    ensures Advances(s, s)
  {
    PatientSelf(s);
    hide Patient;
  }

  /** What Evolves says but for retries. */
  ghost predicate Onward(s: State, t: State) {
    && Progresses(s, t) && SameNames(s.policies, t.policies)
    && (!t.past.overlapped ==>
          && Orphans(t.index, t.groups, t.policies) <= Orphans(s.index, s.groups, s.policies)
          && Stale(t.index, t.blocks, t.policies) <= Stale(s.index, s.blocks, s.policies))
  }

  lemma OnwardEvolves(s: State, t: State)
    ensures Evolves(s, t) <==> Onward(s, t) && Patient(s, t) && t.past.reporting == s.past.reporting
  {
    hide Progresses, Patient, SameNames, Orphans, Stale;
  }

  lemma OnwardTrans(s: State, t: State, u: State)
    requires Onward(s, t) && Onward(t, u)
    ensures Onward(s, u)
  {
    ProgressesTrans(s, t, u);
    assert u.past.overlapped || !t.past.overlapped;
    hide Progresses, Orphans, Stale;
  }

  lemma EvolvesTrans(s: State, t: State, u: State)
    requires Evolves(s, t) && Evolves(t, u)
    ensures Evolves(s, u)
  {
    OnwardEvolves(s, t);
    OnwardEvolves(t, u);
    OnwardEvolves(s, u);
    PatientTrans(s, t, u);
    hide Evolves, Onward, Patient;
    OnwardTrans(s, t, u);
  }

  // ---------------------------------------------------------------- groups left alone

  lemma SteadySame(s: State, t: State)
    requires t.groups == s.groups && t.index == s.index && s.inflight <= t.inflight && forall n :: SameShelf(s, t, n)
    ensures Steady(s, t, {})
  {
  }

  lemma SteadyBut(s: State, t: State, but: set<GroupName>)
    requires t.groups == s.groups && t.index == s.index && s.inflight <= t.inflight
    requires forall n :: n !in but ==> SameShelf(s, t, n)
    ensures Steady(s, t, but)
  {
  }

  lemma ShelfKept(s: State, t: State)
    requires t.pendingDelete == s.pendingDelete
    requires forall n :: GroupKey(n) in t.retryQueue ==> GroupKey(n) in s.retryQueue
    ensures forall n :: SameShelf(s, t, n)
  {
  }

  lemma CalmTrans(s: State, t: State, u: State, but: set<GroupName>)
    requires Calm(s, t, but) && Calm(t, u, but) && (t.past.overlapped ==> u.past.overlapped)
    ensures Calm(s, u, but)
  {
    hide Stable, SameShelf;
    forall name | name !in but ensures SameShelf(s, u, name) {
      ShelfTrans(s, t, u, name);
    }
  }

  lemma ShelfTrans(s: State, t: State, u: State, name: GroupName)
    requires SameShelf(s, t, name) && SameShelf(t, u, name)
    ensures SameShelf(s, u, name)
  {
  }

  lemma CalmWider(s: State, t: State, but: set<GroupName>, more: set<GroupName>)
    requires Calm(s, t, but) && but <= more
    ensures Calm(s, t, more)
  {
    hide Stable, SameShelf;
  }

  lemma OverlapStays(s: State, t: State)
    ensures Evolves(s, t) && s.past.overlapped ==> t.past.overlapped
  {
    hide Patient, Orphans, Stale, SameNames;
  }

  lemma SteadyTrans(s: State, t: State, u: State, but: set<GroupName>)
    requires Steady(s, t, but) && Steady(t, u, but) && Advances(t, u)
    ensures Steady(s, u, but)
  {
    hide Patient, Calm;
    CalmTrans(s, t, u, but);
  }

  /** From s, steps led to t. */
  ghost predicate Carried(s: State, t: State) {
    Inv(t) && Evolves(s, t)
  }

  /** From s, steps of one event led to t that concern groups of some names. */
  ghost predicate Stirred(s: State, t: State, but: set<GroupName>) {
    Carried(s, t) && Steady(s, t, but)
  }

  /** From s, steps of an event led to t that leave all groups alone. */
  ghost predicate Kept(s: State, t: State) {
    Stirred(s, t, {})
  }

  lemma KeptSelf(s: State)
    requires Inv(s)
    ensures Kept(s, s)
  {
    SteadySame(s, s);
    hide Inv, Steady;
    AdvancesSelf(s);
    hide Advances;
  }

  lemma StirredTrans(s: State, t: State, u: State, but: set<GroupName>)
    requires Stirred(s, t, but) && Stirred(t, u, but)
    ensures Stirred(s, u, but)
  {
    hide Inv, Evolves, Calm;
    EvolvesTrans(s, t, u);
    OverlapStays(t, u);
    CalmTrans(s, t, u, but);
  }

  lemma KeptTrans(s: State, t: State, u: State)
    requires Kept(s, t) && Kept(t, u)
    ensures Kept(s, u)
  {
    hide Stirred;
    StirredTrans(s, t, u, {});
  }

  lemma KeptStirred(s: State, t: State, but: set<GroupName>)
    requires Kept(s, t)
    ensures Stirred(s, t, but)
  {
    hide Carried, Calm;
    CalmWider(s, t, {}, but);
  }

  /** From s, steps of one event, which may have taken up the answer to a request, led to t. */
  ghost predicate Brought(s: State, t: State, but: set<GroupName>) {
    Carried(s, t) && Calm(s, t, but)
  }

  lemma StirredBrought(s: State, t: State, but: set<GroupName>)
    requires Stirred(s, t, but)
    ensures Brought(s, t, but)
  {
    hide Carried, Calm;
  }

  lemma BroughtTrans(s: State, t: State, u: State, but: set<GroupName>)
    requires Brought(s, t, but) && Brought(t, u, but)
    ensures Brought(s, u, but)
  {
    hide Inv, Evolves, Calm;
    EvolvesTrans(s, t, u);
    OverlapStays(t, u);
    CalmTrans(s, t, u, but);
  }

  lemma BroughtWider(s: State, t: State, but: set<GroupName>, more: set<GroupName>)
    requires Brought(s, t, but) && but <= more
    ensures Brought(s, t, more)
  {
    hide Carried, Calm;
    CalmWider(s, t, but, more);
  }

  lemma StirredWider(s: State, t: State, but: set<GroupName>, more: set<GroupName>)
    requires Stirred(s, t, but) && but <= more
    ensures Stirred(s, t, more)
  {
    hide Carried, Calm;
    CalmWider(s, t, but, more);
  }

  /** From s, steps that file security groups of one group led to t: only policies naming it can have become stale. */
  ghost predicate Grown(s: State, t: State, name: GroupName) {
    Inv(t) && Moves(s, t) && Steady(s, t, {name}) && (!t.past.overlapped ==> NewlyStale(s, t, name))
  }

  ghost predicate NewlyStale(s: State, t: State, name: GroupName) {
    forall p :: p in Stale(t.index, t.blocks, t.policies) ==>
        p in Stale(s.index, s.blocks, s.policies) || t.policies[p].Names(name)
  }

  lemma StirredGrown(s: State, t: State, name: GroupName)
    requires Stirred(s, t, {name})
    ensures Grown(s, t, name)
  {
    hide Inv, Moves, Stale, Steady;
  }

  lemma KeptGrown(s: State, t: State, name: GroupName)
    requires Kept(s, t)
    ensures Grown(s, t, name)
  {
    hide Stirred, Grown;
    KeptStirred(s, t, {name});
    StirredGrown(s, t, name);
  }

  lemma MovesTrans(s: State, t: State, u: State)
    requires Moves(s, t) && Moves(t, u)
    ensures Moves(s, u)
  {
    AdvancesTrans(s, t, u);
    assert u.past.overlapped || !t.past.overlapped;
    hide Advances, Orphans;
  }

  lemma GrownTrans(s: State, t: State, u: State, name: GroupName)
    requires Grown(s, t, name) && Grown(t, u, name)
    ensures Grown(s, u, name)
  {
    MovesTrans(s, t, u);
    if !u.past.overlapped {
      NewlyStaleTrans(s, t, u, name);
    }
    hide Inv, Stale, SameNames, Orphans, NewlyStale, Calm, Patient;
    CalmTrans(s, t, u, {name});
  }

  lemma NewlyStaleTrans(s: State, t: State, u: State, name: GroupName)
    requires NewlyStale(s, t, name) && NewlyStale(t, u, name) && SameNames(t.policies, u.policies)
    ensures NewlyStale(s, u, name)
  {
    StaleKeys(t.index, t.blocks, t.policies);
    StaleKeys(u.index, u.blocks, u.policies);
    hide Stale;
  }

  lemma StaleKeys(index: map<Id, Ref>, blocks: Blocks, policies: map<string, Policy>)
    ensures Stale(index, blocks, policies) <= policies.Keys
  {
  }

  /** Steps of one group that may have filed security groups, and if `kept` have not. */
  ghost predicate GrownUnless(s: State, t: State, name: GroupName, kept: bool) {
    Grown(s, t, name) && (kept ==> Evolves(s, t))
  }

  lemma GrownUnlessTrans(s: State, t: State, u: State, name: GroupName, a: bool, b: bool)
    requires GrownUnless(s, t, name, a) && GrownUnless(t, u, name, b)
    ensures GrownUnless(s, u, name, a && b)
  {
    hide Grown, Evolves;
    GrownTrans(s, t, u, name);
    if a && b {
      EvolvesTrans(s, t, u);
    }
  }

  lemma NowInv(s: State, t: State, name: GroupName, kept: bool)
    requires GrownUnless(s, t, name, kept)
    ensures Inv(t)
  {
    hide Inv, Moves, NewlyStale, Steady;
  }

  lemma KeptGrownUnless(s: State, t: State, name: GroupName)
    requires Kept(s, t)
    ensures GrownUnless(s, t, name, true)
  {
    hide Inv, Evolves, Grown, Steady;
    KeptGrown(s, t, name);
  }

  lemma StirredGrownUnless(s: State, t: State, name: GroupName)
    requires Stirred(s, t, {name})
    ensures GrownUnless(s, t, name, true)
  {
    hide Inv, Evolves, Grown, Steady;
    StirredGrown(s, t, name);
  }

  lemma GrownUnlessStirred(s: State, t: State, name: GroupName)
    requires GrownUnless(s, t, name, true)
    ensures Stirred(s, t, {name})
  {
    hide Inv, Evolves, Moves, NewlyStale, Steady;
  }

  /** Once no policy naming the group is stale, nothing has become stale. */
  lemma GrownKept(s: State, t: State, u: State, name: GroupName)
    requires Grown(s, t, name) && Kept(t, u) && forall p :: p in Namers(u.policies, name) ==>
               p !in Stale(u.index, u.blocks, u.policies)
    ensures Stirred(s, u, {name})
  {
    KeptGrown(t, u, name);
    GrownTrans(s, t, u, name);
    StaleKeys(u.index, u.blocks, u.policies);
    hide Inv, Moves, Stale, Steady;
  }

  // ---------------------------------------------------------------- counting Deletes in flight

  lemma CountAppend(calls: seq<Call>, c: Call, g: GroupName)
    ensures CountDeletes(calls + [c], g) == CountDeletes(calls, g) + if c.what.DeleteCall? && c.id.Group() == g then 1
              else 0
  {
    assert (calls + [c])[..|calls|] == calls;
  }

  lemma DropFront(calls: seq<Call>, i: nat)
    requires i < |calls| - 1
    ensures Drop(calls, i) == Drop(calls[..|calls| - 1], i) + [calls[|calls| - 1]]
  {
  }

  lemma {:induction false} CountDrop(calls: seq<Call>, i: nat, g: GroupName)
    requires i < |calls|
    ensures CountDeletes(calls, g) ==
            CountDeletes(Drop(calls, i), g) + if calls[i].what.DeleteCall? && calls[i].id.Group() == g then 1 else 0
  {
    var n := |calls| - 1;
    if i == n {
      assert Drop(calls, i) == calls[..n];
    } else {
      CountDrop(calls[..n], i, g);
      DropFront(calls, i);
      hide Drop;
      CountAppend(Drop(calls[..n], i), calls[n], g);
    }
  }

  // ---------------------------------------------------------------- history

  lemma CondemnedStays(s: State, t: State)
    requires Condemned(s.groups, s.past.trace) && s.past.trace <= t.past.trace
    requires forall r :: r in t.groups && t.groups[r].state == Garbage ==> r in s.groups && s.groups[r].state == Garbage
    ensures Condemned(t.groups, t.past.trace)
  {
    forall r | r in t.groups && t.groups[r].state == Garbage ensures WasDeleted(t.past.trace, r) {
      var i :| 0 <= i < |s.past.trace| && IsDelete(s.past.trace[i], r);
      assert IsDelete(t.past.trace[i], r);
    }
  }

  lemma TracedNext(trace: seq<Issue>, e: Issue)
    requires Traced(trace) && Lawful(e)
    requires e.call.what.DeleteCall? ==> WasDeleted(trace, e.call.ref) || e.namers == {}
    ensures Traced(trace + [e])
  {
    var next := trace + [e];
    assert next[..|trace|] == trace;
    forall i | 0 <= i < |next| ensures Lawful(next[i]) {}
    forall i | 0 <= i < |trace| ensures next[..i] == trace[..i] && next[i] == trace[i] {}
  }

  lemma LastRunNext(ran: seq<Ran>, run: Ran, key: QueueKey)
    ensures LastRun(ran + [run], key) == if run.key == key then run.nth else LastRun(ran, key)
  {
    assert (ran + [run])[..|ran|] == ran;
  }

  /** A run may be recorded if it is the next of its item, or the item's first, and within budget. */
  ghost predicate MayRecord(ran: seq<Ran>, run: Ran) {
    && 1 <= run.nth <= (if run.tick then OPERATION_COUNT else OPERATION_COUNT + 1)
    && (run.nth == 1 || run.nth == LastRun(ran, run.key) + 1)
    && (run.key.GroupKey? ==> run.tick)
  }

  lemma RecordedNext(ran: seq<Ran>, panicked: bool, run: Ran)
    requires Recorded(ran, panicked) && MayRecord(ran, run)
    ensures Recorded(ran + [run], panicked || Fatal(run))
  {
    var next := ran + [run];
    forall i | 0 <= i < |ran| ensures Numbered(next, i) {
      assert Numbered(ran, i) && next[..i] == ran[..i];
    }
    assert next[..|ran|] == ran && next[|ran|] == run;
    assert forall i :: 0 <= i < |ran| ==> next[i] == ran[i];
  }

  lemma BudgetedNext(retryQueue: map<QueueKey, RetryItem>, ran: seq<Ran>, run: Ran, item: Option<RetryItem>)
    requires Budgeted(retryQueue, ran) && (item.Some? ==> InBudget(item.value) && item.value.runs == run.nth)
    ensures Budgeted(if item.None? then retryQueue - {run.key} else retryQueue[run.key := item.value], ran + [run])
  {
    forall k ensures LastRun(ran + [run], k) == if run.key == k then run.nth else LastRun(ran, k) {
      LastRunNext(ran, run, k);
    }
  }

  // ---------------------------------------------------------------- stranded retries

  /** Whatever strands retries has stayed. */
  lemma SamePatient(s: State, t: State)
    requires t.groups == s.groups && t.inflight == s.inflight && t.retryQueue == s.retryQueue
    requires t.past.reporting == s.past.reporting && t.past.trace == s.past.trace
    ensures Patient(s, t)
  {
    forall g | Stranded(s, g) ensures Stays(s, t, g) {
      assert Stranded(t, g);
    }
  }

  /** No request has been issued, and what was stranded is. */
  lemma StillPatient(s: State, t: State)
    requires t.past.trace == s.past.trace
    requires !t.past.overlapped ==> forall g :: Stranded(s, g) ==>
               g in t.past.released || (Stranded(t, g) && t.groups[g].retryOp == s.groups[g].retryOp)
    ensures Patient(s, t)
  {
    hide Awaited, Quiet, Affords;
    if !t.past.overlapped {
      forall g | Stranded(s, g) ensures Stays(s, t, g) {
        assert Silent(s.past.trace, t.past.trace, g);
      }
    }
  }

  lemma StrandedFiled(s: State, g: Ref)
    requires Linked(s) && NoStrays(s) && Stranded(s, g)
    ensures s.groups[g].id in s.index && s.index[s.groups[g].id] == g
  {
    assert !Stray(s, g);
  }

  lemma StrandedOp(s: State, g: Ref)
    requires Linked(s) && Lifecycle(s) && Stranded(s, g)
    ensures s.groups[g].retryOp.value != DeleteOp
  {
  }

  // ---------------------------------------------------------------- one object

  /** An object the queue or the cloud still knows. */
  ghost predicate Live(s: State, g: Ref) {
    g in s.groups && !s.groups[g].id.IpBlocks() && (!s.past.overlapped ==> !Stray(s, g))
  }

  /** A change of one object that keeps its id and state. */
  ghost predicate MayPut(s: State, g: Ref, o: SecurityGroup) {
    && g in s.groups && o.id == s.groups[g].id && o.state == s.groups[g].state
    && (s.groups[g].deletePending ==> o.deletePending)
    && (o.deletePending ==> s.groups[g].deletePending || Namers(s.policies, o.id.Group()) != {})
    && (o.retryOp == s.groups[g].retryOp || o.retryOp.None? || MayArm(s, g, o.retryOp.value))
    && (o.state == Init && !s.past.overlapped ==>
          o.status == s.groups[g].status || o.status == InProgress || forall i :: 0 <= i < |s.inflight| ==>
              s.inflight[i].ref != g)
    && MayWake(s, g, o)
  }

  /** A stranded retry stays as it is. */
  ghost predicate MayWake(s: State, g: Ref, o: SecurityGroup)
    requires g in s.groups
  {
    || (o.retryOp == s.groups[g].retryOp && o.retryInProgress == s.groups[g].retryInProgress)
    || s.past.overlapped || !Stranded(s, g)
  }

  ghost predicate MayArm(s: State, g: Ref, op: Op)
    requires g in s.groups
  {
    && !s.groups[g].id.IpBlocks() && (s.groups[g].state == Garbage <==> op == DeleteOp)
    && (!s.past.overlapped ==> !Stray(s, g))
    && (op == UpdateRulesOp ==> s.groups[g].id.kind == AppliedTo)
  }

  lemma PutLinked(s: State, g: Ref, o: SecurityGroup)
    requires Linked(s) && Grounded(s) && MayPut(s, g, o)
    ensures Linked(Put(s, g, o)) && Grounded(Put(s, g, o))
  {
    hide Proper, Namers, Stray, MayWake;
  }

  lemma PutSafe(s: State, g: Ref, o: SecurityGroup)
    requires Safe(s) && MayPut(s, g, o)
    ensures Safe(Put(s, g, o))
  {
    PutLinked(s, g, o);
    hide Counted, Budgeted, Recorded, Traced, Grounded, PoliciesSound, Housed, Proper, Namers, Stray, MayWake;
  }

  lemma PutOrderly(s: State, g: Ref, o: SecurityGroup)
    requires Linked(s) && Orderly(s) && MayPut(s, g, o) && Linked(Put(s, g, o))
    ensures Orderly(Put(s, g, o))
  {
    hide MayWake;
  }

  lemma PutPatient(s: State, g: Ref, o: SecurityGroup)
    requires MayPut(s, g, o)
    ensures Patient(s, Put(s, g, o))
  {
    hide Awaited, Quiet, Affords, Namers, MayArm;
    StillPatient(s, Put(s, g, o));
  }

  lemma PutEvolves(s: State, g: Ref, o: SecurityGroup)
    requires Linked(s) && MayPut(s, g, o)
    ensures Evolves(s, Put(s, g, o))
  {
    PutPatient(s, g, o);
    hide Patient, MayWake, Stale;
  }

  /** Other groups keep their members; so does this one, unless they are changed or it is marked for deletion. */
  lemma PutSteady(s: State, g: Ref, o: SecurityGroup)
    requires Linked(s) && g in s.groups
    ensures Steady(s, Put(s, g, o), {s.groups[g].id.Group()})
    ensures o.members == s.groups[g].members && o.deletePending == s.groups[g].deletePending ==>
              Steady(s, Put(s, g, o), {})
    ensures !(s.groups[g].id in s.index && s.index[s.groups[g].id] == g) ==> Steady(s, Put(s, g, o), {})
  {
    ShelfKept(s, Put(s, g, o));
    hide Proper, SameShelf;
  }

  lemma PutStirs(s: State, g: Ref, o: SecurityGroup)
    requires Inv(s) && MayPut(s, g, o)
    ensures Stirred(s, Put(s, g, o), {s.groups[g].id.Group()})
    ensures Steady(s, Put(s, g, o), {}) ==> Kept(s, Put(s, g, o))
  {
    CondemnedStays(s, Put(s, g, o));
    hide Linked, Grounded, Lifecycle, PoliciesSound, Confirmed, Housed, Orderly, Evolves, MayPut, Condemned, Steady;
    PutSafe(s, g, o);
    PutOrderly(s, g, o);
    PutEvolves(s, g, o);
    PutSteady(s, g, o);
  }

  lemma PutKeeps(s: State, g: Ref, o: SecurityGroup)
    requires Inv(s) && MayPut(s, g, o)
    requires o.members == s.groups[g].members && o.deletePending == s.groups[g].deletePending
    ensures Kept(s, Put(s, g, o))
  {
    PutStirs(s, g, o);
    assert Linked(s);
    hide Inv, Linked, Kept, Steady, MayPut, Stirred;
    PutSteady(s, g, o);
  }

  /** Bookkeeping that is nobody else's business. */
  lemma TouchKeeps(s: State, g: Ref, o: SecurityGroup)
    requires Inv(s) && g in s.groups
    requires o == s.groups[g].(hasRules := o.hasRules, hasMembers := o.hasMembers)
    ensures Kept(s, Put(s, g, o)) && (Live(s, g) ==> Live(Put(s, g, o), g))
  {
    hide Inv, Evolves, Steady;
    PutKeeps(s, g, o);
  }

  /** A group has other members. */
  lemma MembersStir(s: State, g: Ref, o: SecurityGroup)
    requires Inv(s) && g in s.groups && o == s.groups[g].(members := o.members)
    ensures Stirred(s, Put(s, g, o), {o.id.Group()}) && (Live(s, g) ==> Live(Put(s, g, o), g))
  {
    hide Inv, Evolves, Steady;
    PutStirs(s, g, o);
  }

  lemma AllocateLinked(s: State, id: Id, members: set<string>, state: GroupState)
    requires Linked(s) && Grounded(s)
    ensures Linked(Allocate(s, id, members, state)) && Grounded(Allocate(s, id, members, state))
  {
    hide Proper;
    assert s.next !in s.groups;
  }

  lemma AllocateSound(s: State, id: Id, members: set<string>, state: GroupState)
    requires PoliciesSound(s.index, s.past.acked, s.policies) && Confirmed(s.groups, s.past.acked)
    ensures var t := Allocate(s, id, members, state);
            PoliciesSound(t.index, t.past.acked, t.policies) && Confirmed(t.groups, t.past.acked)
  {
    forall p | p in s.policies ensures PolicySound(s.index, Allocate(s, id, members, state).past.acked, s.policies[p]) {
      assert PolicySound(s.index, s.past.acked, s.policies[p]);
    }
  }

  lemma AllocateSafe(s: State, id: Id, members: set<string>, state: GroupState)
    requires Safe(s) && state != Garbage
    ensures Safe(Allocate(s, id, members, state))
  {
    AllocateLinked(s, id, members, state);
    AllocateSound(s, id, members, state);
    hide Counted, Budgeted, Recorded, Traced, Grounded, PoliciesSound, Confirmed, Housed;
    assert s.next !in s.groups;
  }

  lemma AllocateOrderly(s: State, id: Id, members: set<string>, state: GroupState)
    requires Linked(s) && Orderly(s) && state != Garbage && Linked(Allocate(s, id, members, state))
    ensures Orderly(Allocate(s, id, members, state))
  {
    assert s.next !in s.groups;
    hide Proper;
  }

  lemma AllocateEvolves(s: State, id: Id, members: set<string>, state: GroupState)
    requires Linked(s)
    ensures Evolves(s, Allocate(s, id, members, state))
  {
    assert s.next !in s.groups;
    AllocatePatient(s, id, members, state);
    hide Patient, Stale, Proper;
  }

  lemma AllocatePatient(s: State, id: Id, members: set<string>, state: GroupState)
    requires s.next !in s.groups
    ensures Patient(s, Allocate(s, id, members, state))
  {
    hide Awaited, Quiet, Affords;
    StillPatient(s, Allocate(s, id, members, state));
  }

  lemma AllocateSteady(s: State, id: Id, members: set<string>, state: GroupState)
    requires Linked(s)
    ensures Steady(s, Allocate(s, id, members, state), {})
  {
    hide Proper;
  }

  lemma AllocateKeeps(s: State, id: Id, members: set<string>, state: GroupState)
    requires Inv(s) && state != Garbage
    ensures Kept(s, Allocate(s, id, members, state))
  {
    CondemnedStays(s, Allocate(s, id, members, state));
    AllocateSteady(s, id, members, state);
    hide Linked, Grounded, Lifecycle, PoliciesSound, Confirmed, Housed, Orderly, Evolves, Condemned, Steady;
    AllocateSafe(s, id, members, state);
    AllocateOrderly(s, id, members, state);
    AllocateEvolves(s, id, members, state);
  }

  lemma ConfirmSafe(s: State, g: Ref)
    requires Safe(s) && g in s.groups && s.groups[g].state != Garbage
    ensures Safe(Confirm(s, g))
  {
    hide Counted, Budgeted, Recorded, Traced, PoliciesSound, Confirmed, Linked, Grounded, Lifecycle;
    ConfirmSound(s, g);
    ConfirmLinked(s, g);
  }

  /** Objects keep everything but, perhaps, a state that is no garbage. */
  ghost predicate Restates(s: State, t: State) {
    t == s.(groups := t.groups, past := s.past.(acked := t.past.acked)) && t.groups.Keys == s.groups.Keys &&
    forall r :: r in s.groups ==>
      && t.groups[r].id == s.groups[r].id && t.groups[r].retryOp == s.groups[r].retryOp
      && (t.groups[r].state == s.groups[r].state || (s.groups[r].state != Garbage && t.groups[r].state != Garbage))
  }

  lemma ConfirmRestates(s: State, g: Ref)
    requires g in s.groups && s.groups[g].state != Garbage
    ensures Restates(s, Confirm(s, g))
  {
  }

  lemma RestatedLinked(s: State, t: State)
    requires Linked(s) && Grounded(s) && Restates(s, t)
    ensures Linked(t) && Grounded(t)
  {
    hide Proper;
  }

  lemma RestatedLifecycle(s: State, t: State)
    requires Linked(s) && Linked(t) && Lifecycle(s) && Restates(s, t)
    ensures Lifecycle(t)
  {
    hide Proper;
  }

  lemma ConfirmLinked(s: State, g: Ref)
    requires Linked(s) && Grounded(s) && Lifecycle(s) && g in s.groups && s.groups[g].state != Garbage
    ensures Linked(Confirm(s, g)) && Grounded(Confirm(s, g)) && Lifecycle(Confirm(s, g))
  {
    hide Linked, Grounded, Lifecycle, Restates, Confirm;
    ConfirmRestates(s, g);
    RestatedLinked(s, Confirm(s, g));
    RestatedLifecycle(s, Confirm(s, g));
  }

  lemma ConfirmSound(s: State, g: Ref)
    requires PoliciesSound(s.index, s.past.acked, s.policies) && Confirmed(s.groups, s.past.acked) && g in s.groups
    ensures PoliciesSound(s.index, Confirm(s, g).past.acked, s.policies)
    ensures Confirmed(Confirm(s, g).groups, Confirm(s, g).past.acked)
  {
    forall p | p in s.policies ensures PolicySound(s.index, Confirm(s, g).past.acked, s.policies[p]) {
      assert PolicySound(s.index, s.past.acked, s.policies[p]);
    }
  }

  lemma ConfirmStrays(s: State, g: Ref)
    requires Linked(s) && NoStrays(s) && g in s.groups && s.groups[g].state != Garbage && Linked(Confirm(s, g))
    ensures NoStrays(Confirm(s, g))
  {
    forall r | r in s.groups ensures Stray(Confirm(s, g), r) <==> Stray(s, r) {}
  }

  lemma ConfirmCreates(s: State, g: Ref)
    requires Linked(s) && OneCreate(s) && g in s.groups && Linked(Confirm(s, g))
    ensures OneCreate(Confirm(s, g))
  {
  }

  lemma ConfirmOrderly(s: State, g: Ref)
    requires Linked(s) && Orderly(s) && g in s.groups && s.groups[g].state != Garbage && Linked(Confirm(s, g))
    ensures Orderly(Confirm(s, g))
  {
    hide NoStrays, OneCreate;
    if !s.past.overlapped {
      ConfirmStrays(s, g);
      ConfirmCreates(s, g);
    }
  }

  lemma ConfirmEvolves(s: State, g: Ref)
    requires Linked(s) && g in s.groups && s.groups[g].state != Garbage
    ensures Evolves(s, Confirm(s, g))
  {
    ConfirmOrphans(s, g);
    ConfirmAdvances(s, g);
    hide Orphans, Stale, Linked, Advances;
  }

  lemma ConfirmAdvances(s: State, g: Ref)
    requires Linked(s) && g in s.groups && s.groups[g].state != Garbage
    ensures Advances(s, Confirm(s, g))
  {
    ConfirmPatient(s, g);
    hide Linked, Patient;
    var t := Confirm(s, g);
    forall r | r in s.groups
      ensures r in t.groups && t.groups[r].id == s.groups[r].id && s.groups[r].state.Rank() <= t.groups[r].state.Rank()
      ensures s.groups[r].deletePending ==> t.groups[r].deletePending
    {
    }
  }

  lemma ConfirmPatient(s: State, g: Ref)
    requires g in s.groups
    ensures Patient(s, Confirm(s, g))
  {
    hide Awaited, Quiet, Affords;
    StillPatient(s, Confirm(s, g));
  }

  lemma ConfirmOrphans(s: State, g: Ref)
    requires Linked(s) && g in s.groups
    ensures Orphans(s.index, Confirm(s, g).groups, s.policies) == Orphans(s.index, s.groups, s.policies)
  {
    hide Namers;
  }

  lemma ConfirmSteady(s: State, g: Ref)
    requires g in s.groups
    ensures Steady(s, Confirm(s, g), {})
  {
  }

  lemma ConfirmKeeps(s: State, g: Ref)
    requires Inv(s) && g in s.groups && s.groups[g].state != Garbage
    ensures Kept(s, Confirm(s, g))
  {
    CondemnedStays(s, Confirm(s, g));
    ConfirmSteady(s, g);
    hide Linked, Grounded, Lifecycle, PoliciesSound, Confirmed, Housed, Orderly, Evolves, Condemned, Steady;
    ConfirmSafe(s, g);
    ConfirmOrderly(s, g);
    ConfirmEvolves(s, g);
  }

  // ---------------------------------------------------------------- indexers

  /**
   An object may be filed if it is the filed one, or new under a free key; after overlapping Creates anything goes.
   */
  ghost predicate MayFile(s: State, g: Ref) {
    && g in s.groups && s.groups[g].state != Garbage && (s.groups[g].id.IpBlocks() ==> s.groups[g].id in s.index)
    && (!s.past.overlapped ==>
          !Stray(s, g) || (s.groups[g].id !in s.index && !s.groups[g].deletePending && g !in s.past.released))
  }

  lemma FileSafe(s: State, g: Ref)
    requires Safe(s) && MayFile(s, g)
    ensures Safe(File(s, g))
  {
    hide Counted, Budgeted, Recorded, Traced;
  }

  lemma FileOrderly(s: State, g: Ref)
    requires Linked(s) && Orderly(s) && MayFile(s, g) && Linked(File(s, g))
    ensures Orderly(File(s, g))
  {
    hide Proper;
    if !s.past.overlapped {
      FileStrays(s, g);
    }
    hide Stray, NoStrays;
  }

  lemma FileStrays(s: State, g: Ref)
    requires Linked(s) && NoStrays(s) && MayFile(s, g) && !s.past.overlapped && Linked(File(s, g))
    ensures NoStrays(File(s, g))
  {
    hide Proper;
    forall r | r in s.groups ensures Stray(File(s, g), r) ==> Stray(s, r) {}
  }

  lemma FileMoves(s: State, g: Ref)
    requires Linked(s) && MayFile(s, g)
    ensures Moves(s, File(s, g))
  {
    SamePatient(s, File(s, g));
    hide Patient;
  }

  lemma FileGrows(s: State, g: Ref)
    requires Inv(s) && MayFile(s, g)
    ensures Grown(s, File(s, g), s.groups[g].id.Group())
  {
    FileSteady(s, g);
    hide Linked, Grounded, Lifecycle, PoliciesSound, Confirmed, Housed, Orderly, Moves, NewlyStale, Steady;
    FileSafe(s, g);
    FileOrderly(s, g);
    FileMoves(s, g);
    FileStale(s, g);
  }

  lemma FileSteady(s: State, g: Ref)
    requires g in s.groups
    ensures Steady(s, File(s, g), {s.groups[g].id.Group()})
    ensures s.past.overlapped || (s.groups[g].id in s.index && s.index[s.groups[g].id] == g) ==>
              Steady(s, File(s, g), {})
  {
    ShelfKept(s, File(s, g));
    hide SameShelf;
  }

  /** The rules of a policy do not depend on groups it does not name. */
  lemma Irrelevant(a: map<Id, Ref>, b: map<Id, Ref>, p: Policy, id: Id)
    requires !p.Names(id.Group()) && a.Keys - {id} == b.Keys - {id}
    ensures AllKnown(a, p.rules) <==> AllKnown(b, p.rules)
    ensures Resolved(a, p.rules) == Resolved(b, p.rules)
  {
    RemoteNamed(p.rules);
    forall g | g in RemoteAddressGroups(p.rules)
      ensures Members(a, GroupName(Addr, g)) == Members(b, GroupName(Addr, g))
    {
      forall x: Id | x.Group() == GroupName(Addr, g) ensures x in a <==> x in b {
        assert x != id;
        assert x in a.Keys - {id} <==> x in b.Keys - {id};
      }
    }
    forall x ensures x in Resolved(a, p.rules) <==> x in Resolved(b, p.rules) {
      if x != id {
        assert x in a.Keys - {id} <==> x in b.Keys - {id};
      }
    }
  }

  lemma FileStale(s: State, g: Ref)
    requires g in s.groups
    ensures NewlyStale(s, File(s, g), s.groups[g].id.Group())
  {
    var id, t := s.groups[g].id, File(s, g);
    forall p | p in s.policies && !s.policies[p].Names(id.Group())
      ensures p in Stale(t.index, t.blocks, t.policies) ==> p in Stale(s.index, s.blocks, s.policies)
    {
      Irrelevant(s.index, t.index, s.policies[p], id);
    }
  }

  /** Filing anew what is filed, or any appliedTo group, makes nothing stale. */
  ghost predicate Harmless(s: State, g: Ref) {
    g in s.groups && (s.past.overlapped || s.groups[g].id in s.index || s.groups[g].id.kind == AppliedTo)
  }

  lemma FileStirs(s: State, g: Ref)
    requires Inv(s) && MayFile(s, g) && Harmless(s, g)
    ensures Stirred(s, File(s, g), {s.groups[g].id.Group()})
    ensures s.past.overlapped || (s.groups[g].id in s.index && s.index[s.groups[g].id] == g) ==> Kept(s, File(s, g))
  {
    FileGrows(s, g);
    HarmlessStale(s, g);
    FileSteady(s, g);
    hide Inv, Moves, Stale, Steady;
  }

  lemma HarmlessStale(s: State, g: Ref)
    requires Harmless(s, g)
    ensures s.past.overlapped || Stale(File(s, g).index, s.blocks, s.policies) == Stale(s.index, s.blocks, s.policies)
  {
    var id, index := s.groups[g].id, File(s, g).index;
    forall p | p in s.policies && !s.past.overlapped
      ensures p in Stale(index, s.blocks, s.policies) <==> p in Stale(s.index, s.blocks, s.policies)
    {
      if id in s.index {
        assert index.Keys == s.index.Keys;
        SameIndex(s.index, index, s.policies[p].rules);
      } else {
        AppliedToIrrelevant(s.index, index, s.policies[p].rules, id);
      }
    }
  }

  lemma SameIndex(a: map<Id, Ref>, b: map<Id, Ref>, rules: seq<PolicyRule>)
    requires a.Keys == b.Keys
    ensures AllKnown(a, rules) <==> AllKnown(b, rules)
    ensures Resolved(a, rules) == Resolved(b, rules)
  {
    forall id ensures id in a <==> id in b {}
    forall g ensures Members(a, g) == Members(b, g) {}
  }

  lemma AppliedToIrrelevant(a: map<Id, Ref>, b: map<Id, Ref>, rules: seq<PolicyRule>, id: Id)
    requires a.Keys + {id} == b.Keys && id.kind == AppliedTo
    ensures AllKnown(a, rules) <==> AllKnown(b, rules)
    ensures Resolved(a, rules) == Resolved(b, rules)
  {
    forall x: Id | x.kind == Addr ensures x in a <==> x in b {
      assert x in a.Keys + {id} <==> x in b.Keys;
    }
    forall g ensures Members(a, GroupName(Addr, g)) == Members(b, GroupName(Addr, g)) {}
  }

  /** An IP-block group is filed with its addresses. */
  function FileIps(s: State, g: Ref, ips: set<Prefix>): State
    requires g in s.groups
  {
    SetIps(File(s, g), s.groups[g].id.name, ips)
  }

  ghost predicate MayFileIps(s: State, g: Ref) {
    && g in s.groups && s.groups[g].state != Garbage && s.groups[g].id.IpBlocks()
    && s.groups[g].id !in s.index && !s.groups[g].deletePending && (!s.past.overlapped ==> g !in s.past.released)
  }

  lemma FileIpsSafe(s: State, g: Ref, ips: set<Prefix>)
    requires Safe(s) && MayFileIps(s, g)
    ensures Safe(FileIps(s, g, ips))
  {
    hide Counted, Budgeted, Recorded, Traced;
  }

  lemma FileIpsOrderly(s: State, g: Ref, ips: set<Prefix>)
    requires Linked(s) && Orderly(s) && MayFileIps(s, g) && Linked(FileIps(s, g, ips))
    ensures Orderly(FileIps(s, g, ips))
  {
    hide Proper;
    assert forall r :: r in s.groups && Stray(FileIps(s, g, ips), r) ==> Stray(s, r);
    hide Stray;
  }

  lemma FileIpsMoves(s: State, g: Ref, ips: set<Prefix>)
    requires Linked(s) && MayFileIps(s, g)
    ensures Moves(s, FileIps(s, g, ips))
  {
    SamePatient(s, FileIps(s, g, ips));
    hide Patient, Proper;
  }

  lemma FileIpsSteady(s: State, g: Ref, ips: set<Prefix>)
    requires MayFileIps(s, g)
    ensures Steady(s, FileIps(s, g, ips), {s.groups[g].id.Group()})
  {
    ShelfKept(s, FileIps(s, g, ips));
    hide SameShelf;
  }

  lemma FileIpsGrows(s: State, g: Ref, ips: set<Prefix>)
    requires Inv(s) && MayFileIps(s, g)
    ensures Grown(s, FileIps(s, g, ips), s.groups[g].id.Group())
  {
    FileIpsSteady(s, g, ips);
    hide Linked, Grounded, Lifecycle, PoliciesSound, Confirmed, Housed, Orderly, Moves, NewlyStale, Steady;
    FileIpsSafe(s, g, ips);
    FileIpsOrderly(s, g, ips);
    FileIpsMoves(s, g, ips);
    FileIpsStale(s, g, ips);
  }

  /** The addresses in the rules of a policy do not depend on groups it does not name. */
  lemma IrrelevantIps(a: map<string, set<Prefix>>, b: map<string, set<Prefix>>, p: Policy, name: string)
    requires !p.Names(GroupName(Addr, name)) && a - {name} == b - {name}
    ensures ResolvedIps(a, p.rules) == ResolvedIps(b, p.rules)
  {
    RemoteNamed(p.rules);
    forall g | g in RemoteAddressGroups(p.rules) ensures (g in a <==> g in b) && (g in a ==> a[g] == b[g]) {
      assert g != name;
      assert g in a - {name} <==> g in b - {name};
      assert g in a ==> (a - {name})[g] == (b - {name})[g];
    }
  }

  /** A policy has lost no group it does not name. */
  lemma LostNamed(index: map<Id, Ref>, acked: set<Id>, p: Policy, name: string)
    requires PolicySound(index, acked, p) && !p.Names(GroupName(Addr, name))
    ensures name !in p.lost
  {
    RemoteNamed(p.rules);
  }

  /** Addresses of a group a policy does not name are none of its business. */
  lemma UnnamedIps(index: map<Id, Ref>, a: map<string, set<Prefix>>, b: map<string, set<Prefix>>, p: Policy,
                   name: string)
    requires !p.Names(GroupName(Addr, name)) && a - {name} == b - {name} && name !in p.lost
    ensures StaleIps(index, a, p) <==> StaleIps(index, b, p)
  {
    IrrelevantIps(a, b, p, name);
    hide AllKnown, ResolvedIps, Within;
    forall g | g != name ensures g in a <==> g in b {
      assert g in a - {name} <==> g in b - {name};
    }
  }

  lemma FileIpsStale(s: State, g: Ref, ips: set<Prefix>)
    requires PoliciesSound(s.index, s.past.acked, s.policies) && g in s.groups && s.groups[g].id.IpBlocks()
    ensures NewlyStale(s, FileIps(s, g, ips), s.groups[g].id.Group())
  {
    var id, t := s.groups[g].id, FileIps(s, g, ips);
    hide AllKnown, Resolved, ResolvedIps, Members, Within, PolicySound;
    forall p | p in s.policies && !s.policies[p].Names(id.Group())
      ensures p in Stale(t.index, t.blocks, t.policies) ==> p in Stale(s.index, s.blocks, s.policies)
    {
      Irrelevant(s.index, t.index, s.policies[p], id);
      LostNamed(s.index, s.past.acked, s.policies[p], id.name);
      UnnamedIps(s.index, s.blocks.ips, t.blocks.ips, s.policies[p], id.name);
    }
  }

  /** updateIPs: only policies naming the group can have become stale. */
  lemma SetIpsSafe(s: State, name: string, ips: set<Prefix>)
    requires Safe(s) && name in s.blocks.ips
    ensures Safe(SetIps(s, name, ips))
  {
    hide PoliciesSound, Confirmed, Counted, Budgeted, Recorded, Traced;
  }

  lemma SetIpsOrderly(s: State, name: string, ips: set<Prefix>)
    requires Linked(s) && Orderly(s) && Linked(SetIps(s, name, ips))
    ensures Orderly(SetIps(s, name, ips)) && Moves(s, SetIps(s, name, ips))
  {
    SamePatient(s, SetIps(s, name, ips));
    hide Orphans, Stale, Patient;
  }

  lemma SetIpsStale(s: State, name: string, ips: set<Prefix>)
    requires PoliciesSound(s.index, s.past.acked, s.policies)
    ensures NewlyStale(s, SetIps(s, name, ips), GroupName(Addr, name))
  {
    var t := SetIps(s, name, ips);
    hide AllKnown, Resolved, ResolvedIps, Within, PolicySound;
    forall p | p in s.policies && !s.policies[p].Names(GroupName(Addr, name))
      ensures p in Stale(t.index, t.blocks, t.policies) ==> p in Stale(s.index, s.blocks, s.policies)
    {
      LostNamed(s.index, s.past.acked, s.policies[p], name);
      UnnamedIps(s.index, s.blocks.ips, t.blocks.ips, s.policies[p], name);
    }
  }

  lemma SetIpsGrows(s: State, name: string, ips: set<Prefix>)
    requires Inv(s) && name in s.blocks.ips
    ensures Grown(s, SetIps(s, name, ips), GroupName(Addr, name))
  {
    hide Linked, Grounded, Lifecycle, PoliciesSound, Confirmed, Housed, Orderly, Moves, NewlyStale;
    SteadySame(s, SetIps(s, name, ips));
    SetIpsSafe(s, name, ips);
    SetIpsOrderly(s, name, ips);
    SetIpsStale(s, name, ips);
  }

  /** Dropping a group no policy names: into garbage, or for good if nothing was asked of the cloud. */
  ghost predicate MayUnfile(s: State, g: Ref, state: GroupState) {
    && g in s.groups && s.groups[g].state != Garbage && !s.groups[g].id.IpBlocks()
    && Namers(s.policies, s.groups[g].id.Group()) == {}
    && (s.groups[g].id in s.index ==> s.index[s.groups[g].id] == g)
    && (state == Garbage || (state == Init == s.groups[g].state && s.groups[g].status != InProgress))
  }

  lemma Unreferenced(s: State, id: Id)
    requires PoliciesSound(s.index, s.past.acked, s.policies) && Namers(s.policies, id.Group()) == {}
    ensures forall p :: p in s.policies ==> id !in s.policies[p].refs
  {
    forall p | p in s.policies ensures id !in s.policies[p].refs {
      assert p !in Namers(s.policies, id.Group());
      assert PolicySound(s.index, s.past.acked, s.policies[p]);
    }
  }

  lemma UnfileLinked(s: State, g: Ref, state: GroupState)
    requires Linked(s) && Grounded(s) && MayUnfile(s, g, state)
    ensures Linked(Unfile(s, g, state)) && Grounded(Unfile(s, g, state))
  {
    hide Proper, Namers;
  }

  lemma UnfileLifecycle(s: State, g: Ref, state: GroupState)
    requires MayUnfile(s, g, state) && Linked(s) && Linked(Unfile(s, g, state)) && Lifecycle(s)
    ensures Lifecycle(Unfile(s, g, state))
  {
    hide Proper, Namers;
  }

  lemma UnfileSafe(s: State, g: Ref, state: GroupState)
    requires Safe(s) && MayUnfile(s, g, state)
    ensures Safe(Unfile(s, g, state))
  {
    UnfileLinked(s, g, state);
    UnfileLifecycle(s, g, state);
    Unreferenced(s, s.groups[g].id);
    hide Counted, Recorded, Traced, Linked, Grounded, Lifecycle, LastRun, Namers;
  }

  lemma UnfileStrays(s: State, g: Ref, state: GroupState)
    requires Linked(s) && !s.past.overlapped && NoStrays(s) && OneCreate(s) && MayUnfile(s, g, state)
    requires Linked(Unfile(s, g, state))
    ensures NoStrays(Unfile(s, g, state))
  {
    hide Namers, Proper;
    forall r | r in s.groups && r != g ensures Stray(Unfile(s, g, state), r) <==> Stray(s, r) {}
    assert Stray(Unfile(s, g, state), g) <==> state != Garbage;
    hide Stray;
  }

  lemma UnfileCreates(s: State, g: Ref, state: GroupState)
    requires Linked(s) && OneCreate(s) && MayUnfile(s, g, state) && Linked(Unfile(s, g, state))
    ensures OneCreate(Unfile(s, g, state))
  {
    hide Namers;
  }

  lemma UnfileOrderly(s: State, g: Ref, state: GroupState)
    requires Linked(s) && Orderly(s) && MayUnfile(s, g, state) && Linked(Unfile(s, g, state))
    requires forall p :: p in s.policies ==> s.groups[g].id !in s.policies[p].refs
    ensures Orderly(Unfile(s, g, state))
  {
    hide NoStrays, OneCreate, Namers;
    if !s.past.overlapped {
      UnfileStrays(s, g, state);
      UnfileCreates(s, g, state);
    }
  }

  /** Only the group's own retry is affected, and that is over. */
  lemma UnfilePatient(s: State, g: Ref, state: GroupState)
    requires Linked(s) && Orderly(s) && MayUnfile(s, g, state)
    ensures Patient(s, Unfile(s, g, state))
  {
    var t := Unfile(s, g, state);
    if !s.past.overlapped {
      forall r | Stranded(s, r) && r != g ensures s.groups[r].id != s.groups[g].id {
        StrandedFiled(s, r);
      }
    }
    hide Awaited, Quiet, Linked, Orderly, Namers;
    StillPatient(s, t);
  }

  lemma UnfileMoves(s: State, g: Ref, state: GroupState)
    requires Linked(s) && Orderly(s) && MayUnfile(s, g, state)
    ensures Moves(s, Unfile(s, g, state))
  {
    UnfilePatient(s, g, state);
    hide Patient, Orderly;
  }

  lemma UnfileStale(s: State, g: Ref, state: GroupState)
    requires MayUnfile(s, g, state)
    ensures Stale(Unfile(s, g, state).index, s.blocks, s.policies) == Stale(s.index, s.blocks, s.policies)
  {
    var id, index := s.groups[g].id, Unfile(s, g, state).index;
    forall p | p in s.policies
      ensures p in Stale(index, s.blocks, s.policies) <==> p in Stale(s.index, s.blocks, s.policies)
    {
      assert p !in Namers(s.policies, id.Group());
      Irrelevant(s.index, index, s.policies[p], id);
    }
  }

  lemma UnfileEvolves(s: State, g: Ref, state: GroupState)
    requires Linked(s) && Orderly(s) && MayUnfile(s, g, state)
    ensures Evolves(s, Unfile(s, g, state))
  {
    UnfileMoves(s, g, state);
    UnfileStale(s, g, state);
    hide Moves, Stale;
  }

  lemma UnfileSteady(s: State, g: Ref, state: GroupState)
    requires Linked(s) && MayUnfile(s, g, state)
    ensures Steady(s, Unfile(s, g, state), {s.groups[g].id.Group()})
    ensures !Stable(s, s.groups[g].id) ==> Steady(s, Unfile(s, g, state), {})
  {
    ShelfKept(s, Unfile(s, g, state));
    hide Namers, Proper, SameShelf;
  }

  /** All but the first Delete that is due once an object is garbage. */
  lemma UnfileSound(s: State, g: Ref, state: GroupState)
    requires Inv(s) && MayUnfile(s, g, state)
    ensures Safe(Unfile(s, g, state)) && Orderly(Unfile(s, g, state)) && Evolves(s, Unfile(s, g, state))
    ensures Steady(s, Unfile(s, g, state), {s.groups[g].id.Group()})
    ensures !Stable(s, s.groups[g].id) ==> Steady(s, Unfile(s, g, state), {})
  {
    UnfileSteady(s, g, state);
    hide Linked, Grounded, Lifecycle, PoliciesSound, Confirmed, Housed, Orderly, Evolves;
    UnfileSafe(s, g, state);
    Unreferenced(s, s.groups[g].id);
    UnfileOrderly(s, g, state);
    UnfileEvolves(s, g, state);
  }

  lemma UnfileStirs(s: State, g: Ref)
    requires Inv(s) && MayUnfile(s, g, Init)
    ensures Stirred(s, Unfile(s, g, Init), {s.groups[g].id.Group()})
    ensures !Stable(s, s.groups[g].id) ==> Kept(s, Unfile(s, g, Init))
  {
    UnfileSound(s, g, Init);
    CondemnedStays(s, Unfile(s, g, Init));
    hide Safe, Orderly, Evolves, Condemned, Steady, Stable;
  }

  lemma LoseSound(s: State, id: Id)
    requires PoliciesSound(s.index, s.past.acked, s.policies) && id.IpBlocks()
    ensures PoliciesSound(s.index - {id}, s.past.acked, Lose(s.policies, s.blocks.ips, id.name))
  {
    var policies := Lose(s.policies, s.blocks.ips, id.name);
    forall p | p in policies ensures PolicySound(s.index - {id}, s.past.acked, policies[p]) {
      assert PolicySound(s.index, s.past.acked, s.policies[p]);
    }
  }

  lemma EraseSafe(s: State, id: Id)
    requires Safe(s) && id.IpBlocks()
    ensures Safe(Erase(s, id))
  {
    LoseSound(s, id);
    hide Counted, Budgeted, Recorded, Traced, PoliciesSound, Lose;
  }

  lemma EraseOrderly(s: State, id: Id)
    requires Linked(s) && Grounded(s) && PoliciesSound(s.index, s.past.acked, s.policies) && Orderly(s)
    requires id.IpBlocks() && Linked(Erase(s, id))
    ensures Orderly(Erase(s, id))
  {
    hide Proper, RemoteAddressGroups;
    if !s.past.overlapped {
      EraseStrays(s, id);
      hide NoStrays;
    }
  }

  lemma EraseStrays(s: State, id: Id)
    requires Linked(s) && Grounded(s) && NoStrays(s) && id.IpBlocks() && Linked(Erase(s, id))
    ensures NoStrays(Erase(s, id))
  {
    hide Proper, Lose;
    forall r | r in s.groups && !s.groups[r].id.IpBlocks() ensures Stray(Erase(s, id), r) <==> Stray(s, r) {}
    forall r | r in s.groups && Stray(s, r) ensures Stray(Erase(s, id), r) {}
    hide Stray;
  }

  lemma LoseSameNames(policies: map<string, Policy>, ips: map<string, set<Prefix>>, name: string)
    ensures SameNames(policies, Lose(policies, ips, name))
    ensures forall g :: Namers(Lose(policies, ips, name), g) == Namers(policies, g)
  {
    forall g ensures Namers(Lose(policies, ips, name), g) == Namers(policies, g) {}
  }

  /** Nobody loses an IP-block group that is not there, or that no policy names. */
  lemma LoseNone(s: State, id: Id)
    requires Inv(s) && id.IpBlocks() && (id !in s.index || Namers(s.policies, id.Group()) == {})
    ensures Lose(s.policies, s.blocks.ips, id.name) == s.policies
  {
    HousedAt(s, id.name);
    assert PoliciesSound(s.index, s.past.acked, s.policies);
    hide Inv;
    forall p | p in s.policies && id in s.index ensures id.name !in s.policies[p].ips {
      assert PolicySound(s.index, s.past.acked, s.policies[p]) && p !in Namers(s.policies, id.Group());
      RemoteNamed(s.policies[p].rules);
    }
  }

  lemma EraseEvolves(s: State, id: Id)
    requires id.IpBlocks()
    ensures Evolves(s, Erase(s, id))
  {
    EraseStale(s, id);
    LoseSameNames(s.policies, s.blocks.ips, id.name);
    SamePatient(s, Erase(s, id));
    hide Stale, Patient, Lose, Namers;
  }

  lemma ErasedIps(ips: map<string, set<Prefix>>, rules: seq<PolicyRule>, name: string)
    ensures ResolvedIps(ips - {name}, rules) == ResolvedIps(ips, rules) - {name}
  {
  }

  /** Leaving aside what it has lost, a policy has the addresses it is owed if it had them before. */
  lemma LostIps(a: map<Id, Ref>, b: map<Id, Ref>, ips: map<string, set<Prefix>>, p: Policy, q: Policy, name: string)
    requires q == if name in ips && name in p.ips then p.(lost := p.lost + {name}) else p
    requires AllKnown(b, p.rules) ==> AllKnown(a, p.rules)
    ensures StaleIps(b, ips - {name}, q) ==> StaleIps(a, ips, p)
  {
    ErasedIps(ips, p.rules, name);
    hide AllKnown, ResolvedIps;
    if name !in ips {
      assert ips - {name} == ips;
    } else if !StaleIps(a, ips, p) {
      assert Within(q.ips - q.lost, ResolvedIps(ips, p.rules) - {name});
      if q.lost == {} && AllKnown(b, p.rules) {
        assert ResolvedIps(ips, p.rules) - {name} == ResolvedIps(ips, p.rules);
      }
    }
  }

  lemma EraseStale(s: State, id: Id)
    requires id.IpBlocks()
    ensures Stale(Erase(s, id).index, Erase(s, id).blocks, Erase(s, id).policies) <=
              Stale(s.index, s.blocks, s.policies)
  {
    var t := Erase(s, id);
    forall g ensures Members(t.index, g) <= Members(s.index, g) {}
    forall p | p in s.policies
      ensures Resolved(t.index, s.policies[p].rules) == Resolved(s.index, s.policies[p].rules)
    {}
    forall p | p in s.policies
      ensures AllKnown(t.index, s.policies[p].rules) ==> AllKnown(s.index, s.policies[p].rules)
    {}
    hide AllKnown, Resolved, ResolvedIps, StaleIps;
    forall p | p in Stale(t.index, t.blocks, t.policies) ensures p in Stale(s.index, s.blocks, s.policies) {
      LostIps(s.index, t.index, s.blocks.ips, s.policies[p], t.policies[p], id.name);
    }
  }

  lemma EraseSteady(s: State, id: Id)
    requires id.IpBlocks()
    ensures Steady(s, Erase(s, id), {id.Group()}) && (!Stable(s, id) ==> Steady(s, Erase(s, id), {}))
  {
    hide Lose;
  }

  lemma EraseKeeps(s: State, id: Id)
    requires Inv(s) && id.IpBlocks()
    ensures Stirred(s, Erase(s, id), {id.Group()}) && (!Stable(s, id) ==> Kept(s, Erase(s, id)))
  {
    EraseSteady(s, id);
    hide Steady, Stable;
    hide Linked, Grounded, Lifecycle, PoliciesSound, Confirmed, Housed, Orderly, Evolves;
    EraseSafe(s, id);
    EraseOrderly(s, id);
    EraseEvolves(s, id);
  }

  // ---------------------------------------------------------------- queues

  /** An item is within budget, and its count is that of the record. */
  ghost predicate InRecord(s: State, key: QueueKey, item: RetryItem) {
    InBudget(item) && (item.runs > 0 ==> LastRun(s.past.ran, key) == item.runs)
  }

  ghost predicate MayQueue(s: State, item: RetryItem) {
    && item.SgItem? && item.ref in s.groups && !s.groups[item.ref].id.IpBlocks()
    && SgKey(s.groups[item.ref].id) !in s.retryQueue
    && (!s.past.overlapped ==> !Stray(s, item.ref))
    && InRecord(s, SgKey(s.groups[item.ref].id), item)
  }

  lemma EnqueueSafe(s: State, item: RetryItem)
    requires Safe(s) && MayQueue(s, item)
    ensures Safe(Enqueue(s, item))
  {
    hide PoliciesSound, Confirmed, Counted, Recorded, Traced, LastRun;
  }

  lemma EnqueueOrderly(s: State, item: RetryItem)
    requires Linked(s) && Orderly(s) && MayQueue(s, item) && Linked(Enqueue(s, item))
    ensures Orderly(Enqueue(s, item)) && Evolves(s, Enqueue(s, item))
  {
    EnqueuePatient(s, item);
    hide Orphans, Stale, Patient;
  }

  lemma EnqueuePatient(s: State, item: RetryItem)
    requires MayQueue(s, item)
    ensures Patient(s, Enqueue(s, item))
  {
    hide Awaited, Quiet, InRecord, Stray;
    StillPatient(s, Enqueue(s, item));
  }

  lemma EnqueueKeeps(s: State, item: RetryItem)
    requires Inv(s) && MayQueue(s, item)
    ensures Kept(s, Enqueue(s, item))
  {
    SteadySame(s, Enqueue(s, item));
    hide Linked, Grounded, Lifecycle, PoliciesSound, Confirmed, Housed, Orderly, Evolves, Steady;
    EnqueueSafe(s, item);
    EnqueueOrderly(s, item);
  }

  /** A recorded run, and the item that stays or leaves. */
  ghost predicate MayConclude(s: State, run: Ran, panics: bool, item: Option<RetryItem>) {
    && MayRecord(s.past.ran, run) && (panics <==> Fatal(run))
    && (item.Some? ==>
          && InBudget(item.value) && item.value.runs == run.nth
          && match run.key
             case SgKey(id) =>
               && item.value.SgItem? && item.value.ref in s.groups && s.groups[item.value.ref].id == id
               && !id.IpBlocks() && (!s.past.overlapped ==> !Stray(s, item.value.ref))
             case GroupKey(_) => item.value.GroupItem? && Proper(item.value.pending))
  }

  lemma ConcludeLinked(s: State, run: Ran, panics: bool, item: Option<RetryItem>)
    requires Linked(s) && Grounded(s) && MayConclude(s, run, panics, item)
    ensures Linked(Conclude(s, run, panics, item)) && Grounded(Conclude(s, run, panics, item))
  {
    hide MayRecord, Fatal, InBudget, Proper, Stray;
  }

  /** The life of objects is no matter of the retry queue. */
  lemma QueueIrrelevant(s: State, t: State)
    requires Linked(s) && Linked(t) && Lifecycle(s) && t.groups == s.groups && t.index == s.index
    requires t.inflight == s.inflight
    ensures Lifecycle(t)
  {
    hide Linked;
  }

  lemma ConcludeSafe(s: State, run: Ran, panics: bool, item: Option<RetryItem>)
    requires Safe(s) && MayConclude(s, run, panics, item)
    ensures Safe(Conclude(s, run, panics, item))
  {
    RecordedNext(s.past.ran, s.past.panicked, run);
    BudgetedNext(s.retryQueue, s.past.ran, run, item);
    ConcludeLinked(s, run, panics, item);
    hide Counted, Recorded, Traced, Budgeted, Housed, Linked, Grounded, Lifecycle, PoliciesSound, Confirmed;
    QueueIrrelevant(s, Conclude(s, run, panics, item));
  }

  lemma ConcludeOrderly(s: State, run: Ran, panics: bool, item: Option<RetryItem>)
    requires Linked(s) && Orderly(s) && MayConclude(s, run, panics, item) && Linked(Conclude(s, run, panics, item))
    ensures Orderly(Conclude(s, run, panics, item)) && Onward(s, Conclude(s, run, panics, item))
  {
    hide Orphans, Stale, MayRecord, Fatal;
  }

  /** All but that stranded retries stay stranded. */
  lemma ConcludeSound(s: State, run: Ran, panics: bool, item: Option<RetryItem>)
    requires Inv(s) && MayConclude(s, run, panics, item)
    ensures Inv(Conclude(s, run, panics, item)) && Onward(s, Conclude(s, run, panics, item))
  {
    hide Linked, Grounded, Lifecycle, PoliciesSound, Confirmed, Housed, Orderly, Onward, MayConclude;
    ConcludeSafe(s, run, panics, item);
    ConcludeOrderly(s, run, panics, item);
  }

  /** Items of other ids are not affected. */
  lemma ConcludeSpares(s: State, run: Ran, panics: bool, item: Option<RetryItem>, g: Ref)
    requires Stranded(s, g) && (run.key != SgKey(s.groups[g].id) || !Affords(s.retryQueue, s.groups[g].id, g))
    ensures Stranded(Conclude(s, run, panics, item), g)
  {
    hide Awaited, Quiet;
  }

  /** A run of a group event. */
  lemma ConcludeKeeps(s: State, run: Ran, panics: bool, item: Option<RetryItem>)
    requires Inv(s) && MayConclude(s, run, panics, item) && run.key.GroupKey?
    ensures Stirred(s, Conclude(s, run, panics, item), {run.key.group})
  {
    var t := Conclude(s, run, panics, item);
    forall g | Stranded(s, g) ensures Stranded(t, g) {
      ConcludeSpares(s, run, panics, item, g);
    }
    StillPatient(s, t);
    OnwardEvolves(s, t);
    SteadyBut(s, t, {run.key.group});
    hide Inv, Onward, Patient, Evolves, MayConclude, Steady;
    ConcludeSound(s, run, panics, item);
  }

  lemma DequeueSafe(s: State, key: QueueKey)
    requires Safe(s)
    ensures Safe(Dequeue(s, key))
  {
    hide PoliciesSound, Confirmed, Counted, Recorded, Traced;
  }

  /** An item may leave the queue when its budget is spent. */
  predicate MayDequeue(s: State, key: QueueKey) {
    key.SgKey? && key in s.retryQueue ==> s.retryQueue[key].opCnt <= 0
  }

  lemma DequeuePatient(s: State, key: QueueKey)
    requires MayDequeue(s, key)
    ensures Patient(s, Dequeue(s, key))
  {
    hide Awaited, Quiet;
    StillPatient(s, Dequeue(s, key));
  }

  lemma DequeueOrderly(s: State, key: QueueKey)
    requires Linked(s) && Orderly(s) && Linked(Dequeue(s, key)) && MayDequeue(s, key)
    ensures Orderly(Dequeue(s, key)) && Evolves(s, Dequeue(s, key))
  {
    DequeuePatient(s, key);
    hide Orphans, Stale, Patient;
  }

  lemma DequeueKeeps(s: State, key: QueueKey)
    requires Inv(s) && MayDequeue(s, key)
    ensures Kept(s, Dequeue(s, key))
  {
    SteadySame(s, Dequeue(s, key));
    hide Linked, Grounded, Lifecycle, PoliciesSound, Confirmed, Housed, Orderly, Evolves, Steady;
    DequeueSafe(s, key);
    DequeueOrderly(s, key);
  }

  /** Neither pending-delete entries nor the progress of synchronization bear on objects, policies and requests. */
  lemma ReshelvedOrderly(s: State, t: State)
    requires Linked(s) && Linked(t) && Orderly(s)
    requires t == s.(pendingDelete := t.pendingDelete, synced := t.synced, bookmarks := t.bookmarks)
    ensures Orderly(t) && Evolves(s, t)
  {
    SamePatient(s, t);
    hide Linked, Orphans, Stale, Patient;
  }

  lemma ExpectCounted(pendingDelete: map<GroupName, PendingGroup>, inflight: seq<Call>, name: GroupName)
    requires Counted(pendingDelete, inflight) && name !in pendingDelete
    ensures Counted(pendingDelete[name := PENDING_DELETE], inflight)
  {
    forall g ensures RefCnt(pendingDelete[name := PENDING_DELETE], g) == CountDeletes(inflight, g) {
      assert RefCnt(pendingDelete, g) == CountDeletes(inflight, g);
    }
  }

  lemma ExpectSafe(s: State, name: GroupName)
    requires Safe(s)
    ensures Safe(Expect(s, name))
  {
    hide PoliciesSound, Confirmed, Counted, Budgeted, Recorded, Traced;
    if name !in s.pendingDelete {
      ExpectCounted(s.pendingDelete, s.inflight, name);
    }
  }

  lemma ExpectOrderly(s: State, name: GroupName)
    requires Linked(s) && Orderly(s) && Linked(Expect(s, name))
    ensures Orderly(Expect(s, name)) && Evolves(s, Expect(s, name))
  {
    ReshelvedOrderly(s, Expect(s, name));
  }

  lemma ExpectSteady(s: State, name: GroupName)
    ensures Steady(s, Expect(s, name), {})
  {
    forall n ensures SameShelf(s, Expect(s, name), n) {}
    SteadySame(s, Expect(s, name));
  }

  lemma ExpectKeeps(s: State, name: GroupName)
    requires Inv(s)
    ensures Kept(s, Expect(s, name))
  {
    ExpectSteady(s, name);
    hide Linked, Grounded, Lifecycle, PoliciesSound, Confirmed, Housed, Orderly, Evolves, Steady;
    ExpectSafe(s, name);
    ExpectOrderly(s, name);
  }

  /** An entry without Deletes in flight may go. */
  function Forget(s: State, name: GroupName): State {
    s.(pendingDelete := s.pendingDelete - {name})
  }

  lemma ForgetCounted(pendingDelete: map<GroupName, PendingGroup>, inflight: seq<Call>, name: GroupName)
    requires Counted(pendingDelete, inflight) && RefCnt(pendingDelete, name) <= 0
    ensures Counted(pendingDelete - {name}, inflight)
  {
    forall g ensures RefCnt(pendingDelete - {name}, g) == CountDeletes(inflight, g) {
      assert RefCnt(pendingDelete, g) == CountDeletes(inflight, g);
    }
  }

  lemma ForgetSafe(s: State, name: GroupName)
    requires Safe(s) && RefCnt(s.pendingDelete, name) <= 0
    ensures Safe(Forget(s, name))
  {
    hide PoliciesSound, Confirmed, Counted, Budgeted, Recorded, Traced;
    ForgetCounted(s.pendingDelete, s.inflight, name);
  }

  lemma ForgetOrderly(s: State, name: GroupName)
    requires Linked(s) && Orderly(s) && RefCnt(s.pendingDelete, name) <= 0 && Linked(Forget(s, name))
    ensures Orderly(Forget(s, name)) && Evolves(s, Forget(s, name))
  {
    ReshelvedOrderly(s, Forget(s, name));
  }

  lemma ForgetKeeps(s: State, name: GroupName)
    requires Inv(s) && RefCnt(s.pendingDelete, name) <= 0
    ensures Stirred(s, Forget(s, name), {name})
  {
    SteadyBut(s, Forget(s, name), {name});
    hide Linked, Grounded, Lifecycle, PoliciesSound, Confirmed, Housed, Orderly, Evolves, Steady;
    ForgetSafe(s, name);
    ForgetOrderly(s, name);
  }

  /** A group event is folded into the pending-delete entry of its group. */
  function Buffer(s: State, name: GroupName, e: GroupEvent): State
    requires name in s.pendingDelete
  {
    s.(pendingDelete := s.pendingDelete[name := Coalesce(s.pendingDelete[name], e)])
  }

  lemma BufferCounted(pendingDelete: map<GroupName, PendingGroup>, inflight: seq<Call>, name: GroupName,
                      p: PendingGroup)
    requires Counted(pendingDelete, inflight) && name in pendingDelete && p.refCnt == pendingDelete[name].refCnt
    ensures Counted(pendingDelete[name := p], inflight)
  {
    forall g ensures RefCnt(pendingDelete[name := p], g) == CountDeletes(inflight, g) {
      assert RefCnt(pendingDelete, g) == CountDeletes(inflight, g);
    }
  }

  lemma BufferSafe(s: State, name: GroupName, e: GroupEvent)
    requires Safe(s) && name in s.pendingDelete && e.kind != Bookmark
    ensures Safe(Buffer(s, name, e))
  {
    hide PoliciesSound, Confirmed, Counted, Budgeted, Recorded, Traced;
    CoalesceProper(s.pendingDelete[name], e);
    BufferCounted(s.pendingDelete, s.inflight, name, Coalesce(s.pendingDelete[name], e));
  }

  lemma BufferOrderly(s: State, name: GroupName, e: GroupEvent)
    requires Linked(s) && Orderly(s) && name in s.pendingDelete && Linked(Buffer(s, name, e))
    ensures Orderly(Buffer(s, name, e)) && Evolves(s, Buffer(s, name, e))
  {
    ReshelvedOrderly(s, Buffer(s, name, e));
  }

  lemma BufferKeeps(s: State, name: GroupName, e: GroupEvent)
    requires Inv(s) && name in s.pendingDelete && e.kind != Bookmark
    ensures Stirred(s, Buffer(s, name, e), {name})
  {
    SteadyBut(s, Buffer(s, name, e), {name});
    hide Linked, Grounded, Lifecycle, PoliciesSound, Confirmed, Housed, Orderly, Evolves, Steady;
    BufferSafe(s, name, e);
    BufferOrderly(s, name, e);
  }

  /** An unresolved group event waits in the retry queue. */
  function QueueGroup(s: State, name: GroupName, item: RetryItem): State {
    s.(retryQueue := s.retryQueue[GroupKey(name) := item])
  }

  ghost predicate MayQueueGroup(s: State, name: GroupName, item: RetryItem) {
    item.GroupItem? && Proper(item.pending) && InRecord(s, GroupKey(name), item)
  }

  lemma QueueGroupSafe(s: State, name: GroupName, item: RetryItem)
    requires Safe(s) && MayQueueGroup(s, name, item)
    ensures Safe(QueueGroup(s, name, item))
  {
    hide PoliciesSound, Confirmed, Counted, Recorded, Traced, LastRun;
  }

  lemma QueueGroupOrderly(s: State, name: GroupName, item: RetryItem)
    requires Linked(s) && Orderly(s) && MayQueueGroup(s, name, item) && Linked(QueueGroup(s, name, item))
    ensures Orderly(QueueGroup(s, name, item)) && Evolves(s, QueueGroup(s, name, item))
  {
    QueueGroupPatient(s, name, item);
    hide Orphans, Stale, Patient;
  }

  lemma QueueGroupPatient(s: State, name: GroupName, item: RetryItem)
    ensures Patient(s, QueueGroup(s, name, item))
  {
    hide Awaited, Quiet;
    StillPatient(s, QueueGroup(s, name, item));
  }

  lemma QueueGroupKeeps(s: State, name: GroupName, item: RetryItem)
    requires Inv(s) && MayQueueGroup(s, name, item)
    ensures Stirred(s, QueueGroup(s, name, item), {name})
  {
    SteadyBut(s, QueueGroup(s, name, item), {name});
    hide Linked, Grounded, Lifecycle, PoliciesSound, Confirmed, Housed, Orderly, Evolves, MayQueueGroup, Steady;
    QueueGroupSafe(s, name, item);
    QueueGroupOrderly(s, name, item);
  }

  // ---------------------------------------------------------------- requests and answers

  /** The record a request leaves. */
  function Issued(s: State, g: Ref, what: CallKind, retried: Option<Op>): Issue
    requires g in s.groups
  {
    Emit(s, g, what, retried).past.trace[|s.past.trace|]
  }

  /** Issuing anything but a Delete. */
  ghost predicate MayEmit(s: State, g: Ref, what: CallKind, retried: Option<Op>) {
    && g in s.groups && !what.DeleteCall? && !s.groups[g].id.IpBlocks()
    && (!s.past.overlapped ==> !Stray(s, g))
    && (s.groups[g].state == Init ==> what.CreateCall? && s.groups[g].status == InProgress)
    && (what.RulesCall? ==> s.groups[g].id.kind == AppliedTo)
    && Lawful(Issued(s, g, what, retried))
  }

  lemma EmitCounted(s: State, c: Call)
    requires Counted(s.pendingDelete, s.inflight) && !c.what.DeleteCall?
    ensures Counted(s.pendingDelete, s.inflight + [c])
  {
    forall n ensures RefCnt(s.pendingDelete, n) == CountDeletes(s.inflight + [c], n) {
      CountAppend(s.inflight, c, n);
    }
  }

  lemma EmitSafe(s: State, g: Ref, what: CallKind, retried: Option<Op>)
    requires Safe(s) && MayEmit(s, g, what, retried)
    ensures Safe(Emit(s, g, what, retried))
  {
    hide PoliciesSound, Confirmed, Counted, Budgeted, Recorded, Traced;
    EmitCounted(s, Call(g, s.groups[g].id, what));
    TracedNext(s.past.trace, Issued(s, g, what, retried));
  }

  lemma EmitOrderly(s: State, g: Ref, what: CallKind, retried: Option<Op>)
    requires Linked(s) && Orderly(s) && MayEmit(s, g, what, retried) && Linked(Emit(s, g, what, retried))
    ensures Orderly(Emit(s, g, what, retried))
  {
    hide Namers, ReadyIds;
  }

  /** A request for one group carries no answer for another, and garbage only waits for Deletes. */
  lemma EmitSpares(s: State, g: Ref, what: CallKind, retried: Option<Op>, r: Ref)
    requires Stranded(s, r) && g in s.groups && g != r
    requires s.groups[g].id != s.groups[r].id || (what.DeleteCall? && s.groups[r].retryOp != Some(DeleteOp))
    ensures Stays(s, Emit(s, g, what, retried), r)
  {
    hide Namers, ReadyIds, CreateInFlight;
    var t := Emit(s, g, what, retried);
    assert t.inflight[|s.inflight|] == Call(g, s.groups[g].id, what);
    forall i | 0 <= i < |s.inflight| ensures t.inflight[i] == s.inflight[i] {}
  }

  lemma EmitPatient(s: State, g: Ref, what: CallKind, retried: Option<Op>)
    requires Linked(s) && Orderly(s) && MayEmit(s, g, what, retried)
    ensures Patient(s, Emit(s, g, what, retried))
  {
    var t := Emit(s, g, what, retried);
    if !t.past.overlapped {
      forall r | Stranded(s, r) ensures Stays(s, t, r) {
        StrandedFiled(s, r);
        EmitSpares(s, g, what, retried, r);
      }
    }
  }

  lemma EmitEvolves(s: State, g: Ref, what: CallKind, retried: Option<Op>)
    requires Linked(s) && Orderly(s) && MayEmit(s, g, what, retried)
    ensures Evolves(s, Emit(s, g, what, retried))
  {
    EmitPatient(s, g, what, retried);
    hide Orphans, Stale, ReadyIds, CreateInFlight, Patient, Linked, Orderly;
  }

  lemma EmitKeeps(s: State, g: Ref, what: CallKind, retried: Option<Op>)
    requires Inv(s) && MayEmit(s, g, what, retried)
    ensures Kept(s, Emit(s, g, what, retried))
  {
    CondemnedStays(s, Emit(s, g, what, retried));
    SteadySame(s, Emit(s, g, what, retried));
    hide Linked, Grounded, Lifecycle, PoliciesSound, Confirmed, Housed, Orderly, Evolves, Condemned, Steady;
    EmitSafe(s, g, what, retried);
    EmitOrderly(s, g, what, retried);
    EmitEvolves(s, g, what, retried);
  }

  /** Deleting garbage: it has been deleted before, or no policy names it. */
  ghost predicate MayDelete(s: State, g: Ref, retried: Option<Op>) {
    && g in s.groups && s.groups[g].state == Garbage && s.groups[g].retryOp.None? && !s.groups[g].id.IpBlocks()
    && s.groups[g].id.Group() in s.pendingDelete
    && (retried.Some? ==> retried.value == DeleteOp)
    && (WasDeleted(s.past.trace, g) || Namers(s.policies, s.groups[g].id.Group()) == {})
  }

  lemma DeleteCounted(s: State, c: Call)
    requires Counted(s.pendingDelete, s.inflight) && c.what.DeleteCall? && c.id.Group() in s.pendingDelete
    ensures Counted(CountUp(s, c.id.Group()).pendingDelete, s.inflight + [c])
  {
    forall n ensures RefCnt(CountUp(s, c.id.Group()).pendingDelete, n) == CountDeletes(s.inflight + [c], n) {
      CountAppend(s.inflight, c, n);
      assert RefCnt(s.pendingDelete, n) == CountDeletes(s.inflight, n);
    }
  }

  lemma EmitDeleteSafe(s: State, g: Ref, retried: Option<Op>)
    requires Safe(s) && MayDelete(s, g, retried)
    ensures Safe(EmitDelete(s, g, retried))
  {
    hide PoliciesSound, Confirmed, Counted, Budgeted, Recorded, Traced;
    DeleteCounted(s, Call(g, s.groups[g].id, DeleteCall));
    DeleteTraced(s, g, retried);
    DeleteLinked(s, g, retried);
    hide Linked, Grounded, Namers, ReadyIds;
  }

  lemma DeleteLinked(s: State, g: Ref, retried: Option<Op>)
    requires Linked(s) && Grounded(s) && MayDelete(s, g, retried)
    ensures Linked(EmitDelete(s, g, retried)) && Grounded(EmitDelete(s, g, retried))
  {
    hide Namers, ReadyIds, WasDeleted;
  }

  lemma DeleteTraced(s: State, g: Ref, retried: Option<Op>)
    requires Traced(s.past.trace) && MayDelete(s, g, retried)
    ensures Traced(EmitDelete(s, g, retried).past.trace)
  {
    hide Traced, ReadyIds;
    TracedNext(s.past.trace, Issued(CountUp(s, s.groups[g].id.Group()), g, DeleteCall, retried));
  }

  lemma EmitDeletePatient(s: State, g: Ref, retried: Option<Op>)
    requires Linked(s) && Lifecycle(s) && MayDelete(s, g, retried)
    ensures Patient(s, EmitDelete(s, g, retried))
  {
    var s1 := CountUp(s, s.groups[g].id.Group());
    forall r | Stranded(s, r) ensures Stays(s, EmitDelete(s, g, retried), r) {
      assert Stranded(s1, r);
      EmitSpares(s1, g, DeleteCall, retried, r);
    }
  }

  lemma EmitDeleteOrderly(s: State, g: Ref, retried: Option<Op>)
    requires Linked(s) && Orderly(s) && MayDelete(s, g, retried) && Linked(EmitDelete(s, g, retried))
    ensures Orderly(EmitDelete(s, g, retried))
  {
    hide Namers, ReadyIds, WasDeleted, Proper;
  }

  lemma EmitDeleteEvolves(s: State, g: Ref, retried: Option<Op>)
    requires Linked(s) && Lifecycle(s) && MayDelete(s, g, retried)
    ensures Evolves(s, EmitDelete(s, g, retried))
  {
    EmitDeletePatient(s, g, retried);
    hide Orphans, Stale, Patient, Lifecycle, Linked, ReadyIds, Namers;
  }

  lemma AnswerCounted(s: State, i: nat)
    requires Counted(s.pendingDelete, s.inflight) && i < |s.inflight| && !s.inflight[i].what.DeleteCall?
    ensures Counted(s.pendingDelete, Drop(s.inflight, i))
  {
    forall n ensures RefCnt(s.pendingDelete, n) == CountDeletes(Drop(s.inflight, i), n) {
      CountDrop(s.inflight, i, n);
    }
  }

  /** The answer to a request that is no Delete, and what it is reported as. */
  ghost predicate MayAnswer(s: State, i: nat, op: Op) {
    i < |s.inflight| && !s.inflight[i].what.DeleteCall? && Carries(s.inflight[i].what, op)
  }

  lemma AnswerSafe(s: State, i: nat, op: Op)
    requires Safe(s) && MayAnswer(s, i, op)
    ensures Safe(Answer(s, i, op))
  {
    hide PoliciesSound, Confirmed, Counted, Budgeted, Recorded, Traced;
    AnswerCounted(s, i);
  }

  lemma AnswerOrderly(s: State, i: nat, op: Op)
    requires Linked(s) && Orderly(s) && MayAnswer(s, i, op) && Linked(Answer(s, i, op))
    ensures Orderly(Answer(s, i, op)) && Onward(s, Answer(s, i, op))
  {
    hide Orphans, Stale;
  }

  lemma DropKeeps(s: State, t: State, i: nat, g: Ref)
    requires i < |s.inflight| && t.inflight == Drop(s.inflight, i) && Stranded(s, g)
    requires t.groups == s.groups && t.retryQueue == s.retryQueue
    requires || t.past.reporting == s.past.reporting
             || (exists op :: t.past.reporting == Some(Report(s.inflight[i].id, op)) && MayAnswer(s, i, op))
    ensures Stranded(t, g)
  {
    forall j | 0 <= j < |t.inflight| ensures t.inflight[j] == s.inflight[if j < i then j else j + 1] {}
  }

  lemma AnswerPatient(s: State, i: nat, op: Op)
    requires MayAnswer(s, i, op)
    ensures Patient(s, Answer(s, i, op))
  {
    forall g | Stranded(s, g) ensures Stranded(Answer(s, i, op), g) {
      DropKeeps(s, Answer(s, i, op), i, g);
    }
    hide Stranded;
    StillPatient(s, Answer(s, i, op));
  }

  /** Taking up the answer of a request begins. */
  lemma AnswerKeeps(s: State, i: nat, op: Op)
    requires Inv(s) && MayAnswer(s, i, op)
    ensures Inv(Answer(s, i, op)) && Onward(s, Answer(s, i, op)) && Patient(s, Answer(s, i, op))
    ensures Calm(s, Answer(s, i, op), {})
  {
    AnswerPatient(s, i, op);
    hide Linked, Grounded, Lifecycle, PoliciesSound, Confirmed, Housed, Orderly, Onward, Patient, MayAnswer;
    AnswerSafe(s, i, op);
    AnswerOrderly(s, i, op);
  }

  lemma AnswerLive(s: State, i: nat, op: Op, g: Ref)
    requires Live(s, g) && i < |s.inflight|
    ensures Live(Answer(s, i, op), g)
  {
  }

  lemma RestSafe(s: State)
    requires Safe(s)
    ensures Safe(Rest(s))
  {
    hide PoliciesSound, Confirmed, Counted, Budgeted, Recorded, Traced;
  }

  lemma RestOrderly(s: State)
    requires Linked(s) && Orderly(s) && Linked(Rest(s))
    ensures Orderly(Rest(s)) && Onward(s, Rest(s))
  {
    hide Linked, Orphans, Stale;
  }

  lemma RestPatient(s: State)
    ensures Patient(s, Rest(s))
  {
    StillPatient(s, Rest(s));
  }

  /** Taking up the answer of a request is a step like any other. */
  lemma AnsweredKeeps(s: State, i: nat, op: Op, t: State)
    requires Inv(s) && MayAnswer(s, i, op) && s.past.reporting.None? && Kept(Answer(s, i, op), t)
    ensures Carried(s, Rest(t)) && Calm(s, Rest(t), {}) && Drop(s.inflight, i) <= t.inflight
  {
    var s1 := Answer(s, i, op);
    AnsweredCalm(s, i, op, t);
    hide Linked, Grounded, Lifecycle, PoliciesSound, Confirmed, Housed, Orderly, Onward, Patient, MayAnswer, Evolves;
    AnswerKeeps(s, i, op);
    OnwardEvolves(s1, t);
    RestSafe(t);
    RestOrderly(t);
    RestPatient(t);
    OnwardTrans(s, s1, t);
    OnwardTrans(s, t, Rest(t));
    AnsweredPatient(s, s1, t);
    OnwardEvolves(s, Rest(t));
  }

  lemma AnsweredCalm(s: State, i: nat, op: Op, t: State)
    requires MayAnswer(s, i, op) && Kept(Answer(s, i, op), t)
    ensures Calm(s, Rest(t), {}) && Drop(s.inflight, i) <= t.inflight
  {
    hide Carried, Drop;
  }

  lemma AnsweredPatient(s: State, s1: State, t: State)
    requires Onward(s, s1) && Onward(s1, t) && Onward(t, Rest(t)) && Patient(s, s1) && Patient(s1, t)
    ensures Patient(s, Rest(t))
  {
    RestPatient(t);
    hide Patient, SameNames, Orphans, Stale;
    PatientTrans(s, s1, t);
    ProgressesTrans(s, s1, t);
    hide Progresses;
    PatientTrans(s, t, Rest(t));
  }

  lemma DownCounted(s: State, i: nat, runOnClear: bool)
    requires Counted(s.pendingDelete, s.inflight)
    requires i < |s.inflight| && s.inflight[i].what.DeleteCall? && s.inflight[i].id.Group() in s.pendingDelete
    ensures Counted(CountDown(s, i, runOnClear).pendingDelete, Drop(s.inflight, i))
  {
    forall n ensures RefCnt(CountDown(s, i, runOnClear).pendingDelete, n) == CountDeletes(Drop(s.inflight, i), n) {
      CountDrop(s.inflight, i, n);
      assert RefCnt(s.pendingDelete, n) == CountDeletes(s.inflight, n);
    }
  }

  /** A Delete in flight always has its entry. */
  lemma DeleteExpected(s: State, i: nat)
    requires Counted(s.pendingDelete, s.inflight) && i < |s.inflight| && s.inflight[i].what.DeleteCall?
    ensures s.inflight[i].id.Group() in s.pendingDelete && RefCnt(s.pendingDelete, s.inflight[i].id.Group()) > 0
  {
    var n := s.inflight[i].id.Group();
    CountDrop(s.inflight, i, n);
    assert RefCnt(s.pendingDelete, n) == CountDeletes(s.inflight, n);
  }

  lemma CountDownSafe(s: State, i: nat, runOnClear: bool)
    requires Safe(s) && i < |s.inflight| && s.inflight[i].what.DeleteCall?
    requires s.inflight[i].id.Group() in s.pendingDelete
    ensures Safe(CountDown(s, i, runOnClear))
  {
    hide PoliciesSound, Confirmed, Counted, Budgeted, Recorded, Traced;
    DownCounted(s, i, runOnClear);
  }

  lemma CountDownOrderly(s: State, i: nat, runOnClear: bool)
    requires Linked(s) && Orderly(s) && i < |s.inflight| && s.inflight[i].what.DeleteCall?
    requires s.inflight[i].id.Group() in s.pendingDelete && Linked(CountDown(s, i, runOnClear))
    ensures Orderly(CountDown(s, i, runOnClear)) && Evolves(s, CountDown(s, i, runOnClear))
  {
    CountDownPatient(s, i, runOnClear);
    hide Orphans, Stale, Patient;
  }

  lemma CountDownPatient(s: State, i: nat, runOnClear: bool)
    requires i < |s.inflight| && s.inflight[i].id.Group() in s.pendingDelete
    ensures Patient(s, CountDown(s, i, runOnClear))
  {
    var t := CountDown(s, i, runOnClear);
    forall g | Stranded(s, g) ensures Stranded(t, g) {
      DropKeeps(s, t, i, g);
    }
    hide Stranded;
    StillPatient(s, t);
  }

  lemma CountDownCalm(s: State, i: nat, runOnClear: bool)
    requires i < |s.inflight| && s.inflight[i].id.Group() in s.pendingDelete
    ensures Calm(s, CountDown(s, i, runOnClear), {})
  {
  }

  lemma CountDownKeeps(s: State, i: nat, runOnClear: bool)
    requires Inv(s) && i < |s.inflight| && s.inflight[i].what.DeleteCall? && s.inflight[i].id.Group() in s.pendingDelete
    ensures Carried(s, CountDown(s, i, runOnClear)) && Calm(s, CountDown(s, i, runOnClear), {})
  {
    CountDownCalm(s, i, runOnClear);
    hide Linked, Grounded, Lifecycle, PoliciesSound, Confirmed, Housed, Orderly, Evolves, Calm;
    CountDownSafe(s, i, runOnClear);
    CountDownOrderly(s, i, runOnClear);
  }

  // ---------------------------------------------------------------- policies

  ghost predicate MayHave(s: State, p: Policy)
    requires Linked(s)
  {
    && PolicySound(s.index, s.past.acked, p)
    && (!s.past.overlapped && p.ready ==> forall id :: id in p.refs ==> s.groups[s.index[id]].state == Created)
  }

  /** Policies may change at will as long as what they refer to is sound. */
  ghost predicate MayReplace(s: State, policies: map<string, Policy>)
    requires Linked(s)
  {
    forall p :: p in policies ==> (p in s.policies && policies[p] == s.policies[p]) || MayHave(s, policies[p])
  }

  lemma PoliciesSafe(s: State, policies: map<string, Policy>)
    requires Safe(s) && MayReplace(s, policies)
    ensures Safe(s.(policies := policies))
  {
    hide Counted, Budgeted, Recorded, Traced;
  }

  lemma PoliciesOrderly(s: State, policies: map<string, Policy>)
    requires Linked(s) && Orderly(s) && MayReplace(s, policies) && Linked(s.(policies := policies))
    ensures Orderly(s.(policies := policies))
  {
  }

  lemma PoliciesKeep(s: State, policies: map<string, Policy>)
    requires Inv(s) && MayReplace(s, policies)
    ensures Inv(s.(policies := policies))
    ensures Advances(s, s.(policies := policies))
    ensures SameNames(s.policies, policies) &&
              Stale(s.index, s.blocks, policies) <= Stale(s.index, s.blocks, s.policies) ==>
                  Evolves(s, s.(policies := policies))
  {
    hide Linked, Grounded, Lifecycle, PoliciesSound, Confirmed, Housed, Orderly, MayReplace, Stale, Patient;
    PoliciesSafe(s, policies);
    PoliciesOrderly(s, policies);
    SamePatient(s, s.(policies := policies));
    if SameNames(s.policies, policies) {
      forall g ensures Namers(policies, g) == Namers(s.policies, g) {}
    }
  }

  lemma PoliciesSteady(s: State, policies: map<string, Policy>)
    ensures Steady(s, s.(policies := policies), {})
  {
  }

  lemma RemoteNamed(rules: seq<PolicyRule>)
    ensures RemoteAddressGroups(rules) <= NamedAddressGroups(rules)
  {
    forall g | g in RemoteAddressGroups(rules) ensures g in NamedAddressGroups(rules) {
      var r :| r in rules && g in r.Remote().addressGroups;
      assert g in r.AddressGroups();
    }
  }

  /** rulesReady is only ever set when everything the rules refer to has been created. */
  lemma ReadySound(s: State, p: Policy)
    requires Inv(s) && PolicySound(s.index, s.past.acked, p.(ready := false)) && AllReady(s.index, s.groups, p.rules)
    ensures MayHave(s, p.(ready := true))
  {
    hide Grounded, Lifecycle, Counted, Budgeted, Traced, Orderly;
    forall id | id in p.refs ensures id in s.past.acked && s.groups[s.index[id]].state == Created {
      assert GroupReady(s.index, s.groups, GroupName(Addr, id.name));
      assert id in Members(s.index, GroupName(Addr, id.name));
    }
  }

  lemma ComputedSound(s: State, p: Policy)
    requires Inv(s)
    ensures MayHave(s, Computed(s, p))
  {
    hide Lifecycle, PoliciesSound, Confirmed, Orderly, AllReady, Produces;
    RemoteNamed(p.rules);
    if AllKnown(s.index, p.rules) {
      var q := Computed(s, p).(ready := false);
      if AllReady(s.index, s.groups, p.rules) {
        ReadySound(s, q);
      }
    }
  }

  lemma ComputedSame(s: State, p: Policy)
    ensures Computed(s, p).rules == p.rules && Computed(s, p).appliedTo == p.appliedTo
  {
  }

  lemma ComputedBare(s: State, policies: map<string, Policy>, p: Policy)
    ensures Computed(s.(policies := policies), p.Bare()) == Computed(s, p)
  {
  }

  lemma ComputedKeeps(s: State, p: string)
    requires Inv(s) && p in s.policies
    ensures Kept(s, s.(policies := s.policies[p := Computed(s, s.policies[p])]))
  {
    hide Evolves, Stale, Computed, Steady, PolicySound;
    ComputedSound(s, s.policies[p]);
    ComputedFresh(s, p);
    ComputedSame(s, s.policies[p]);
    hide Inv, MayHave;
    PoliciesSteady(s, s.policies[p := Computed(s, s.policies[p])]);
    PoliciesKeep(s, s.policies[p := Computed(s, s.policies[p])]);
  }

  /** Computed rules are about the groups there are. */
  lemma ComputedFresh(s: State, p: string)
    requires p in s.policies
    ensures Stale(s.index, s.blocks, s.policies[p := Computed(s, s.policies[p])]) ==
              Stale(s.index, s.blocks, s.policies) - {p}
  {
    hide AllKnown, Resolved, AllReady;
  }

  lemma PolicyIsSound(s: State, p: string)
    requires Inv(s) && p in s.policies
    ensures Linked(s) && MayHave(s, s.policies[p])
  {
    hide Grounded, Lifecycle, Counted, Budgeted, Recorded, Traced, Confirmed, Condemned, Housed;
    assert PolicySound(s.index, s.past.acked, s.policies[p]);
  }

  lemma ReadyKeeps(s: State, p: string)
    requires Inv(s) && p in s.policies && AllReady(s.index, s.groups, s.policies[p].rules)
    ensures Kept(s, s.(policies := s.policies[p := s.policies[p].(ready := true)]))
  {
    hide Inv, Evolves;
    PolicyIsSound(s, p);
    ReadySound(s, s.policies[p]);
    assert Stale(s.index, s.blocks, s.policies[p := s.policies[p].(ready := true)]) ==
        Stale(s.index, s.blocks, s.policies) by {
      hide AllKnown, Resolved, AllReady;
    }
    hide MayHave, Stale, Steady;
    PoliciesSteady(s, s.policies[p := s.policies[p].(ready := true)]);
    PoliciesKeep(s, s.policies[p := s.policies[p].(ready := true)]);
  }

  lemma RuleRefsSound(s: State, g: GroupName)
    requires Inv(s) && forall p :: p in Namers(s.policies, g) ==> s.policies[p].ready
    ensures RuleRefs(s.policies, g) <= s.past.acked
    ensures !s.past.overlapped ==> RuleRefs(s.policies, g) <= ReadyIds(s)
  {
    hide Counted, Budgeted, Recorded, Traced, Grounded, Lifecycle;
    forall id | id in RuleRefs(s.policies, g)
      ensures id in s.past.acked && (!s.past.overlapped ==> id in ReadyIds(s))
    {
      var p :| p in Namers(s.policies, g) && id in s.policies[p].refs;
      assert PolicySound(s.index, s.past.acked, s.policies[p]);
    }
  }

  // ---------------------------------------------------------------- operations

  lemma AddImplKeeps(s: State, g: Ref, retried: Option<Op>)
    requires Inv(s) && MayFile(s, g) && !s.groups[g].id.IpBlocks() && (retried.Some? ==> retried.value == CreateOp)
    ensures Grown(s, AddImpl(s, g, retried), s.groups[g].id.Group())
    ensures Harmless(s, g) ==> Stirred(s, AddImpl(s, g, retried), {s.groups[g].id.Group()})
    ensures s.past.overlapped || (s.groups[g].id in s.index && s.index[s.groups[g].id] == g) ==>
              Kept(s, AddImpl(s, g, retried))
  {
    hide Inv, Evolves, Moves, NewlyStale, Steady;
    FileGrows(s, g);
    CreateKeeps(File(s, g), g, retried);
    KeptGrown(File(s, g), AddImpl(s, g, retried), s.groups[g].id.Group());
    GrownTrans(s, File(s, g), AddImpl(s, g, retried), s.groups[g].id.Group());
    if Harmless(s, g) {
      FileStirs(s, g);
      KeptStirred(File(s, g), AddImpl(s, g, retried), {s.groups[g].id.Group()});
      StirredTrans(s, File(s, g), AddImpl(s, g, retried), {s.groups[g].id.Group()});
    }
    if s.past.overlapped || (s.groups[g].id in s.index && s.index[s.groups[g].id] == g) {
      KeptTrans(s, File(s, g), AddImpl(s, g, retried));
    }
  }

  lemma CreateKeeps(s1: State, g: Ref, retried: Option<Op>)
    requires Inv(s1) && g in s1.groups && s1.groups[g].id in s1.index && s1.index[s1.groups[g].id] == g
    requires !s1.groups[g].id.IpBlocks() && s1.groups[g].state != Garbage
    requires retried.Some? ==> retried.value == CreateOp
    ensures s1.synced && s1.groups[g].retryOp.None? ==> Kept(s1, IssueCreate(s1, g, retried))
    ensures Kept(s1, s1)
  {
    hide Inv, Evolves;
    KeptSelf(s1);
    if s1.synced && s1.groups[g].retryOp.None? {
      var o := s1.groups[g].(status := InProgress);
      PutKeeps(s1, g, o);
      EmitKeeps(Put(s1, g, o), g, CreateCall, retried);
      KeptTrans(s1, Put(s1, g, o), IssueCreate(s1, g, retried));
    }
  }

  /** A Delete is issued for an object that is garbage already, or has just become it. */
  lemma IssueDeleteSound(s: State, g: Ref, retried: Option<Op>)
    requires Safe(s) && Orderly(s) && MayDelete(s, g, retried)
    ensures Safe(IssueDelete(s, g, retried)) && Orderly(IssueDelete(s, g, retried))
    ensures Evolves(s, IssueDelete(s, g, retried))
  {
    hide Linked, Grounded, Lifecycle, PoliciesSound, Confirmed, Housed, Orderly, Evolves;
    var o := s.groups[g].(status := InProgress);
    PutSafe(s, g, o);
    PutOrderly(s, g, o);
    PutEvolves(s, g, o);
    EmitDeleteSafe(Put(s, g, o), g, retried);
    EmitDeleteOrderly(Put(s, g, o), g, retried);
    EmitDeleteEvolves(Put(s, g, o), g, retried);
    EvolvesTrans(s, Put(s, g, o), IssueDelete(s, g, retried));
  }

  lemma IssueDeleteKeeps(s: State, g: Ref, retried: Option<Op>)
    requires Inv(s) && MayDelete(s, g, retried)
    ensures Kept(s, IssueDelete(s, g, retried))
  {
    CondemnedStays(s, IssueDelete(s, g, retried));
    IssueDeleteSteady(s, g, retried);
    hide Safe, Orderly, Evolves, Condemned, Steady;
    IssueDeleteSound(s, g, retried);
  }

  lemma IssueDeleteSteady(s: State, g: Ref, retried: Option<Op>)
    requires g in s.groups && s.groups[g].id.Group() in s.pendingDelete
    ensures Steady(s, IssueDelete(s, g, retried), {})
  {
    hide Namers, ReadyIds;
  }

  /** Into garbage and deleted, in one move. */
  lemma CondemnKeeps(s: State, g: Ref, retried: Option<Op>)
    requires Inv(s) && MayUnfile(s, g, Garbage) && s.groups[g].id.Group() in s.pendingDelete
    requires retried.Some? ==> retried.value == DeleteOp
    ensures Stirred(s, IssueDelete(Unfile(s, g, Garbage), g, retried), {s.groups[g].id.Group()})
    ensures !Stable(s, s.groups[g].id) ==> Kept(s, IssueDelete(Unfile(s, g, Garbage), g, retried))
  {
    var s1 := Unfile(s, g, Garbage);
    DeleteCondemns(s, g, retried);
    UnfileSound(s, g, Garbage);
    CondemnSteady(s, g, retried);
    hide Safe, Orderly, Evolves, Condemned, Steady, Stable;
    IssueDeleteSound(s1, g, retried);
    EvolvesTrans(s, s1, IssueDelete(s1, g, retried));
  }

  lemma CondemnSteady(s: State, g: Ref, retried: Option<Op>)
    requires Linked(s) && MayUnfile(s, g, Garbage) && s.groups[g].id.Group() in s.pendingDelete
    ensures var t := IssueDelete(Unfile(s, g, Garbage), g, retried);
            Steady(s, t, {s.groups[g].id.Group()}) && (!Stable(s, s.groups[g].id) ==> Steady(s, t, {}))
  {
    var s1, but := Unfile(s, g, Garbage), {s.groups[g].id.Group()};
    UnfileSteady(s, g, Garbage);
    IssueDeleteSteady(s1, g, retried);
    hide Linked, Calm, Stable, Namers;
    CalmWider(s1, IssueDelete(s1, g, retried), {}, but);
    CalmTrans(s, s1, IssueDelete(s1, g, retried), but);
    if !Stable(s, s.groups[g].id) {
      CalmTrans(s, s1, IssueDelete(s1, g, retried), {});
    }
  }

  lemma DeleteCondemns(s: State, g: Ref, retried: Option<Op>)
    requires Condemned(s.groups, s.past.trace) && g in s.groups && s.groups[g].id.Group() in s.pendingDelete
    ensures var t := IssueDelete(Unfile(s, g, Garbage), g, retried); Condemned(t.groups, t.past.trace)
  {
    var t := IssueDelete(Unfile(s, g, Garbage), g, retried);
    assert IsDelete(t.past.trace[|s.past.trace|], g);
    forall r | r in t.groups && t.groups[r].state == Garbage ensures WasDeleted(t.past.trace, r) {
      if r != g {
        var i :| 0 <= i < |s.past.trace| && IsDelete(s.past.trace[i], r);
        assert IsDelete(t.past.trace[i], r);
      }
    }
  }

  /** Only the filed object, or one never filed, is ever deleted for the first time. */
  ghost predicate Deletable(s: State, g: Ref, retried: Option<Op>) {
    && g in s.groups && !s.groups[g].id.IpBlocks()
    && (s.groups[g].state != Garbage && s.groups[g].id in s.index ==> s.index[s.groups[g].id] == g)
    && (retried.Some? ==> retried.value == DeleteOp)
  }

  lemma ReleaseKeeps(s: State, g: Ref, retried: Option<Op>)
    requires Inv(s) && Deletable(s, g, retried) && s.groups[g].state != Garbage
    requires Namers(s.policies, s.groups[g].id.Group()) == {} && s.groups[g].id.Group() in s.pendingDelete
    ensures Stirred(s, Release(s, g, retried), {s.groups[g].id.Group()})
    ensures !Stable(s, s.groups[g].id) ==> Kept(s, Release(s, g, retried))
  {
    hide Inv, Stirred, Kept, Stable;
    if s.groups[g].state == Init && s.groups[g].status != InProgress {
      UnfileStirs(s, g);
    } else {
      CondemnKeeps(s, g, retried);
    }
  }

  lemma GarbageDeleted(s: State)
    requires Inv(s)
    ensures Condemned(s.groups, s.past.trace)
  {
    hide Safe, Orderly, Condemned;
  }

  /** Deleting a filed object concerns its group; deleting any other, or one marked already, no group. */
  lemma DeleteImplKeeps(s: State, g: Ref, retried: Option<Op>)
    requires Inv(s) && Deletable(s, g, retried)
    ensures Stirred(s, DeleteImpl(s, g, retried), {s.groups[g].id.Group()})
    ensures s.groups[g].state == Garbage || !Stable(s, s.groups[g].id) ==> Kept(s, DeleteImpl(s, g, retried))
  {
    hide Inv, Evolves, Release, IssueDelete, WasDeleted, Namers, Stray, Steady, Stable;
    var o, but := s.groups[g], {s.groups[g].id.Group()};
    GarbageDeleted(s);
    var s1 := Expect(s, o.id.Group());
    ExpectKeeps(s, o.id.Group());
    KeptStirred(s, s1, but);
    ExpectStable(s, o.id.Group(), o.id);
    if o.state == Garbage {
      if o.retryOp.None? {
        IssueDeleteKeeps(s1, g, retried);
        KeptTrans(s, s1, IssueDelete(s1, g, retried));
      }
      KeptStirred(s, DeleteImpl(s, g, retried), but);
    } else if Namers(s.policies, o.id.Group()) != {} {
      MarkedStirs(s1, g, o);
      StirredTrans(s, s1, Put(s1, g, o.(deletePending := true)), but);
      if !Stable(s, o.id) {
        KeptTrans(s, s1, Put(s1, g, o.(deletePending := true)));
      }
    } else {
      ReleaseKeeps(s1, g, retried);
      StirredTrans(s, s1, Release(s1, g, retried), but);
      if !Stable(s, o.id) {
        KeptTrans(s, s1, Release(s1, g, retried));
      }
    }
  }

  lemma ExpectStable(s: State, name: GroupName, id: Id)
    ensures Stable(Expect(s, name), id) <==> Stable(s, id)
  {
  }

  /** A deletion policies hold up. */
  lemma MarkedStirs(s: State, g: Ref, o: SecurityGroup)
    requires Inv(s) && g in s.groups && s.groups[g] == o && Namers(s.policies, o.id.Group()) != {}
    ensures var t := Put(s, g, o.(deletePending := true));
            Stirred(s, t, {o.id.Group()}) && (!Stable(s, o.id) ==> Kept(s, t))
  {
    var p := o.(deletePending := true);
    PutStirs(s, g, p);
    if !Stable(s, o.id) {
      MarkedSteady(s, g, o);
    }
    hide Inv, Steady, Stirred, Kept, Stable;
  }

  lemma MarkedSteady(s: State, g: Ref, o: SecurityGroup)
    requires Inv(s) && g in s.groups && s.groups[g] == o && !Stable(s, o.id)
    ensures Steady(s, Put(s, g, o.(deletePending := true)), {})
  {
    IndexLinked(s);
    hide Inv;
  }

  lemma MergeStirs(s: State, g: Ref, added: set<string>, removed: set<string>)
    requires Inv(s) && g in s.groups
    ensures Stirred(s, Merge(s, g, added, removed), {s.groups[g].id.Group()})
    ensures added == {} && removed == {} ==> Kept(s, Merge(s, g, added, removed))
  {
    var o := s.groups[g].(members := s.groups[g].members - removed + added);
    assert added == {} && removed == {} ==> o.members == s.groups[g].members;
    hide Inv, Stirred, Kept;
    MembersStir(s, g, o);
    if added == {} && removed == {} {
      PutKeeps(s, g, o);
    }
  }

  lemma MembersSentKeeps(s: State, g: Ref, added: set<string>, removed: set<string>, retried: Option<Op>)
    requires g in s.groups && Inv(Merge(s, g, added, removed)) && !s.groups[g].id.IpBlocks()
    requires (!s.past.overlapped ==> !Stray(s, g)) && s.groups[g].state == Created && s.groups[g].retryOp.None?
    requires retried.Some? ==> retried.value == UpdateMembersOp
    ensures var t := Merge(s, g, added, removed); Kept(t, Emit(t, g, MembersCall, retried))
  {
    hide Inv, Kept;
    EmitKeeps(Merge(s, g, added, removed), g, MembersCall, retried);
  }

  lemma UpdateImplKeeps(s: State, g: Ref, added: set<string>, removed: set<string>, retried: Option<Op>)
    requires Inv(s) && g in s.groups && !s.groups[g].id.IpBlocks() && (!s.past.overlapped ==> !Stray(s, g))
    requires retried.Some? ==> retried.value == UpdateMembersOp
    ensures Stirred(s, UpdateImpl(s, g, added, removed, retried), {s.groups[g].id.Group()})
    ensures added == {} && removed == {} ==> Kept(s, UpdateImpl(s, g, added, removed, retried))
  {
    var but, t := {s.groups[g].id.Group()}, Merge(s, g, added, removed);
    MergeStirs(s, g, added, removed);
    hide Inv, Evolves, Steady, Merge, Emit, Stray;
    KeptSelf(s);
    KeptStirred(s, s, but);
    if s.groups[g].state == Created && s.groups[g].retryOp.None? {
      MembersSentKeeps(s, g, added, removed, retried);
      hide Stirred;
      var u := UpdateImpl(s, g, added, removed, retried);
      if added != {} || removed != {} || s.groups[g].members != {} {
        KeptStirred(t, u, but);
        StirredTrans(s, t, u, but);
        if added == {} && removed == {} {
          KeptTrans(s, t, u);
        }
      }
    }
  }

  lemma UpdateRulesKeeps(s: State, g: Ref, retried: Option<Op>)
    requires Inv(s) && g in s.groups && s.groups[g].id.kind == AppliedTo && (!s.past.overlapped ==> !Stray(s, g))
    requires retried.Some? ==> retried.value == UpdateRulesOp || retried.value == ClearMembersOp
    ensures Kept(s, UpdateRules(s, g, retried))
  {
    hide Inv, Evolves;
    var o := s.groups[g];
    var namers := Namers(s.policies, o.id.Group());
    KeptSelf(s);
    if o.state != Created || o.retryOp.Some? {
    } else if namers == {} {
      if o.hasMembers {
        EmitKeeps(s, g, ClearCall, retried);
      } else {
        PutKeeps(s, g, o.(hasRules := false));
      }
    } else if forall p :: p in namers ==> s.policies[p].ready {
      RuleRefsSound(s, o.id.Group());
      EmitKeeps(s, g, RulesCall(RuleRefs(s.policies, o.id.Group())), retried);
    }
  }

  lemma QueuedLive(s: State, key: QueueKey)
    requires Inv(s) && key in s.retryQueue && key.SgKey?
    ensures Held(s, key) && Live(s, s.retryQueue[key].ref) && s.groups[s.retryQueue[key].ref].id == key.id
    ensures InRecord(s, key, s.retryQueue[key])
  {
  }

  lemma FiledLive(s: State, id: Id)
    requires Inv(s) && id in s.index
    ensures s.index[id] in s.groups && s.groups[s.index[id]].id == id && s.groups[s.index[id]].state != Garbage
    ensures !id.IpBlocks() ==> Live(s, s.index[id]) && Deletable(s, s.index[id], None)
    ensures MayFile(s, s.index[id]) && Harmless(s, s.index[id])
  {
  }

  lemma IndexLinked(s: State)
    requires Inv(s)
    ensures forall id :: id in s.index ==> s.index[id] in s.groups && s.groups[s.index[id]].id == id
  {
  }

  lemma HousedAt(s: State, name: string)
    requires Inv(s)
    ensures name in s.blocks.ips <==> Id(Addr, name, "") in s.index
  {
    hide Linked, Grounded, Lifecycle, PoliciesSound, Confirmed, Orderly, Condemned;
  }

  lemma NotOrphaned(s: State, t: State, id: Id)
    requires Evolves(s, t) && id !in Orphans(s.index, s.groups, s.policies)
    ensures !t.past.overlapped ==> id !in Orphans(t.index, t.groups, t.policies)
  {
  }

  lemma NoneOrphaned(s: State, t: State)
    requires Evolves(s, t)
    ensures !t.past.overlapped ==> !s.past.overlapped && forall id :: id !in Orphans(s.index, s.groups, s.policies) ==>
              id !in Orphans(t.index, t.groups, t.policies)
  {
  }

  lemma SameNamers(s: State, t: State, name: GroupName)
    requires Carried(s, t)
    ensures Namers(t.policies, name) == Namers(s.policies, name)
  {
    hide Inv, Orphans, Stale;
  }

  lemma OrphansFiled(s: State)
    ensures Orphans(s.index, s.groups, s.policies) <= s.index.Keys
  {
  }

  /** Policies that differ in p only. */
  ghost predicate OffBy(m: map<string, Policy>, n: map<string, Policy>, p: string) {
    forall q :: q != p ==> (q in m <==> q in n) && (q in m ==> m[q] == n[q])
  }

  /** When one policy changes, only groups it used to name and names no more can be orphaned. */
  lemma NewOrphans(s: State, policies: map<string, Policy>, p: string)
    requires p in s.policies && OffBy(s.policies, policies, p)
    ensures forall id :: id in Orphans(s.index, s.groups, policies) ==>
              id in Orphans(s.index, s.groups, s.policies) ||
                  (s.policies[p].Names(id.Group()) && (p in policies ==> !policies[p].Names(id.Group())))
  {
    forall id | id in Orphans(s.index, s.groups, policies) && id !in Orphans(s.index, s.groups, s.policies)
      ensures s.policies[p].Names(id.Group()) && (p in policies ==> !policies[p].Names(id.Group()))
    {
      var q :| q in Namers(s.policies, id.Group());
      assert q !in Namers(policies, id.Group());
      assert p in policies && policies[p].Names(id.Group()) ==> p in Namers(policies, id.Group());
    }
  }

  /** At most these groups still have orphans. */
  ghost predicate Left(s: State, addr: seq<string>, applied: seq<string>) {
    !s.past.overlapped ==> forall id :: id in Orphans(s.index, s.groups, s.policies) ==>
        id.name in (if id.kind == Addr then addr else applied)
  }

  lemma LeftKept(s: State, t: State, addr: seq<string>, applied: seq<string>)
    requires Left(s, addr, applied) && Carried(s, t)
    ensures Left(t, addr, applied)
  {
    hide Inv, Orphans;
  }

  lemma SettledLeft(s: State)
    requires Settled(s)
    ensures Inv(s) && s.past.reporting.None? && Left(s, [], []) && Fresh(s, {})
  {
    hide Inv;
  }

  lemma LeftSettled(s: State)
    requires Inv(s) && s.past.reporting.None? && Left(s, [], []) && Fresh(s, {})
    ensures Settled(s)
  {
    hide Inv;
  }

  /** No policies but these are stale. */
  ghost predicate Fresh(s: State, but: set<string>) {
    !s.past.overlapped ==> Stale(s.index, s.blocks, s.policies) <= but
  }

  lemma FreshKept(s: State, t: State, but: set<string>)
    requires Fresh(s, but) && Carried(s, t)
    ensures Fresh(t, but)
  {
    hide Inv, Orphans, Stale;
  }

  lemma FreshWider(s: State, but: set<string>, more: set<string>)
    requires Fresh(s, but) && but <= more
    ensures Fresh(s, more)
  {
    hide Stale;
  }

  /** A policy that has just been computed is no longer stale. */
  lemma FreshComputed(s: State, t: State, p: string)
    requires p in s.policies && Fresh(s, {p}) && (s.past.overlapped ==> t.past.overlapped)
    requires t.index == s.index && t.blocks == s.blocks && t.policies == s.policies[p := Computed(s, s.policies[p])]
    ensures Fresh(t, {})
  {
    ComputedFresh(s, p);
    hide Stale, Computed;
  }

  lemma KeptAdvances(s: State, t: State)
    requires Carried(s, t)
    ensures Inv(t) && Advances(s, t) && s.policies.Keys == t.policies.Keys && t.past.reporting == s.past.reporting
    ensures forall p :: p in s.policies ==>
              t.policies[p].rules == s.policies[p].rules && t.policies[p].appliedTo == s.policies[p].appliedTo
  {
    hide Inv, Progresses, Patient, Orphans;
  }

  /** What replacing policy p leaves orphaned. */
  lemma PolicyChanged(s: State, p: string, policies: map<string, Policy>, addr: seq<string>, applied: seq<string>)
    requires Inv(s) && MayReplace(s, policies) && Left(s, addr, applied)
    requires p in s.policies && OffBy(s.policies, policies, p)
    requires forall g: GroupName :: s.policies[p].Names(g) && !(p in policies && policies[p].Names(g)) ==>
               g.name in (if g.kind == Addr then addr else applied)
    ensures var t := s.(policies := policies); Inv(t) && Advances(s, t) && Left(t, addr, applied)
    ensures Stale(s.index, s.blocks, policies) <= Stale(s.index, s.blocks, s.policies) + {p}
  {
    hide Inv, MayReplace, Orphans, AllKnown, Resolved;
    PoliciesKeep(s, policies);
    NewOrphans(s, policies, p);
  }

  lemma PolicyGone(s: State, p: string)
    requires Inv(s) && Left(s, [], []) && Fresh(s, {p}) && p in s.policies
    ensures var t := s.(policies := s.policies - {p});
            Inv(t) && Advances(s, t) && Left(t, AddressGroupList(s.policies[p].rules), s.policies[p].appliedTo) &&
                Fresh(t, {})
  {
    assert MayReplace(s, s.policies - {p});
    assert Stale(s.index, s.blocks, s.policies - {p}) == Stale(s.index, s.blocks, s.policies) - {p};
    hide Inv, MayReplace, Orphans, Stale;
    ListedIsNamed(s.policies[p].rules);
    PolicyChanged(s, p, s.policies - {p}, AddressGroupList(s.policies[p].rules), s.policies[p].appliedTo);
  }

  lemma BareMayHave(s: State, p: Policy)
    requires Inv(s) && p == p.Bare()
    ensures MayHave(s, p)
  {
  }

  lemma PolicyNew(s: State, p: string, n: Policy)
    requires Settled(s) && p !in s.policies && n == n.Bare()
    ensures var t := s.(policies := s.policies[p := n]); Inv(t) && Advances(s, t) && Left(t, [], []) && Fresh(t, {p})
  {
    hide Inv, MayHave, AllKnown, Resolved;
    BareMayHave(s, n);
    PoliciesKeep(s, s.policies[p := n]);
    forall g ensures Namers(s.policies, g) <= Namers(s.policies[p := n], g) {}
    assert Orphans(s.index, s.groups, s.policies[p := n]) <= Orphans(s.index, s.groups, s.policies);
    assert Stale(s.index, s.blocks, s.policies[p := n]) <= Stale(s.index, s.blocks, s.policies) + {p};
  }

  lemma RulesChanged(s: State, p: string, rules: seq<PolicyRule>, removed: seq<string>)
    requires Settled(s) && p in s.policies
    requires forall g :: g in removed <==>
               multiset(AddressGroupList(s.policies[p].rules))[g] > multiset(AddressGroupList(rules))[g]
    ensures var t := s.(policies := s.policies[p := s.policies[p].(rules := rules).Bare()]);
            Inv(t) && Advances(s, t) && Left(t, removed, []) && Fresh(t, {p})
  {
    hide Inv, MayHave, Orphans, Stale;
    var n := s.policies[p].(rules := rules).Bare();
    BareMayHave(s, n);
    ListedIsNamed(s.policies[p].rules);
    ListedIsNamed(rules);
    PolicyChanged(s, p, s.policies[p := n], removed, []);
  }

  lemma AppliedToChanged(s: State, p: string, appliedTo: seq<string>, addr: seq<string>, removed: seq<string>)
    requires Inv(s) && p in s.policies && Left(s, addr, []) && Fresh(s, {})
    requires forall g :: g in removed <==> multiset(s.policies[p].appliedTo)[g] > multiset(appliedTo)[g]
    ensures var t := s.(policies := s.policies[p := s.policies[p].(appliedTo := appliedTo)]);
            Inv(t) && Advances(s, t) && Left(t, addr, removed) && Fresh(t, {})
  {
    hide Inv;
    var n := s.policies[p].(appliedTo := appliedTo);
    PolicyIsSound(s, p);
    assert MayHave(s, n);
    assert Stale(s.index, s.blocks, s.policies[p := n]) == Stale(s.index, s.blocks, s.policies) by {
      hide AllKnown, Resolved;
    }
    hide MayHave, Orphans, Stale;
    PolicyChanged(s, p, s.policies[p := n], addr, removed);
  }

  lemma ReissueKeeps(s: State, g: Ref, op: Op)
    requires Inv(s) && Live(s, g) && (s.groups[g].state == Garbage <==> op == DeleteOp)
    ensures Kept(s, Reissue(s, g, op)) && Live(Reissue(s, g, op), g)
  {
    hide Inv, Evolves, AddImpl, UpdateImpl, DeleteImpl, UpdateRules;
    KeptSelf(s);
    OverlapStays(s, Reissue(s, g, op));
    match op
    case CreateOp => AddImplKeeps(s, g, Some(op));
    case UpdateMembersOp => UpdateImplKeeps(s, g, {}, {}, Some(op));
    case DeleteOp => DeleteImplKeeps(s, g, Some(op));
    case _ =>
      if s.groups[g].id.kind == AppliedTo {
        UpdateRulesKeeps(s, g, Some(op));
      }
  }

  lemma StaysLive(s: State, t: State, g: Ref)
    requires Live(s, g) && Carried(s, t)
    requires g in t.groups && t.groups[g].id == s.groups[g].id && t.groups[g].state == s.groups[g].state
    requires t.index == s.index || t.index == s.index[s.groups[g].id := g]
    ensures Live(t, g)
  {
    hide Inv;
    OverlapStays(s, t);
  }

  lemma RunIdleKeeps(s: State, g: Ref)
    requires Inv(s) && Live(s, g)
    ensures Kept(s, RunIdle(s, g))
  {
    hide Inv, Evolves, UpdateImpl, UpdateRules;
    KeptSelf(s);
    if s.groups[g].state != Garbage {
      if s.groups[g].id.kind == AppliedTo {
        var s1 := Put(s, g, s.groups[g].(hasMembers := false));
        TouchKeeps(s, g, s1.groups[g]);
        UpdateRulesKeeps(s1, g, None);
        KeptTrans(s, s1, UpdateRules(s1, g, None));
      } else {
        UpdateImplKeeps(s, g, {}, {}, None);
      }
    }
  }

  lemma RunArmedKeeps(s: State, g: Ref, op: Op)
    requires Inv(s) && Live(s, g) && (s.groups[g].state == Garbage <==> op == DeleteOp)
    requires s.groups[g].retryOp == Some(op) && !s.groups[g].retryInProgress
    requires op == UpdateRulesOp ==> s.groups[g].id.kind == AppliedTo
    ensures Kept(s, RunArmed(s, g, op)) && Local(s, RunArmed(s, g, op), g) && Live(RunArmed(s, g, op), g)
  {
    hide Inv, Evolves, Reissue;
    var s1 := Put(s, g, s.groups[g].(retryOp := None));
    PutKeeps(s, g, s1.groups[g]);
    StaysLive(s, s1, g);
    var s2 := Reissue(s1, g, op);
    ReissueKeeps(s1, g, op);
    KeptTrans(s, s1, s2);
    var s3 := Put(s2, g, s2.groups[g].(retryOp := Some(op), retryInProgress := true));
    PutKeeps(s2, g, s3.groups[g]);
    KeptTrans(s, s2, s3);
    StaysLive(s2, s3, g);
  }

  /** Running a queued item once. */
  lemma RunItemKeeps(s: State, g: Ref)
    requires Inv(s) && Live(s, g) && Runs(s.groups[g])
    ensures Kept(s, RunItem(s, g)) && Local(s, RunItem(s, g), g) && Live(RunItem(s, g), g)
  {
    var op := s.groups[g].retryOp;
    assert op.Some? ==> (s.groups[g].state == Garbage <==> op.value == DeleteOp);
    RulesArmed(s, g);
    hide Inv, Evolves, RunIdle, RunArmed;
    if op.Some? {
      RunArmedKeeps(s, g, op.value);
    } else {
      RunIdleKeeps(s, g);
      StaysLive(s, RunIdle(s, g), g);
    }
  }

  /** The answer being taken up is reported as this; of Deletes no account is kept. */
  predicate Heard(s: State, id: Id, op: Op) {
    op == DeleteOp || s.past.reporting == Some(Report(id, op))
  }

  /** An answer wakes no stranded retry. */
  lemma HeardWakes(s: State, key: QueueKey, op: Op)
    requires Inv(s) && key in s.retryQueue && key.SgKey? && Heard(s, key.id, op)
    ensures Held(s, key)
    ensures var h := s.retryQueue[key].ref; MayWake(s, h, UpdateItem(s.groups[h], op))
  {
    hide Quiet, Affords, Orderly, Condemned;
    var h := s.retryQueue[key].ref;
    if Stranded(s, h) {
      StrandedOp(s, h);
    }
  }

  /** What an answer does to the item queued under its id; it may belong to another object. */
  lemma UpdateItemKeeps(s: State, key: QueueKey, op: Op)
    requires Inv(s) && key in s.retryQueue && key.SgKey? && Heard(s, key.id, op)
    ensures Held(s, key)
    ensures var h := s.retryQueue[key].ref;
            var t := Put(s, h, UpdateItem(s.groups[h], op));
            Kept(s, t) && Live(t, h) && t.groups[h].id == key.id
  {
    QueuedLive(s, key);
    var h := s.retryQueue[key].ref;
    HeardWakes(s, key, op);
    hide Inv, Evolves, InRecord;
    PutKeeps(s, h, UpdateItem(s.groups[h], op));
    StaysLive(s, Put(s, h, UpdateItem(s.groups[h], op)), h);
  }

  /** A live item of the queue, as it stands there. */
  ghost predicate OnQueue(s: State, item: RetryItem) {
    && item.SgItem? && Live(s, item.ref)
    && var key := SgKey(s.groups[item.ref].id);
       key in s.retryQueue && s.retryQueue[key] == item && InRecord(s, key, item)
  }

  lemma RequeueKeeps(s: State, drop: bool, item: RetryItem)
    requires Inv(s) && OnQueue(s, item) && (drop ==> item.opCnt <= 0)
    ensures Kept(s, Requeue(s, drop, item))
  {
    hide Inv, Evolves, InRecord, Stray;
    if drop {
      DequeueKeeps(s, SgKey(s.groups[item.ref].id));
    } else {
      assert Enqueue(s, item).retryQueue == s.retryQueue;
      KeptSelf(s);
    }
  }

  lemma RulesArmed(s: State, g: Ref)
    requires Inv(s) && g in s.groups
    ensures s.groups[g].retryOp == Some(UpdateRulesOp) ==> s.groups[g].id.kind == AppliedTo
  {
    hide Linked, Lifecycle, PoliciesSound, Confirmed, Housed, Orderly, Condemned;
  }

  lemma RunConcludes(s: State, t: State, item: RetryItem, tick: bool, drop: bool)
    requires OnQueue(s, item) && Live(t, item.ref) && Local(s, t, item.ref)
    requires (tick ==> item.opCnt > 0) && (!drop ==> item.opCnt > 0)
    requires s.groups[item.ref].retryOp == Some(UpdateRulesOp) ==> s.groups[item.ref].id.kind == AppliedTo
    ensures var o := s.groups[item.ref];
            MayConclude(t, Ran(SgKey(o.id), o.retryOp, item.runs + 1, tick), Panics(o), if drop then None
                else Some(Charged(item, tick)))
  {
    hide LastRun, Stray;
  }

  /** A run spends one of the budget, is recorded, and panics exactly if it retries an address group's ClearMembers. */
  lemma RunAndChargeKeeps(s: State, item: RetryItem, tick: bool, drop: bool)
    requires Inv(s) && OnQueue(s, item) && Runs(s.groups[item.ref])
    requires (tick ==> item.opCnt > 0) && (!drop ==> item.opCnt > 0)
    ensures Kept(s, RunAndCharge(s, item, tick, drop))
  {
    var o, t := s.groups[item.ref], RunItem(s, item.ref);
    var run := Ran(SgKey(o.id), o.retryOp, item.runs + 1, tick);
    var left := if drop then None else Some(Charged(item, tick));
    var u := Conclude(t, run, Panics(o), left);
    hide Inv, Evolves, RunItem, LastRun, MayConclude, Onward, Patient;
    RulesArmed(s, item.ref);
    RunItemKeeps(s, item.ref);
    RunConcludes(s, t, item, tick, drop);
    ConcludeSound(t, run, Panics(o), left);
    OnwardEvolves(s, t);
    OnwardTrans(s, t, u);
    RunPatient(s, t, item, run, Panics(o), left);
    OnwardEvolves(s, u);
    hide Steady;
    ConcludeSteady(s, t, run, Panics(o), left);
  }

  lemma ConcludeSteady(s: State, t: State, run: Ran, panics: bool, item: Option<RetryItem>)
    requires Steady(s, t, {}) && run.key.SgKey?
    ensures Steady(s, Conclude(t, run, panics, item), {})
  {
    var u := Conclude(t, run, panics, item);
    forall n ensures SameShelf(s, u, n) {
      assert SameShelf(s, t, n);
    }
  }

  /** What was stranded before an item ran is not that item. */
  lemma RunPatient(s: State, t: State, item: RetryItem, run: Ran, panics: bool, left: Option<RetryItem>)
    requires Patient(s, t) && Progresses(s, t) && OnQueue(s, item) && Runs(s.groups[item.ref])
    requires t.retryQueue == s.retryQueue && run.key == SgKey(s.groups[item.ref].id)
    ensures Patient(s, Conclude(t, run, panics, left))
  {
    var u := Conclude(t, run, panics, left);
    hide Awaited, Quiet, InRecord, Live;
    if !u.past.overlapped {
      forall g | Stranded(s, g) ensures Stays(s, u, g) {
        assert Stays(s, t, g);
        if g !in t.past.released {
          ConcludeSpares(t, run, panics, left, g);
        }
      }
    }
  }

  /** PendingItemQueue.Update: an item that runs spends one of its budget, and one that has spent all leaves. */
  lemma CheckItemKeeps(s: State, item: RetryItem)
    requires Inv(s) && OnQueue(s, item)
    ensures Kept(s, CheckItem(s, item))
  {
    hide Inv, Evolves, RunItem, Requeue, RunAndCharge;
    var o := s.groups[item.ref];
    if Runs(o) {
      RunAndChargeKeeps(s, item, false, Done(o) || item.opCnt - 1 <= 0);
    } else {
      RequeueKeeps(s, item.opCnt <= 0, item);
    }
  }

  lemma UpdateQueueKeeps(s: State, key: QueueKey, checkRun: bool, op: Op)
    requires Inv(s) && key in s.retryQueue && key.SgKey? && Heard(s, key.id, op)
    ensures Held(s, key) && Kept(s, UpdateQueue(s, key, checkRun, op))
  {
    UpdateItemKeeps(s, key, op);
    QueuedLive(s, key);
    hide Inv, Evolves, UpdateItem, CheckItem, Live;
    var item := s.retryQueue[key];
    var s1 := Put(s, item.ref, UpdateItem(s.groups[item.ref], op));
    if checkRun {
      CheckItemKeeps(s1, item);
      KeptTrans(s, s1, CheckItem(s1, item));
    }
  }

  /** PendingItemQueue.CheckToRun: an item that asks to run spends one of its budget, and without budget it leaves. */
  lemma TickItemKeeps(s: State, item: RetryItem)
    requires Inv(s) && OnQueue(s, item)
    ensures Kept(s, TickItem(s, item))
  {
    hide Inv, Evolves, RunItem, Requeue, RunAndCharge;
    KeptSelf(s);
    var o := s.groups[item.ref];
    if Runs(o) {
      if item.opCnt > 0 {
        RunAndChargeKeeps(s, item, true, Done(o));
      } else {
        RequeueKeeps(s, true, item);
      }
    }
  }

  /** The answer being taken up is for this object. Deletes are reported of garbage, rules of appliedTo groups. */
  predicate Reported(s: State, g: Ref, op: Op) {
    g in s.groups && (op == DeleteOp ==> s.groups[g].state == Garbage) &&
        (op == UpdateRulesOp ==> s.groups[g].id.kind == AppliedTo) && Heard(s, s.groups[g].id, op)
  }

  lemma StillReported(s: State, t: State, g: Ref, op: Op)
    requires Carried(s, t) && Reported(s, g, op)
    ensures Reported(t, g, op) && (Heard(s, s.groups[g].id, op) ==> Heard(t, s.groups[g].id, op))
  {
    hide Inv, Patient, Orphans, Stale;
  }

  /** A group whose answer is being taken up and that is not queued has no stranded retry. */
  lemma ArmsAnew(s: State, g: Ref, op: Op)
    requires Reported(s, g, op) && SgKey(s.groups[g].id) !in s.retryQueue
    ensures !Stranded(s, g)
  {
    hide Awaited;
  }

  lemma ArmKeeps(s: State, g: Ref, op: Op)
    requires Inv(s) && Live(s, g) && Reported(s, g, op) && SgKey(s.groups[g].id) !in s.retryQueue
    requires s.groups[g].state != Garbage || op == DeleteOp
    ensures Kept(s, Put(s, g, s.groups[g].(retryOp := Some(op))))
    ensures MayQueue(Put(s, g, s.groups[g].(retryOp := Some(op))), SgItem(g, OPERATION_COUNT, 0, 0))
  {
    ArmsAnew(s, g, op);
    hide Inv, Evolves, Stranded, LastRun;
    var o := s.groups[g].(retryOp := Some(op));
    PutKeeps(s, g, o);
    StaysLive(s, Put(s, g, o), g);
    hide Stray;
  }

  lemma ArmRetryKeeps(s: State, g: Ref, op: Op, failed: bool)
    requires Inv(s) && Live(s, g) && Reported(s, g, op)
    ensures Kept(s, ArmRetry(s, g, op, failed))
  {
    hide Inv, Evolves, MayQueue, Live, Enqueue;
    KeptSelf(s);
    var o := s.groups[g];
    if failed && SgKey(o.id) !in s.retryQueue && (o.state != Garbage || op == DeleteOp) {
      var s1 := Put(s, g, o.(retryOp := Some(op)));
      ArmKeeps(s, g, op);
      EnqueueKeeps(s1, SgItem(g, OPERATION_COUNT, 0, 0));
      KeptTrans(s, s1, Enqueue(s1, SgItem(g, OPERATION_COUNT, 0, 0)));
    }
  }

  lemma UpdateQueueIdle(s: State, key: QueueKey, op: Op)
    ensures key in s.retryQueue && Held(s, key) ==> UpdateQueue(s, key, false, op).retryQueue == s.retryQueue
  {
  }

  lemma SettleRetryKeeps(s: State, g: Ref, op: Op, failed: bool)
    requires Inv(s) && Live(s, g) && Reported(s, g, op)
    ensures Held(s, SgKey(s.groups[g].id)) && Kept(s, SettleRetry(s, g, op, failed))
  {
    var key := SgKey(s.groups[g].id);
    if key in s.retryQueue {
      QueuedLive(s, key);
    }
    hide Inv, Evolves, UpdateQueue;
    var s1 := ArmRetry(s, g, op, failed);
    ArmRetryKeeps(s, g, op, failed);
    if key in s1.retryQueue {
      UpdateQueueKeeps(s1, key, !failed, op);
      KeptTrans(s, s1, UpdateQueue(s1, key, !failed, op));
    }
  }

  // ---------------------------------------------------------------- events

  lemma EmptySettled()
    ensures Settled(EMPTY)
  {
    assert Counted(EMPTY.pendingDelete, EMPTY.inflight);
    hide Counted;
    assert Safe(EMPTY) by {
      hide NoStrays, OneCreate, ReadyCreated;
    }
    hide Linked, Grounded, Lifecycle, Safe;
  }

  lemma KeptSettled(s: State, t: State)
    requires Settled(s) && Carried(s, t)
    ensures Settled(t) && Advances(s, t)
  {
    hide Inv, Orphans;
  }

  /** A Delete in flight is counted. */
  lemma CountedOnce(s: State, i: nat)
    requires Inv(s) && i < |s.inflight| && s.inflight[i].what.DeleteCall?
    ensures RefCnt(s.pendingDelete, s.inflight[i].id.Group()) >= 1
  {
    hide Linked, Grounded, Lifecycle, PoliciesSound, Confirmed, Housed, Orderly;
    DeleteExpected(s, i);
  }

  lemma InflightLive(s: State, i: nat)
    requires Inv(s) && i < |s.inflight|
    ensures Live(s, s.inflight[i].ref) && s.groups[s.inflight[i].ref].id == s.inflight[i].id
    ensures s.inflight[i].what.DeleteCall? ==>
              s.groups[s.inflight[i].ref].state == Garbage && s.inflight[i].id.Group() in s.pendingDelete
    ensures s.inflight[i].what.RulesCall? ==> s.inflight[i].id.kind == AppliedTo
  {
    if s.inflight[i].what.DeleteCall? {
      DeleteExpected(s, i);
    }
  }

  /** Nothing moved in the index: what was live still is. */
  lemma StillLive(s: State, t: State, g: Ref)
    requires Live(s, g) && Carried(s, t) && t.index == s.index
    ensures Live(t, g)
  {
    hide Inv, Orphans;
  }

  lemma MarkSafe(s: State, synced: bool, bookmarks: nat)
    requires Safe(s)
    ensures Safe(s.(synced := synced, bookmarks := bookmarks))
  {
    hide PoliciesSound, Confirmed, Counted, Budgeted, Recorded, Traced;
  }

  lemma MarkOrderly(s: State, synced: bool, bookmarks: nat)
    requires Linked(s) && Orderly(s) && Linked(s.(synced := synced, bookmarks := bookmarks))
    ensures Orderly(s.(synced := synced, bookmarks := bookmarks))
    ensures Evolves(s, s.(synced := synced, bookmarks := bookmarks))
  {
    ReshelvedOrderly(s, s.(synced := synced, bookmarks := bookmarks));
  }

  lemma MarkKeeps(s: State, synced: bool, bookmarks: nat)
    requires Inv(s)
    ensures Kept(s, s.(synced := synced, bookmarks := bookmarks))
  {
    hide Linked, Grounded, Lifecycle, PoliciesSound, Confirmed, Housed, Orderly, Evolves;
    MarkSafe(s, synced, bookmarks);
    MarkOrderly(s, synced, bookmarks);
  }

  lemma RankGrows(s: State, t: State, g: Ref)
    requires Carried(s, t) && g in s.groups
    ensures g in t.groups && s.groups[g].state.Rank() <= t.groups[g].state.Rank() && t.groups[g].id == s.groups[g].id
  {
    hide Inv, Orphans;
  }

  /** A group that is not created has nothing else in flight when its Create is answered. */
  lemma AnsweredIdle(s: State, i: nat)
    requires Inv(s) && i < |s.inflight| && !s.past.overlapped && s.groups[s.inflight[i].ref].state == Init
    ensures forall j :: 0 <= j < |Drop(s.inflight, i)| ==> Drop(s.inflight, i)[j].ref != s.inflight[i].ref
  {
    hide Counted, Budgeted, Recorded, Traced, Grounded, PoliciesSound, Confirmed;
    var r := s.inflight[i].ref;
    assert s.inflight[i].what.CreateCall?;
    forall j | 0 <= j < |s.inflight| && j != i ensures s.inflight[j].ref != r {
      assert s.inflight[j].what.CreateCall? || s.inflight[j].ref != r;
    }
    var q := Drop(s.inflight, i);
    forall j | 0 <= j < |q| ensures q[j].ref != r {
      assert q[j] == s.inflight[if j < i then j else j + 1];
    }
  }

  /** The state in which the answer to a request has just been taken up. */
  lemma AnswerReported(s: State, i: nat, op: Op)
    requires Inv(s) && MayAnswer(s, i, op)
    ensures var t, g := Answer(s, i, op), s.inflight[i].ref;
            && Inv(t) && Live(t, g) && Reported(t, g, op)
            && (t.groups[g].state == Init && !t.past.overlapped ==>
                  forall j :: 0 <= j < |t.inflight| ==> t.inflight[j].ref != g)
  {
    hide Inv, Onward, Patient;
    var g := s.inflight[i].ref;
    InflightLive(s, i);
    if s.groups[g].state == Init && !s.past.overlapped {
      AnsweredIdle(s, i);
    }
    hide Drop, Live;
    AnswerKeeps(s, i, op);
    AnswerLive(s, i, op, g);
  }

  lemma QueuedGroup(s: State, name: GroupName)
    requires Inv(s) && GroupKey(name) in s.retryQueue
    ensures MayQueueGroup(s, name, s.retryQueue[GroupKey(name)])
  {
  }

  lemma PendingProper(s: State, name: GroupName)
    requires Inv(s) && name in s.pendingDelete
    ensures Proper(s.pendingDelete[name]) && s.pendingDelete[name].refCnt.Some?
  {
  }

  /**
   When the deletion of an IP-block group leaves a policy with the addresses it is owed: exactly if its compiled rules
   have none from it.
   */
  lemma EraseExact(s: State, id: Id, p: string)
    requires Settled(s) && !s.past.overlapped && id.IpBlocks() && p in s.policies && s.policies[p].lost == {}
    ensures Within(s.policies[p].ips, ResolvedIps(Erase(s, id).blocks.ips, s.policies[p].rules)) <==>
            id.name !in s.policies[p].ips
  {
    hide Inv, ResolvedIps, RemoteAddressGroups;
    assert p !in Stale(s.index, s.blocks, s.policies);
    ErasedIps(s.blocks.ips, s.policies[p].rules, id.name);
  }

  /** What the invariant between events says of the requests and of the retries, spelled out. */
  lemma HistoryMeans(s: State)
    requires Settled(s)
    // every request was lawful when it was issued
    ensures forall i :: 0 <= i < |s.past.trace| ==> Lawful(s.past.trace[i])
    // the first Delete of an object found no policy naming its group
    ensures forall i :: 0 <= i < |s.past.trace| && s.past.trace[i].call.what.DeleteCall? &&
                        (forall j :: 0 <= j < i ==> !IsDelete(s.past.trace[j], s.past.trace[i].call.ref)) ==>
              s.past.trace[i].namers == {}
    // and garbage has had one
    ensures forall r :: r in s.groups && s.groups[r].state == Garbage ==> WasDeleted(s.past.trace, r)
    // a retry has panicked exactly if a ClearMembers of an address group has been retried
    ensures s.past.panicked <==> exists i :: 0 <= i < |s.past.ran| && Fatal(s.past.ran[i])
    // retries are within budget
    ensures forall k :: k in s.retryQueue ==> InRecord(s, k, s.retryQueue[k])
  {
    hide Linked, Grounded, Lifecycle, PoliciesSound, Confirmed, Orderly, Stale, Orphans, Lawful, LastRun;
    forall i | 0 <= i < |s.past.trace| && s.past.trace[i].call.what.DeleteCall? &&
               (forall j :: 0 <= j < i ==> !IsDelete(s.past.trace[j], s.past.trace[i].call.ref))
      ensures s.past.trace[i].namers == {}
    {
      assert !WasDeleted(s.past.trace[..i], s.past.trace[i].call.ref);
    }
  }

  /** What the invariant between events says of groups and policies, spelled out. */
  lemma SettledMeans(s: State)
    requires Settled(s)
    // the count of Deletes is exact, and the entry is there whenever one is in flight
    ensures forall g :: CountDeletes(s.inflight, g) > 0 ==> g in s.pendingDelete
    ensures forall g :: g in s.pendingDelete ==> s.pendingDelete[g].refCnt == Some(CountDeletes(s.inflight, g))
    // garbage is out of the index and has nothing armed but its Delete
    ensures forall r :: r in s.groups && s.groups[r].state == Garbage ==>
              && (s.groups[r].id !in s.index || s.index[s.groups[r].id] != r)
              && (s.groups[r].retryOp.Some? ==> s.groups[r].retryOp.value == DeleteOp)
    // deletions are held up by policies only
    ensures !s.past.overlapped ==>
              forall id :: id in s.index && s.index[id] in s.groups && s.groups[s.index[id]].deletePending ==>
                Namers(s.policies, id.Group()) != {}
    // rules that are ready refer to indexed groups in state Created
    ensures !s.past.overlapped ==>
              forall p, id :: p in s.policies && s.policies[p].ready && id in s.policies[p].refs ==>
                id in s.index && s.index[id] in s.groups && s.groups[s.index[id]].state == Created
  {
    hide Grounded, PoliciesSound, Confirmed, Traced, Recorded, Budgeted, Stale;
    forall g ensures RefCnt(s.pendingDelete, g) == CountDeletes(s.inflight, g) {}
    if !s.past.overlapped {
      forall id | id in s.index && s.index[id] in s.groups && s.groups[s.index[id]].deletePending
        ensures Namers(s.policies, id.Group()) != {}
      {
        assert id !in Orphans(s.index, s.groups, s.policies);
      }
    }
  }

  /**
   What the invariant between events says of compiled rules: they are about the groups and the addresses there are.
   */
  lemma RulesMean(s: State, p: string)
    requires Settled(s) && !s.past.overlapped && p in s.policies
    ensures AllKnown(s.index, s.policies[p].rules) ==> s.policies[p].refs == Resolved(s.index, s.policies[p].rules)
    // addresses are out of date exactly if the IP-block group of one it has addresses of has gone since
    ensures Within(s.policies[p].ips, ResolvedIps(s.blocks.ips, s.policies[p].rules)) <==> s.policies[p].lost == {}
    ensures forall g :: g in s.policies[p].lost ==> g in s.policies[p].ips && g !in s.blocks.ips
    ensures Within(s.policies[p].ips - s.policies[p].lost, ResolvedIps(s.blocks.ips, s.policies[p].rules))
    ensures s.policies[p].lost == {} && AllKnown(s.index, s.policies[p].rules) ==>
              s.policies[p].ips == ResolvedIps(s.blocks.ips, s.policies[p].rules)
  {
    assert PolicySound(s.index, s.past.acked, s.policies[p]);
    hide Inv, AllKnown, Resolved, RemoteAddressGroups;
    assert p !in Stale(s.index, s.blocks, s.policies);
  }
}
