/**
 Short runs, each of which ends where the reconciler is not supposed to be. Their steps are the handlers' own: every
 state is what the contract of a handler says its event makes of the one before.
 */
module Witnesses {
  import opened PolicyTypes
  import opened PendingGroups
  import opened GroupMachine
  import opened GroupInvariants
  import opened GroupProgress
  import opened RetryBudget

  const G := Id(Addr, "g", "v")
  const RULE := PolicyRule(In, Peer([], ["g"]), Peer([], []), None)
  const NAMER := Policy([RULE], [], {}, map[], false, false, {})

  /** The reconciler after three bookmarks in an empty world. */
  const START := EMPTY.(synced := true, bookmarks := 3)

  /** A policy recomputes its rules. */
  ghost function Recomputed(s: State, p: string): State
    requires p in s.policies
  {
    s.(policies := s.policies[p := Computed(s, s.policies[p])])
  }

  /** A policy naming the group appears. */
  ghost function WithPolicy(): State {
    Recomputed(START.(policies := map["p" := NAMER]), "p")
  }

  lemma StartSettled()
    ensures Settled(START)
  {
    hide Settled, Inv, Evolves;
    EmptySettled();
    SettledLeft(EMPTY);
    MarkKeeps(EMPTY, true, 3);
    KeptSettled(EMPTY, START);
  }

  lemma Naming()
    ensures RemoteAddressGroups([RULE]) == NamedAddressGroups([RULE]) == {"g"}
    ensures forall g: GroupName :: NAMER.Names(g) <==> g == GroupName(Addr, "g")
  {
    assert RULE in [RULE] && "g" in RULE.Remote().addressGroups && "g" in RULE.AddressGroups();
  }

  lemma PolicyArrives()
    ensures WithPolicy() == START.(policies := map["p" := NAMER]) && Settled(WithPolicy())
  {
    var s := START.(policies := map["p" := NAMER]);
    Naming();
    hide Settled, Inv, Evolves, Advances, Left, Fresh;
    assert !AllKnown(s.index, NAMER.rules) by {
      assert Members(s.index, GroupName(Addr, "g")) == {};
    }
    hide AllKnown;
    assert START.policies["p" := NAMER] == s.policies;
    StartSettled();
    PolicyNew(START, "p", NAMER);
    FreshComputed(s, WithPolicy(), "p");
    assert s.policies["p" := NAMER] == s.policies;
    LeftSettled(s);
  }

  const COMPILED := NAMER.(refs := {G}, compiled := true)

  /** Objects of the group, and those requests for the first of them. */
  function Object(members: set<string>, state: GroupState, deletePending: bool, status: Status,
                  retryOp: Option<Op>): SecurityGroup
  {
    SecurityGroup(G, members, state, deletePending, status, retryOp, false, false, false)
  }

  const CREATE := Call(0, G, CreateCall)
  const UPDATE := Call(0, G, MembersCall)

  /** The first object waits in the retry queue. */
  const WAITING: map<QueueKey, RetryItem> := map[SgKey(G) := SgItem(0, OPERATION_COUNT, 0, 0)]

  /** What a state holds, as far as these runs depend on it. */
  ghost predicate Is(s: State, groups: map<Ref, SecurityGroup>, index: map<Id, Ref>, policies: map<string, Policy>,
                     queue: map<QueueKey, RetryItem>, inflight: seq<Call>)
  {
    && s.synced && s.groups == groups && s.index == index && s.policies == policies
    && s.retryQueue == queue && s.inflight == inflight && s.blocks == Blocks(map[])
  }

  lemma Compiles(refs: set<Id>, ips: map<string, set<Prefix>>)
    requires G in refs || "g" in ips
    ensures Produces([RULE], refs, ips)
  {
    assert RULE in [RULE] && "g" in RULE.Remote().addressGroups;
    assert G in refs ==> G.name == "g";
  }

  /** The oldest request, a Create of the first object, fails: its retry is armed. */
  lemma CreateFails(s: State, groups: map<Ref, SecurityGroup>, index: map<Id, Ref>, policies: map<string, Policy>,
                    inflight: seq<Call>)
    requires Is(s, groups, index, policies, map[], inflight) && |inflight| > 0 && inflight[0] == CREATE
    requires 0 in groups && groups[0].id == G && groups[0].state == Init && !groups[0].retryInProgress
    ensures Answerable(s, 0)
    ensures Is(FailedAnswer(s, 0, CreateOp), groups[0 := groups[0].(status := Failed, retryOp := Some(CreateOp))],
               index, policies, WAITING, inflight[1..])
    ensures FailedAnswer(s, 0, CreateOp).pendingDelete == s.pendingDelete
    ensures FailedAnswer(s, 0, CreateOp).next == s.next
    ensures FailedAnswer(s, 0, CreateOp).past.overlapped == s.past.overlapped
  {
    assert Drop(inflight, 0) == inflight[1..];
    FirstFailure(Answer(s, 0, CreateOp));
    hide TakenUp, SettleRetry;
  }

  lemma FirstFailure(s: State)
    requires 0 in s.groups && s.groups[0].id == G && s.groups[0].state == Init && !s.groups[0].retryInProgress
    requires s.retryQueue == map[]
    ensures var t := TakenUp(s, 0, CreateOp, true);
            && 0 in t.groups && Held(t, SgKey(t.groups[0].id))
            && SettleRetry(t, 0, CreateOp, true) == s.(retryQueue := WAITING,
                 groups := s.groups[0 := s.groups[0].(status := Failed, retryOp := Some(CreateOp))])
  {
    var t := TakenUp(s, 0, CreateOp, true);
    var o := s.groups[0].(status := Failed);
    assert t == Put(s, 0, o);
    var u := ArmRetry(t, 0, CreateOp, true);
    assert u == Put(t, 0, o.(retryOp := Some(CreateOp))).(retryQueue := WAITING);
    hide CheckItem, TakenUp, ArmRetry;
  }

  /** Its retry files the first object again. */
  lemma RetryFiles(s: State, groups: map<Ref, SecurityGroup>, index: map<Id, Ref>, policies: map<string, Policy>,
                   inflight: seq<Call>)
    requires Is(s, groups, index, policies, WAITING, inflight)
    requires 0 in groups && groups[0].id == G && groups[0].retryOp == Some(CreateOp) && !groups[0].retryInProgress
    ensures SgKey(G) in s.retryQueue && Held(s, SgKey(G))
    ensures var t := TickItem(s, s.retryQueue[SgKey(G)]);
            && t.index == index[G := 0] && t.policies == policies && 0 in t.groups && t.groups[0].id == G
            && t.groups[0].state == groups[0].state && t.groups[0].deletePending == groups[0].deletePending
  {
    var s1 := Put(s, 0, s.groups[0].(retryOp := None));
    assert RunItem(s, 0) == RunArmed(s, 0, CreateOp);
    ArmedFiles(s1);
    hide AddImpl;
  }

  lemma ArmedFiles(s: State)
    requires 0 in s.groups
    ensures var t := AddImpl(s, 0, Some(CreateOp));
            && 0 in t.groups && t.groups[0].id == s.groups[0].id && t.groups[0].state == s.groups[0].state
            && t.groups[0].deletePending == s.groups[0].deletePending
  {
  }

  /** Before the Create has been answered, a synchronization with a cloud that lacks the group adds it again. */
  lemma AddedAgain(s: State, policies: map<string, Policy>)
    requires Is(s, map[0 := Object({"m"}, Init, false, InProgress, None)], map[G := 0], policies, map[], [CREATE])
    ensures var t := Synced(s, 0, false, false);
            && Is(t, map[0 := Object({"m"}, Init, false, InProgress, None)], map[G := 0], policies, map[],
                  [CREATE, CREATE])
            && t.past.overlapped && t.pendingDelete == s.pendingDelete && t.next == s.next
  {
    assert s.inflight[0].what.CreateCall?;
  }

  // ---------------------------------------------------------------- a group comes back from the dead

  /** The group appears with a member, and the policy is recomputed. */
  ghost function Added(s: State): State
    requires "p" in s.policies
  {
    Recomputed(AddImpl(GroupMachine.Allocate(s, G, {"m"}, Init), s.next, None), "p")
  }

  lemma GroupArrives(s: State)
    requires Settled(s) && s == START.(policies := map["p" := NAMER])
    ensures Settled(Added(s)) && !Added(s).past.overlapped
  {
    var s0 := GroupMachine.Allocate(s, G, {"m"}, Init);
    var s1 := AddImpl(s0, 0, None);
    assert !Added(s).past.overlapped;
    Naming();
    assert Namers(Added(s).policies, G.Group()) <= {"p"};
    hide Settled, Inv, Evolves, Moves, NewlyStale, Computed;
    SettledLeft(s);
    AllocateKeeps(s, G, {"m"}, Init);
    AddImplKeeps(s0, 0, None);
    KeptGrown(s, s0, G.Group());
    GrownTrans(s, s0, s1, G.Group());
    ComputedKeeps(s1, "p");
    ComputedFresh(s1, "p");
    GrownKept(s, s1, Added(s), G.Group());
    KeptSettled(s, Added(s));
  }

  lemma GroupAdded(s: State)
    requires s == START.(policies := map["p" := NAMER])
    ensures Is(Added(s), map[0 := Object({"m"}, Init, false, InProgress, None)], map[G := 0], map["p" := COMPILED],
               map[], [CREATE])
  {
    var t := AddImpl(GroupMachine.Allocate(s, G, {"m"}, Init), 0, None);
    Naming();
    assert G in Members(t.index, GroupName(Addr, "g"));
    assert AllKnown(t.index, NAMER.rules) && Resolved(t.index, NAMER.rules) == {G};
    assert ResolvedIps(t.blocks.ips, NAMER.rules) == map[];
    assert !GroupReady(t.index, t.groups, GroupName(Addr, "g"));
    assert "g" in NamedAddressGroups(NAMER.rules) && !AllReady(t.index, t.groups, NAMER.rules);
    Compiles({G}, map[]);
  }

  lemma NamedIsNamed(s: State)
    ensures s.policies == map["p" := COMPILED] ==> Namers(s.policies, G.Group()) == {"p"}
    ensures s.policies == map[] ==> Namers(s.policies, G.Group()) == {}
  {
    Naming();
    assert COMPILED.Names(G.Group());
  }

  lemma GroupDeleted(s: State)
    requires Is(s, map[0 := Object({"m"}, Init, false, Failed, Some(CreateOp))], map[G := 0], map["p" := COMPILED],
                WAITING, [CREATE])
    ensures Is(DeleteImpl(s, 0, None), map[0 := Object({"m"}, Init, true, Failed, Some(CreateOp))], map[G := 0],
               map["p" := COMPILED], WAITING, [CREATE])
  {
    NamedIsNamed(s);
  }

  /** A deletion no policy holds up drops the group as never created. */
  lemma GroupDropped(s: State, deletePending: bool)
    requires Is(s, map[0 := Object({"m"}, Init, deletePending, Failed, Some(CreateOp))], map[G := 0], map[], WAITING,
                [CREATE])
    ensures Is(DeleteImpl(s, 0, None), map[0 := Object({"m"}, Init, deletePending, Failed, None)], map[], map[], map[],
               [CREATE])
    ensures DeleteImpl(s, 0, None).pendingDelete == Expect(s, G.Group()).pendingDelete
    ensures DeleteImpl(s, 0, None).next == s.next
    ensures DeleteImpl(s, 0, None).past.overlapped == s.past.overlapped
  {
    hide IssueDelete;
    NamedIsNamed(s);
  }

  /**
   A group is added; before the cloud has answered, a synchronization with a cloud that lacks it adds it again; the
   first Create fails; the group and then the policy naming it are deleted, which drops the group as never created; the
   second Create fails too, and its retry files the group again: indexed, pending deletion, and named by nobody.
   */
  lemma OverlapLeavesOrphan()
    returns (s0: State, s1: State, s2: State, s3: State, s4: State, s5: State, s6: State, s7: State)
    ensures s0 == WithPolicy() && s1 == Added(s0) && Settled(s0) && Settled(s1) && !s1.past.overlapped
    ensures 0 in s1.groups && s2 == Synced(s1, 0, false, false) && s2.past.overlapped
    ensures Answerable(s2, 0) && s2.inflight[0] == CREATE && s3 == FailedAnswer(s2, 0, CreateOp)
    ensures 0 in s3.groups && s4 == DeleteImpl(s3, 0, None)
    ensures 0 in s4.groups && s5 == DeleteImpl(s4.(policies := s4.policies - {"p"}), 0, None)
    ensures Answerable(s5, 0) && s5.inflight[0] == CREATE && s6 == FailedAnswer(s5, 0, CreateOp)
    ensures SgKey(G) in s6.retryQueue && Held(s6, SgKey(G)) && s7 == TickItem(s6, s6.retryQueue[SgKey(G)])
    ensures G in Orphans(s7.index, s7.groups, s7.policies)
  {
    hide Settled, AddImpl, DeleteImpl, FailedAnswer, TickItem, Synced, Added, WithPolicy, Held, Answerable;
    s0 := WithPolicy();
    PolicyArrives();
    GroupArrives(s0);
    GroupAdded(s0);
    s1 := Added(s0);
    AddedAgain(s1, map["p" := COMPILED]);
    s2 := Synced(s1, 0, false, false);
    CreateFails(s2, s2.groups, s2.index, s2.policies, s2.inflight);
    s3 := FailedAnswer(s2, 0, CreateOp);
    GroupDeleted(s3);
    s4 := DeleteImpl(s3, 0, None);
    assert s4.policies - {"p"} == map[];
    var s := s4.(policies := s4.policies - {"p"});
    GroupDropped(s, true);
    s5 := DeleteImpl(s, 0, None);
    CreateFails(s5, s5.groups, s5.index, s5.policies, s5.inflight);
    s6 := FailedAnswer(s5, 0, CreateOp);
    RetryFiles(s6, s6.groups, s6.index, s6.policies, s6.inflight);
    s7 := TickItem(s6, s6.retryQueue[SgKey(G)]);
    NamedIsNamed(s7);
  }

  // ---------------------------------------------------------------- a group without policies

  /** A group with one member appears. */
  function Appeared(): State {
    AddImpl(GroupMachine.Allocate(START, G, {"m"}, Init), 0, None)
  }

  lemma AppearedIs()
    ensures Is(Appeared(), map[0 := Object({"m"}, Init, false, InProgress, None)], map[G := 0], map[], map[], [CREATE])
    ensures !Appeared().past.panicked && !Appeared().past.overlapped && Appeared().next == 1
    ensures Appeared().pendingDelete == map[]
  {
  }

  lemma AppearedSettled()
    ensures Settled(Appeared())
  {
    hide Settled, Inv, Evolves, Moves, NewlyStale, AddImpl;
    AppearedIs();
    var s := GroupMachine.Allocate(START, G, {"m"}, Init);
    StartSettled();
    SettledLeft(START);
    AllocateKeeps(START, G, {"m"}, Init);
    AddImplKeeps(s, 0, None);
    KeptGrown(START, s, G.Group());
    GrownTrans(START, s, Appeared(), G.Group());
    KeptSelf(Appeared());
    GrownKept(START, Appeared(), Appeared(), G.Group());
    KeptSettled(START, Appeared());
  }

  /** The Create of an address group no policy names has succeeded, and its members are sent. */
  function Acknowledged(s: State, i: nat): State
    requires i < |s.inflight| && s.inflight[i].ref in s.groups
  {
    var g := s.inflight[i].ref;
    Rest(UpdateImpl(Confirm(Put(Answer(s, i, CreateOp), g, s.groups[g].(status := Fine)), g), g, {}, {}, None))
  }

  lemma MembersSent(s: State)
    requires Is(s, map[0 := Object({"m"}, Init, false, InProgress, None)], map[G := 0], map[], map[], [CREATE])
    ensures Is(Acknowledged(s, 0), map[0 := Object({"m"}, Created, false, Fine, None)], map[G := 0], map[], map[],
               [UPDATE])
    ensures Acknowledged(s, 0).past.panicked == s.past.panicked
    ensures Acknowledged(s, 0).past.overlapped == s.past.overlapped
  {
    assert Drop(s.inflight, 0) == [] && {"m"} - {} + {} == {"m"};
  }

  lemma AcknowledgedSettled(s: State)
    requires Settled(s)
    requires Is(s, map[0 := Object({"m"}, Init, false, InProgress, None)], map[G := 0], map[], map[], [CREATE])
    ensures Settled(Acknowledged(s, 0))
  {
    var s1 := Answer(s, 0, CreateOp);
    var s2 := Put(s1, 0, s.groups[0].(status := Fine));
    var s3 := Confirm(s2, 0);
    assert Drop(s.inflight, 0) == [];
    hide Settled, Inv, Evolves, UpdateImpl, Namers, Onward, Patient;
    SettledLeft(s);
    AnswerKeeps(s, 0, CreateOp);
    PutKeeps(s1, 0, s2.groups[0]);
    ConfirmKeeps(s2, 0);
    KeptTrans(s1, s2, s3);
    UpdateImplKeeps(s3, 0, {}, {}, None);
    KeptTrans(s1, s3, UpdateImpl(s3, 0, {}, {}, None));
    AnsweredKeeps(s, 0, CreateOp, UpdateImpl(s3, 0, {}, {}, None));
    KeptSettled(s, Acknowledged(s, 0));
  }

  /** Members join or leave. */
  lemma UpdateSettled(s: State, added: set<string>, removed: set<string>)
    requires Settled(s) && s.index == map[G := 0]
    ensures 0 in s.groups && Settled(UpdateImpl(s, 0, added, removed, None))
  {
    hide Settled, Inv, Evolves;
    SettledLeft(s);
    FiledLive(s, G);
    UpdateImplKeeps(s, 0, added, removed, None);
    KeptSettled(s, UpdateImpl(s, 0, added, removed, None));
  }

  /** A request fails. */
  lemma FailureSettled(s: State, i: nat, op: Op)
    requires Settled(s) && MayAnswer(s, i, op)
    ensures Answerable(s, i) && Settled(FailedAnswer(s, i, op))
  {
    hide Settled, Inv, Evolves, FailedAnswer;
    SettledLeft(s);
    FailedAnswerKeeps(s, i, op);
    KeptSettled(s, FailedAnswer(s, i, op));
  }

  /** A tick turns to an item. */
  lemma TickSettled(s: State, id: Id)
    requires Settled(s) && SgKey(id) in s.retryQueue
    ensures Held(s, SgKey(id)) && Settled(TickItem(s, s.retryQueue[SgKey(id)]))
  {
    hide Settled, Inv, Evolves, TickItem, InRecord;
    SettledLeft(s);
    QueuedLive(s, SgKey(id));
    TickItemKeeps(s, s.retryQueue[SgKey(id)]);
    KeptSettled(s, TickItem(s, s.retryQueue[SgKey(id)]));
  }

  // ---------------------------------------------------------------- a retry panics

  /** A request about the members of an empty group has failed: the retry of a ClearMembers is armed. */
  lemma ClearFails(s: State)
    requires Is(s, map[0 := Object({}, Created, false, Fine, None)], map[G := 0], map[], map[], [UPDATE, UPDATE])
    ensures Answerable(s, 0)
    ensures Is(FailedAnswer(s, 0, ClearMembersOp), map[0 := Object({}, Created, false, Failed, Some(ClearMembersOp))],
               map[G := 0], map[], WAITING, [UPDATE])
    ensures FailedAnswer(s, 0, ClearMembersOp).past.panicked == s.past.panicked
  {
    assert Drop(s.inflight, 0) == [UPDATE];
  }

  lemma Emptied(s: State)
    requires Is(s, map[0 := Object({"m"}, Created, false, Fine, None)], map[G := 0], map[], map[], [UPDATE])
    ensures Is(UpdateImpl(s, 0, {}, {"m"}, None), map[0 := Object({}, Created, false, Fine, None)], map[G := 0], map[],
               map[], [UPDATE, UPDATE])
    ensures UpdateImpl(s, 0, {}, {"m"}, None).past.panicked == s.past.panicked
  {
    assert {"m"} - {"m"} + {} == {};
  }

  /**
   An address group is created and then emptied; one of the requests about its members fails, which counts as a failed
   ClearMembers since the group is empty; on the next tick the retry panics.
   */
  lemma ClearingPanics() returns (s0: State, s1: State, s2: State, s3: State, s4: State)
    ensures s0 == Appeared() && Settled(s0) && Answerable(s0, 0)
    ensures s1 == Acknowledged(s0, 0) && Settled(s1) && 0 in s1.groups
    ensures s2 == UpdateImpl(s1, 0, {}, {"m"}, None) && Settled(s2) && Answerable(s2, 0)
    ensures s3 == FailedAnswer(s2, 0, ClearMembersOp) && Settled(s3) && !s3.past.panicked
    ensures SgKey(G) in s3.retryQueue && Held(s3, SgKey(G)) && s4 == TickItem(s3, s3.retryQueue[SgKey(G)])
    ensures s4.past.panicked
  {
    hide Settled, Acknowledged, FailedAnswer, UpdateImpl, Appeared;
    s0 := Appeared();
    AppearedIs();
    AppearedSettled();
    s1 := Acknowledged(s0, 0);
    MembersSent(s0);
    AcknowledgedSettled(s0);
    s2 := UpdateImpl(s1, 0, {}, {"m"}, None);
    Emptied(s1);
    UpdateSettled(s1, {}, {"m"});
    s3 := FailedAnswer(s2, 0, ClearMembersOp);
    ClearFails(s2);
    FailureSettled(s2, 0, ClearMembersOp);
    s4 := TickItem(s3, s3.retryQueue[SgKey(G)]);
  }

  // ---------------------------------------------------------------- a retry is stranded

  lemma UpdateFails(s: State)
    requires Is(s, map[0 := Object({"m"}, Created, false, Fine, None)], map[G := 0], map[], map[], [UPDATE])
    ensures Answerable(s, 0)
    ensures Is(FailedAnswer(s, 0, UpdateMembersOp),
               map[0 := Object({"m"}, Created, false, Failed, Some(UpdateMembersOp))], map[G := 0], map[], WAITING, [])
    ensures FailedAnswer(s, 0, UpdateMembersOp).past.overlapped == s.past.overlapped
  {
    assert Drop(s.inflight, 0) == [];
  }

  /** While a retry is armed, members are only noted. */
  lemma Noted(s: State, o: SecurityGroup, queue: map<QueueKey, RetryItem>, added: set<string>, removed: set<string>)
    requires Is(s, map[0 := o], map[G := 0], map[], queue, []) && o.state == Created && o.retryOp.Some?
    requires added + removed != {}
    ensures Is(UpdateImpl(s, 0, added, removed, None), map[0 := o.(members := o.members - removed + added)],
               map[G := 0], map[], queue, [])
    ensures UpdateImpl(s, 0, added, removed, None).past.overlapped == s.past.overlapped
  {
  }

  /** The retry finds no members to send. */
  lemma NothingToSend(s: State)
    requires Is(s, map[0 := Object({}, Created, false, Failed, Some(UpdateMembersOp))], map[G := 0], map[], WAITING, [])
    ensures SgKey(G) in s.retryQueue && Held(s, SgKey(G))
    ensures Is(TickItem(s, s.retryQueue[SgKey(G)]),
               map[0 := Object({}, Created, false, Failed, Some(UpdateMembersOp)).(retryInProgress := true)],
               map[G := 0], map[], map[SgKey(G) := SgItem(0, OPERATION_COUNT - 1, 1, 1)], [])
    ensures TickItem(s, s.retryQueue[SgKey(G)]).past.overlapped == s.past.overlapped
  {
    var item := s.retryQueue[SgKey(G)];
    var s1 := Put(s, 0, s.groups[0].(retryOp := None));
    assert Reissue(s1, 0, UpdateMembersOp) == s1;
    assert RunItem(s, 0) == Put(s1, 0, s1.groups[0].(retryOp := Some(UpdateMembersOp), retryInProgress := true));
  }

  lemma NothingAwaited(s: State, o: SecurityGroup, queue: map<QueueKey, RetryItem>)
    requires Settled(s) && Is(s, map[0 := o], map[G := 0], map[], queue, []) && o.state == Created && !Runs(o)
    ensures Stranded(s, 0)
  {
  }

  /**
   An address group is created, and the request that sends its member fails; the member leaves, so the retry finds
   nothing to send. Now the retry waits for an answer to a request that was never made: a member joins, and the cloud
   is not told of it.
   */
  lemma RetryStrands() returns (s0: State, s1: State, s2: State, s3: State, s4: State, s5: State)
    ensures s0 == Appeared() && Settled(s0) && Answerable(s0, 0)
    ensures s1 == Acknowledged(s0, 0) && Settled(s1) && Answerable(s1, 0) && s1.inflight[0] == UPDATE
    ensures s2 == FailedAnswer(s1, 0, UpdateMembersOp) && Settled(s2) && 0 in s2.groups
    ensures s3 == UpdateImpl(s2, 0, {}, {"m"}, None) && Settled(s3)
    ensures SgKey(G) in s3.retryQueue && Held(s3, SgKey(G)) && s4 == TickItem(s3, s3.retryQueue[SgKey(G)])
    ensures Settled(s4) && !s4.past.overlapped && s4.inflight == [] && 0 in s4.groups && s4.groups[0].members == {}
    ensures Stranded(s4, 0)
    ensures s5 == UpdateImpl(s4, 0, {"k"}, {}, None) && Settled(s5) && s5.inflight == [] && Stranded(s5, 0)
    ensures 0 in s5.groups && s5.groups[0].members == {"k"} && s5.groups[0].state == Created
  {
    hide Settled, Acknowledged, FailedAnswer, UpdateImpl, Appeared, TickItem, Stranded;
    s0 := Appeared();
    AppearedIs();
    AppearedSettled();
    s1 := Acknowledged(s0, 0);
    MembersSent(s0);
    AcknowledgedSettled(s0);
    s2 := FailedAnswer(s1, 0, UpdateMembersOp);
    UpdateFails(s1);
    FailureSettled(s1, 0, UpdateMembersOp);
    s3 := UpdateImpl(s2, 0, {}, {"m"}, None);
    Noted(s2, s2.groups[0], WAITING, {}, {"m"});
    UpdateSettled(s2, {}, {"m"});
    assert {"m"} - {"m"} + {} == {};
    s4 := TickItem(s3, s3.retryQueue[SgKey(G)]);
    NothingToSend(s3);
    TickSettled(s3, G);
    NothingAwaited(s4, s4.groups[0], s4.retryQueue);
    s5 := UpdateImpl(s4, 0, {"k"}, {}, None);
    Noted(s4, s4.groups[0], s4.retryQueue, {"k"}, {});
    UpdateSettled(s4, {"k"}, {});
    NothingAwaited(s5, s5.groups[0], s5.retryQueue);
  }

  // ---------------------------------------------------------------- rules that miss a group

  /** A policy naming the group appears while the group is not indexed. */
  lemma PolicyUnresolved(s: State)
    requires s.index == map[]
    ensures Recomputed(s.(policies := map["p" := NAMER]), "p") == s.(policies := map["p" := NAMER])
  {
    Naming();
    assert Members(s.index, GroupName(Addr, "g")) == {};
    assert !AllKnown(s.index, NAMER.rules);
  }

  lemma FiledIsStale(s: State)
    requires G in s.index && s.policies == map["p" := NAMER]
    ensures StaleRefs(s.index, s.policies["p"])
  {
    Naming();
    assert G in Members(s.index, GroupName(Addr, "g")) && G in Resolved(s.index, NAMER.rules);
  }

  /**
   A group is added; before the cloud has answered, a synchronization with a cloud that lacks it adds it again; the
   first Create fails, and the group is deleted, which drops it as never created.
   */
  ghost predicate Dropped(s0: State, s1: State, s2: State, s3: State) {
    && s0 == Appeared() && 0 in s0.groups && s1 == Synced(s0, 0, false, false) && Answerable(s1, 0)
    && s1.inflight[0] == CREATE && s2 == FailedAnswer(s1, 0, CreateOp)
    && 0 in s2.groups && s3 == DeleteImpl(s2, 0, None)
  }

  const FIRST := Object({"m"}, Init, false, Failed, None)

  lemma DroppedWhileAdded() returns (s0: State, s1: State, s2: State, s3: State)
    ensures Dropped(s0, s1, s2, s3) && Settled(s0) && s1.past.overlapped
    ensures Is(s3, map[0 := FIRST], map[], map[], map[], [CREATE])
    ensures s3.pendingDelete == map[G.Group() := PENDING_DELETE] && s3.next == 1
  {
    hide Settled, Appeared, Synced, FailedAnswer, DeleteImpl, Answerable;
    s0 := Appeared();
    AppearedIs();
    AppearedSettled();
    AddedAgain(s0, map[]);
    s1 := Synced(s0, 0, false, false);
    CreateFails(s1, s1.groups, s1.index, s1.policies, s1.inflight);
    s2 := FailedAnswer(s1, 0, CreateOp);
    GroupDropped(s2, false);
    s3 := DeleteImpl(s2, 0, None);
  }

  /**
   A group whose Creates overlap is dropped while one is in flight. That fails, and a policy naming the group appears
   and finds nothing; the retry files the group again, and the policy's rules know nothing of it.
   */
  lemma OverlapLeavesStale() returns (s0: State, s1: State, s2: State, s3: State, s4: State, s5: State, s6: State)
    ensures Dropped(s0, s1, s2, s3) && Settled(s0) && s1.past.overlapped
    ensures Answerable(s3, 0) && s3.inflight[0] == CREATE && s4 == FailedAnswer(s3, 0, CreateOp)
    ensures s5 == Recomputed(s4.(policies := map["p" := NAMER]), "p")
    ensures SgKey(G) in s5.retryQueue && Held(s5, SgKey(G)) && s6 == TickItem(s5, s5.retryQueue[SgKey(G)])
    ensures "p" in s6.policies && StaleRefs(s6.index, s6.policies["p"])
  {
    hide Settled, Dropped, FailedAnswer, Answerable, TickItem, StaleRefs, Recomputed, Held;
    s0, s1, s2, s3 := DroppedWhileAdded();
    CreateFails(s3, s3.groups, s3.index, s3.policies, s3.inflight);
    s4 := FailedAnswer(s3, 0, CreateOp);
    PolicyUnresolved(s4);
    s5 := s4.(policies := map["p" := NAMER]);
    RetryFiles(s5, s5.groups, s5.index, s5.policies, s5.inflight);
    s6 := TickItem(s5, s5.retryQueue[SgKey(G)]);
    FiledIsStale(s6);
  }

  // ---------------------------------------------------------------- rules about a group that is not there

  function Second(status: Status): SecurityGroup { Object({}, Garbage, false, status, None) }

  /** A synchronization finds the group in the cloud, and deletes what it does not know. */
  function Found(s: State): State {
    DeleteImpl(GroupMachine.Allocate(s, G, {}, Created), s.next, None)
  }

  lemma DeletesFound(s: State)
    requires Is(s, map[0 := FIRST], map[], map[], map[], [CREATE]) && s.next == 1
    requires s.pendingDelete == map[G.Group() := PENDING_DELETE]
    ensures Is(Found(s), map[0 := FIRST, 1 := Second(InProgress)], map[], map[], map[],
               [CREATE, Call(1, G, DeleteCall)])
    ensures G.Group() in Found(s).pendingDelete && RefCnt(Found(s).pendingDelete, G.Group()) == 1 && Found(s).next == 2
  {
    NamedIsNamed(s);
    var s1 := GroupMachine.Allocate(s, G, {}, Created);
    var s2 := Unfile(s1, 1, Garbage);
    assert s2.groups == map[0 := FIRST, 1 := Object({}, Garbage, false, Fine, None)] && s2.index == map[];
    assert Found(s) == IssueDelete(s2, 1, None);
  }

  /** A Delete of an object with nothing queued succeeds, and nothing is left to be expected of the group. */
  function DeleteDone(s: State, i: nat): State
    requires i < |s.inflight| && s.inflight[i].ref in s.groups && s.inflight[i].id.Group() in s.pendingDelete
  {
    var g := s.inflight[i].ref;
    Forget(CountDown(Put(s, g, s.groups[g].(status := Fine)), i, true), s.inflight[i].id.Group())
  }

  lemma ForgetsDeleted(s: State)
    requires Is(s, map[0 := FIRST, 1 := Second(InProgress)], map[], map[], map[], [CREATE, Call(1, G, DeleteCall)])
    requires G.Group() in s.pendingDelete && s.next == 2
    ensures SettleRetry(TakenUp(s, 1, DeleteOp, false), 1, DeleteOp, false) ==
              Put(s, 1, s.groups[1].(status := Fine))
    ensures var t := DeleteDone(s, 1);
            && Is(t, map[0 := FIRST, 1 := Second(Fine)], map[], map[], map[], [CREATE])
            && G.Group() !in t.pendingDelete && t.next == 2
  {
    assert Drop(s.inflight, 1) == [CREATE];
  }

  /** The group appears again, and is created. */
  function Readded(s: State): State {
    AddImpl(GroupMachine.Allocate(s, G, {"m"}, Init), s.next, None)
  }

  function Third(state: GroupState, status: Status): SecurityGroup { Object({"m"}, state, false, status, None) }

  lemma AppearsAgain(s: State)
    requires Is(s, map[0 := FIRST, 1 := Second(Fine)], map[], map[], map[], [CREATE]) && s.next == 2
    ensures Is(Readded(s), map[0 := FIRST, 1 := Second(Fine), 2 := Third(Init, InProgress)], map[G := 2], map[], map[],
               [CREATE, Call(2, G, CreateCall)])
  {
  }

  lemma CreatedAgain(s: State)
    requires Is(s, map[0 := FIRST, 1 := Second(Fine), 2 := Third(Init, InProgress)], map[G := 2], map[], map[],
                [CREATE, Call(2, G, CreateCall)])
    ensures Is(Acknowledged(s, 1), map[0 := FIRST, 1 := Second(Fine), 2 := Third(Created, Fine)], map[G := 2], map[],
               map[], [CREATE, Call(2, G, MembersCall)])
  {
    assert Drop(s.inflight, 1) == [CREATE] && {"m"} - {} + {} == {"m"};
  }

  /** A policy naming the group appears, and its rules are ready at once. */
  lemma PolicyReady(s: State)
    requires s.index == map[G := 2] && 2 in s.groups && s.groups[2] == Third(Created, Fine) && s.blocks == Blocks(map[])
    ensures Recomputed(s.(policies := map["p" := NAMER]), "p") ==
              s.(policies := map["p" := COMPILED.(ready := true)])
  {
    var t := s.(policies := map["p" := NAMER]);
    Naming();
    assert Members(t.index, GroupName(Addr, "g")) == {G};
    assert AllKnown(t.index, NAMER.rules) && Resolved(t.index, NAMER.rules) == {G};
    assert ResolvedIps(t.blocks.ips, NAMER.rules) == map[];
    assert AllReady(t.index, t.groups, NAMER.rules);
    Compiles({G}, map[]);
    assert Computed(t, NAMER) == COMPILED.(ready := true);
  }

  /**
   A group whose Creates overlap is dropped while one is in flight. A synchronization finds it in the cloud and deletes
   it there; it is added again and created, and a policy that names it is ready. Then the old Create fails, and its
   retry files the object that was dropped: the policy's rules are ready and about a group that is not created.
   */
  lemma OverlapLeavesUncreated()
    returns (s0: State, s1: State, s2: State, s3: State, s4: State, s5: State, s6: State, s7: State, s8: State,
             s9: State, s10: State)
    ensures Dropped(s0, s1, s2, s3) && Settled(s0) && s1.past.overlapped
    ensures s4 == Found(s3) && |s4.inflight| == 2 && s4.inflight[1] == Call(1, G, DeleteCall)
    ensures 1 in s4.groups && G.Group() in s4.pendingDelete && RefCnt(s4.pendingDelete, G.Group()) == 1
    ensures s5 == DeleteDone(s4, 1) && G.Group() !in s5.pendingDelete && s6 == Readded(s5)
    ensures |s6.inflight| == 2 && s6.inflight[1] == Call(2, G, CreateCall) && 2 in s6.groups
    ensures s7 == Acknowledged(s6, 1) && s8 == Recomputed(s7.(policies := map["p" := NAMER]), "p")
    ensures Answerable(s8, 0) && s8.inflight[0] == CREATE && s9 == FailedAnswer(s8, 0, CreateOp)
    ensures SgKey(G) in s9.retryQueue && Held(s9, SgKey(G)) && s10 == TickItem(s9, s9.retryQueue[SgKey(G)])
    ensures "p" in s10.policies && s10.policies["p"].ready && G in s10.policies["p"].refs
    ensures s10.index == map[G := 0] && 0 in s10.groups && s10.groups[0].state == Init
  {
    hide Settled, Dropped, Found, DeleteDone, Readded, Acknowledged, Recomputed, FailedAnswer, TickItem, Answerable,
        Held, RefCnt;
    s0, s1, s2, s3 := DroppedWhileAdded();
    DeletesFound(s3);
    s4 := Found(s3);
    ForgetsDeleted(s4);
    s5 := DeleteDone(s4, 1);
    AppearsAgain(s5);
    s6 := Readded(s5);
    CreatedAgain(s6);
    s7 := Acknowledged(s6, 1);
    PolicyReady(s7);
    s8 := s7.(policies := map["p" := COMPILED.(ready := true)]);
    CreateFails(s8, s8.groups, s8.index, s8.policies, s8.inflight);
    s9 := FailedAnswer(s8, 0, CreateOp);
    RetryFiles(s9, s9.groups, s9.index, s9.policies, s9.inflight);
    s10 := TickItem(s9, s9.retryQueue[SgKey(G)]);
  }

  // ---------------------------------------------------------------- addresses nobody has

  const B := Id(Addr, "g", "")
  const X := Prefix(1, 32)

  /** The group appears with one address, and the policy is recomputed. */
  ghost function Addressed(s: State): State
    requires "p" in s.policies
  {
    Recomputed(FileIps(GroupMachine.Allocate(s, B, {}, Init), s.next, {X}), "p")
  }

  lemma AddressedSettled(s: State)
    requires Settled(s) && s == START.(policies := map["p" := NAMER])
    ensures Settled(Addressed(s)) && !Addressed(s).past.overlapped
  {
    var s0 := GroupMachine.Allocate(s, B, {}, Init);
    var s1 := FileIps(s0, 0, {X});
    Naming();
    assert Namers(Addressed(s).policies, B.Group()) <= {"p"};
    hide Settled, Inv, Evolves, Moves, NewlyStale, Computed;
    SettledLeft(s);
    AllocateKeeps(s, B, {}, Init);
    FileIpsGrows(s0, 0, {X});
    KeptGrown(s, s0, B.Group());
    GrownTrans(s, s0, s1, B.Group());
    ComputedKeeps(s1, "p");
    ComputedFresh(s1, "p");
    GrownKept(s, s1, Addressed(s), B.Group());
    KeptSettled(s, Addressed(s));
  }

  lemma AddressCompiled(s: State)
    requires s == START.(policies := map["p" := NAMER])
    ensures Addressed(s).policies == map["p" := NAMER.(ips := map["g" := {X}], compiled := true, ready := true)]
    ensures Addressed(s).blocks.ips == map["g" := {X}]
  {
    var t := FileIps(GroupMachine.Allocate(s, B, {}, Init), 0, {X});
    Naming();
    assert Members(t.index, GroupName(Addr, "g")) == {B};
    assert AllKnown(t.index, NAMER.rules) && Resolved(t.index, NAMER.rules) == {};
    assert ResolvedIps(t.blocks.ips, NAMER.rules) == map["g" := {X}];
    assert AllReady(t.index, t.groups, NAMER.rules);
    Compiles({}, map["g" := {X}]);
  }

  lemma AddressErased(s: State)
    requires s.policies == map["p" := NAMER.(ips := map["g" := {X}], compiled := true, ready := true)]
    requires s.blocks.ips == map["g" := {X}]
    ensures var t := Erase(s, B);
            && t.blocks.ips == map[] && B !in t.index
            && t.policies == map["p" := NAMER.(ips := map["g" := {X}], compiled := true, ready := true, lost := {"g"})]
  {
    assert NAMER.lost + {"g"} == {"g"};
  }

  /** A group is deleted while a policy names it: the policy's rules keep an address no group has. */
  lemma DeletionForsakes() returns (s0: State, s1: State, s2: State)
    ensures s0 == WithPolicy() && s1 == Addressed(s0) && s2 == Erase(s1, B)
    ensures Settled(s0) && Settled(s1) && Settled(s2) && !s2.past.overlapped
    ensures "p" in s2.policies && s2.policies["p"].ready && s2.policies["p"].ips == map["g" := {X}]
    ensures B !in s2.index && s2.blocks.ips == map[] && s2.policies["p"].lost == {"g"}
    ensures !Within(s2.policies["p"].ips, ResolvedIps(s2.blocks.ips, s2.policies["p"].rules))
  {
    hide Settled, Inv, Evolves, Addressed, WithPolicy, RemoteAddressGroups, Lose;
    s0 := WithPolicy();
    PolicyArrives();
    AddressedSettled(s0);
    AddressCompiled(s0);
    s1 := Addressed(s0);
    s2 := Erase(s1, B);
    AddressErased(s1);
    SettledLeft(s1);
    EraseKeeps(s1, B);
    KeptSettled(s1, s2);
  }
}
