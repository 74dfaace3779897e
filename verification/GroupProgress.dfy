/** What a change of policies sets in motion: which requests must have been issued once it has been handled. */
module GroupProgress {
  import opened PolicyTypes
  import opened GroupMachine

  /** The request updateRules makes for a group, if any. */
  function OwedRequest(policies: map<string, Policy>, o: SecurityGroup): Option<CallKind> {
    var namers := Namers(policies, o.id.Group());
    if o.state != Created || o.retryOp.Some? then None
    else if namers == {} then if o.hasMembers then Some(ClearCall) else None
    else if exists p :: p in namers && !policies[p].ready then None
    else Some(RulesCall(RuleRefs(policies, o.id.Group())))
  }

  function RulesRequest(s: State, g: Ref): Option<CallKind>
    requires g in s.groups
  {
    OwedRequest(s.policies, s.groups[g])
  }

  /** The deletion of a filed security group has been waiting for policies, and no policy names it any more. */
  predicate Due(s: State, id: Id) {
    && id in s.index && s.index[id] in s.groups && !id.IpBlocks()
    && s.groups[s.index[id]].deletePending && Namers(s.policies, id.Group()) == {}
  }

  /** A filed object has gone, and its Delete has been sent unless nothing was ever asked of the cloud for it. */
  ghost predicate Dismissed(s: State, t: State, id: Id)
    requires id in s.index && s.index[id] in s.groups
  {
    var o := s.groups[s.index[id]];
    id !in t.index &&
    (o.state == Created || o.status == InProgress ==> Sent(s.inflight, t.inflight, Call(s.index[id], id, DeleteCall)))
  }

  /**
   A group whose deletion is due has gone, and an indexed appliedTo group that is not about to go has been sent what it
   is owed as of s.
   */
  ghost predicate Pushed(s: State, t: State, id: Id) {
    && (Due(s, id) ==> Dismissed(s, t, id))
    && (id.kind == AppliedTo && id in s.index && s.index[id] in s.groups && !s.groups[s.index[id]].deletePending ==>
          (RulesRequest(s, s.index[id]).Some? ==>
              Sent(s.inflight, t.inflight, Call(s.index[id], id, RulesRequest(s, s.index[id]).value))))
  }

  /** The request is in flight and was not before. */
  ghost predicate Sent(before: seq<Call>, after: seq<Call>, c: Call) {
    exists i :: |before| <= i < |after| && after[i] == c
  }

  /** Objects other than g, or all but those of a group, are as they were. */
  ghost predicate Untouched(s: State, t: State, g: Ref) {
    forall r :: r in s.groups && r != g ==> r in t.groups && t.groups[r] == s.groups[r]
  }

  ghost predicate OnlyGroup(s: State, t: State, kind: Kind, names: seq<string>) {
    && s.inflight <= t.inflight && (forall id :: id in t.index ==> id in s.index)
    && (forall r :: r in s.groups && !(s.groups[r].id.kind == kind && s.groups[r].id.name in names) ==>
          r in t.groups && t.groups[r] == s.groups[r])
    && (forall id: Id :: !(id.kind == kind && id.name in names) ==>
          (id in s.index <==> id in t.index) && (id in s.index ==> t.index[id] == s.index[id]))
  }

  /** Nothing has been created or deleted, and nothing has changed its state. */
  ghost predicate SameStates(a: map<Ref, SecurityGroup>, b: map<Ref, SecurityGroup>) {
    a.Keys == b.Keys && forall r :: r in a ==> a[r].id == b[r].id && a[r].state == b[r].state
  }

  /** Readiness is a matter of states. */
  lemma ReadyFrame(index: map<Id, Ref>, a: map<Ref, SecurityGroup>, b: map<Ref, SecurityGroup>, rules: seq<PolicyRule>)
    requires SameStates(a, b)
    ensures AllReady(index, a, rules) <==> AllReady(index, b, rules)
  {
    forall g ensures GroupReady(index, a, g) <==> GroupReady(index, b, g) {}
  }

  lemma StatesTrans(a: map<Ref, SecurityGroup>, b: map<Ref, SecurityGroup>, c: map<Ref, SecurityGroup>)
    requires SameStates(a, b) && SameStates(b, c)
    ensures SameStates(a, c)
  {
  }

  lemma StatesSelf(a: map<Ref, SecurityGroup>)
    ensures SameStates(a, a)
  {
  }

  lemma StateShows(a: map<Ref, SecurityGroup>, b: map<Ref, SecurityGroup>, g: Ref)
    requires SameStates(a, b) && g in a
    ensures g in b && b[g].state == a[g].state
  {
  }

  lemma EmitAppends(s: State, g: Ref, what: CallKind, retried: Option<Op>)
    requires g in s.groups
    ensures Emit(s, g, what, retried).inflight == s.inflight + [Call(g, s.groups[g].id, what)]
    ensures Emit(s, g, what, retried).groups == s.groups && Emit(s, g, what, retried).synced == s.synced
  {
  }

  lemma UpdateRulesIssues(s: State, g: Ref, retried: Option<Op>)
    requires g in s.groups
    ensures var t := UpdateRules(s, g, retried);
            && t.inflight == s.inflight + (if RulesRequest(s, g).Some?
                  then [Call(g, s.groups[g].id, RulesRequest(s, g).value)] else [])
            && Untouched(s, t, g) && t.synced == s.synced
            && (RulesRequest(s, g).Some? ==> Sent(s.inflight, t.inflight,
                  Call(g, s.groups[g].id, RulesRequest(s, g).value)))
  {
    hide Namers, RuleRefs, Emit;
    if RulesRequest(s, g).Some? {
      EmitAppends(s, g, RulesRequest(s, g).value, retried);
      assert UpdateRules(s, g, retried).inflight[|s.inflight|] == Call(g, s.groups[g].id, RulesRequest(s, g).value);
    }
  }

  lemma UpdateRulesStates(s: State, g: Ref, retried: Option<Op>)
    requires g in s.groups
    ensures SameStates(s.groups, UpdateRules(s, g, retried).groups)
  {
    hide Namers, RuleRefs, Emit;
    forall what ensures Emit(s, g, what, retried).groups == s.groups {
      EmitAppends(s, g, what, retried);
    }
  }

  lemma UpdateImplStates(s: State, g: Ref, added: set<string>, removed: set<string>, retried: Option<Op>)
    requires g in s.groups
    ensures SameStates(s.groups, UpdateImpl(s, g, added, removed, retried).groups)
    ensures UpdateImpl(s, g, added, removed, retried).synced == s.synced
  {
    hide Emit;
    EmitAppends(Merge(s, g, added, removed), g, MembersCall, retried);
  }

  lemma IssueDeleteFrame(s: State, g: Ref, retried: Option<Op>)
    requires g in s.groups && s.groups[g].id.Group() in s.pendingDelete
    ensures Untouched(s, IssueDelete(s, g, retried), g)
  {
    hide Emit;
    var s1 := CountUp(Put(s, g, s.groups[g].(status := InProgress)), s.groups[g].id.Group());
    EmitAppends(s1, g, DeleteCall, retried);
  }

  lemma ReleaseFrame(s: State, g: Ref, retried: Option<Op>)
    requires g in s.groups && s.groups[g].id.Group() in s.pendingDelete
    ensures Untouched(s, Release(s, g, retried), g)
  {
    hide IssueDelete;
    IssueDeleteFrame(Unfile(s, g, Garbage), g, retried);
  }

  lemma DeleteImplFrame(s: State, g: Ref, retried: Option<Op>)
    requires g in s.groups
    ensures Untouched(s, DeleteImpl(s, g, retried), g)
  {
    hide Namers, IssueDelete, Release;
    var s1 := Expect(s, s.groups[g].id.Group());
    if s.groups[g].state == Garbage {
      if s.groups[g].retryOp.None? {
        IssueDeleteFrame(s1, g, retried);
      }
    } else if Namers(s.policies, s.groups[g].id.Group()) == {} {
      ReleaseFrame(s1, g, retried);
    }
  }

  /** deleteImpl of a group no policy names. */
  lemma DeleteDismisses(s: State, id: Id)
    requires id in s.index && s.index[id] in s.groups && s.groups[s.index[id]].id == id
    requires s.groups[s.index[id]].state != Garbage && Namers(s.policies, id.Group()) == {}
    ensures Dismissed(s, DeleteImpl(s, s.index[id], None), id)
  {
    var g := s.index[id];
    var t := DeleteImpl(s, g, None);
    if s.groups[g].state == Created || s.groups[g].status == InProgress {
      IssueDeleteSends(Unfile(Expect(s, id.Group()), g, Garbage), g);
      assert t.inflight[|s.inflight|] == Call(g, id, DeleteCall);
    }
  }

  lemma IssueDeleteSends(s: State, g: Ref)
    requires g in s.groups && s.groups[g].id.Group() in s.pendingDelete
    ensures IssueDelete(s, g, None).inflight == s.inflight + [Call(g, s.groups[g].id, DeleteCall)]
  {
  }

  /**
   What the deletion of its group makes of a filed object: it goes at once if no policy names the group, and otherwise
   stays as it was, marked, while the group expects its deletion. The addresses of a group always go at once.
   */
  ghost predicate Withdrawn(s: State, t: State, id: Id)
    requires id in s.index && s.index[id] in s.groups
  {
    var r := s.index[id];
    if id.IpBlocks() then id !in t.index && id.name !in t.blocks.ips
    else
      && id.Group() in t.pendingDelete
      && if Namers(s.policies, id.Group()) == {} then Dismissed(s, t, id)
         else
           && id in t.index && t.index[id] == r && r in t.groups
           && t.groups[r] == s.groups[r].(deletePending := true)
  }

  lemma DeleteWithdraws(s: State, id: Id)
    requires id in s.index && s.index[id] in s.groups && s.groups[s.index[id]].id == id
    requires s.groups[s.index[id]].state != Garbage && !id.IpBlocks()
    ensures Withdrawn(s, DeleteImpl(s, s.index[id], None), id)
  {
    DeleteShelf(s, s.index[id]);
    if Namers(s.policies, id.Group()) == {} {
      DeleteDismisses(s, id);
      hide DeleteImpl, Dismissed, Namers;
    } else {
      hide Dismissed, Namers;
    }
  }

  lemma DeleteShelf(s: State, g: Ref)
    requires g in s.groups
    ensures var t := DeleteImpl(s, g, None);
            && SameShelves(s, t) && s.groups[g].id.Group() in t.pendingDelete
            && s.pendingDelete.Keys <= t.pendingDelete.Keys
  {
    var o, t := s.groups[g], DeleteImpl(s, g, None);
    var s1 := Expect(s, o.id.Group());
    ExpectShelf(s, o.id.Group());
    hide SameShelves, Expect, IssueDelete, Release;
    if o.state == Garbage {
      if o.retryOp.None? {
        IssueDeleteShelf(s1, g);
        ShelvesTrans(s, s1, t);
      }
    } else if Namers(s.policies, o.id.Group()) != {} {
      PutShelf(s1, g, o.(deletePending := true));
      ShelvesTrans(s, s1, t);
    } else {
      ReleaseShelf(s1, g);
      ShelvesTrans(s, s1, t);
    }
    ShelvesStay(s, t);
    ShelvesStay(s1, t);
  }

  lemma ExpectShelf(s: State, name: GroupName)
    ensures SameShelves(s, Expect(s, name)) && name in Expect(s, name).pendingDelete
  {
  }

  lemma PutShelf(s: State, g: Ref, o: SecurityGroup)
    ensures SameShelves(s, Put(s, g, o))
  {
  }

  lemma UnfileShelf(s: State, g: Ref, state: GroupState)
    requires g in s.groups
    ensures SameShelves(s, Unfile(s, g, state))
  {
  }

  ghost predicate SameShelves(s: State, t: State) {
    t.blocks == s.blocks && forall n :: SameShelf(s, t, n)
  }

  lemma ShelvesStay(s: State, t: State)
    requires SameShelves(s, t)
    ensures s.pendingDelete.Keys <= t.pendingDelete.Keys
  {
    forall n | n in s.pendingDelete ensures n in t.pendingDelete {
      assert SameShelf(s, t, n);
    }
  }

  lemma ShelvesTrans(s: State, t: State, u: State)
    requires SameShelves(s, t) && SameShelves(t, u)
    ensures SameShelves(s, u)
  {
    forall n ensures SameShelf(s, u, n) {
      assert SameShelf(s, t, n) && SameShelf(t, u, n);
    }
  }

  lemma IssueDeleteShelf(s: State, g: Ref)
    requires g in s.groups && s.groups[g].id.Group() in s.pendingDelete
    ensures SameShelves(s, IssueDelete(s, g, None))
  {
  }

  lemma ReleaseShelf(s: State, g: Ref)
    requires g in s.groups && s.groups[g].id.Group() in s.pendingDelete
    ensures SameShelves(s, Release(s, g, None))
  {
    var state := if s.groups[g].state == Init && s.groups[g].status != InProgress then Init else Garbage;
    var s1 := Unfile(s, g, state);
    UnfileShelf(s, g, state);
    IssueDeleteShelf(s1, g);
    hide SameShelves, IssueDelete;
    ShelvesTrans(s, s1, IssueDelete(s1, g, None));
  }

  lemma WithdrawnLater(s: State, t: State, u: State, id: Id, other: Id)
    requires id in s.index && s.index[id] in s.groups && Withdrawn(s, t, id) && id != other
    requires t.inflight <= u.inflight && t.pendingDelete.Keys <= u.pendingDelete.Keys
    requires u.blocks.ips.Keys <= t.blocks.ips.Keys
    requires u.index == t.index || u.index == t.index - {other}
    requires other in t.index && t.index[other] != s.index[id] && Untouched(t, u, t.index[other])
    ensures Withdrawn(s, u, id)
  {
    hide Namers;
  }

  lemma WithdrawnSince(s: State, t: State, u: State, id: Id)
    requires id in s.index && s.index[id] in s.groups && Same(s, t, id) && Withdrawn(t, u, id)
    requires s.inflight <= t.inflight && Namers(s.policies, id.Group()) == Namers(t.policies, id.Group())
    ensures Withdrawn(s, u, id)
  {
    hide Namers;
  }

  /** The deletion of a group has reached all its objects but those of some ids. */
  ghost predicate Withdrawing(s: State, t: State, all: set<Id>, todo: set<Id>) {
    && s.inflight <= t.inflight && todo <= all <= s.index.Keys
    && forall id :: id in all ==> s.index[id] in s.groups && if id in todo then Same(s, t, id) else Withdrawn(s, t, id)
  }

  lemma WithdrawingNext(s: State, t: State, u: State, all: set<Id>, todo: set<Id>, id: Id)
    requires Withdrawing(s, t, all, todo) && id in todo && Withdrawn(t, u, id)
    requires forall x :: x in s.index ==> s.index[x] in s.groups && s.groups[s.index[x]].id == x
    requires Namers(s.policies, id.Group()) == Namers(t.policies, id.Group())
    requires t.inflight <= u.inflight && t.pendingDelete.Keys <= u.pendingDelete.Keys
    requires u.blocks.ips.Keys <= t.blocks.ips.Keys
    requires (u.index == t.index || u.index == t.index - {id}) && Untouched(t, u, t.index[id])
    ensures Withdrawing(s, u, all, todo - {id})
  {
    hide Withdrawn, Namers, Untouched;
    forall x | x in all ensures if x in todo - {id} then Same(s, u, x) else Withdrawn(s, u, x) {
      assert s.groups[s.index[x]].id == x && s.groups[s.index[id]].id == id;
      if x == id {
        WithdrawnSince(s, t, u, id);
      } else if x in todo {
        StillSame(s, t, u, id, x);
      } else {
        WithdrawnLater(s, t, u, x, id);
      }
    }
  }

  lemma PushedLater(s: State, t: State, u: State, id: Id)
    requires Pushed(s, t, id) && t.inflight <= u.inflight && (id in u.index ==> id in t.index)
    ensures Pushed(s, u, id)
  {
    hide RulesRequest, Due;
  }

  /** What a group was owed at s it is still owed at t, if nothing that matters has changed. */
  lemma PushedSince(s: State, t: State, u: State, id: Id)
    requires Pushed(t, u, id) && s.inflight <= t.inflight && t.policies == s.policies
    requires id in s.index ==> id in t.index && t.index[id] == s.index[id]
    requires id in s.index && s.index[id] in s.groups ==>
               s.index[id] in t.groups && t.groups[s.index[id]] == s.groups[s.index[id]]
    ensures Pushed(s, u, id)
  {
    hide Namers, RuleRefs;
  }

  lemma OnlyGroupTrans(s: State, t: State, u: State, kind: Kind, a: seq<string>, b: seq<string>)
    requires OnlyGroup(s, t, kind, a) && OnlyGroup(t, u, kind, b)
    ensures OnlyGroup(s, u, kind, a + b)
  {
    assert s.inflight <= u.inflight;
    forall r | r in s.groups && !(s.groups[r].id.kind == kind && s.groups[r].id.name in a + b)
      ensures r in u.groups && u.groups[r] == s.groups[r]
    {
      assert r in t.groups && t.groups[r] == s.groups[r];
    }
  }

  /** Of the security groups `all` of a group, those not in `todo` have been notified. */
  ghost predicate Notified(s: State, t: State, name: GroupName, all: set<Id>, todo: set<Id>) {
    && OnlyGroup(s, t, name.kind, [name.name]) && t.policies == s.policies
    && (forall id :: id in all - todo ==> Pushed(s, t, id))
    && (forall id :: id in todo ==> Same(s, t, id))
  }

  /** The object filed under an id is the same, and unchanged. */
  ghost predicate Same(s: State, t: State, id: Id) {
    id in s.index ==> id in t.index && t.index[id] == s.index[id] &&
                      (s.index[id] in s.groups ==>
                          s.index[id] in t.groups && t.groups[s.index[id]] == s.groups[s.index[id]])
  }

  lemma NoneNotified(s: State, name: GroupName)
    ensures Notified(s, s, name, Members(s.index, name), Members(s.index, name))
  {
    hide Pushed;
  }

  lemma AllNotified(s: State, t: State, name: GroupName, all: set<Id>)
    requires Notified(s, t, name, all, {})
    ensures OnlyGroup(s, t, name.kind, [name.name]) && forall id :: id in all ==> Pushed(s, t, id)
  {
    hide Pushed;
  }

  lemma NotifiedNext(s: State, t: State, u: State, name: GroupName, all: set<Id>, todo: set<Id>, id: Id)
    requires todo <= all == Members(s.index, name)
    requires forall x :: x in s.index ==> s.index[x] in s.groups && s.groups[s.index[x]].id == x
    requires Notified(s, t, name, all, todo) && id in todo
    requires id in t.index && Untouched(t, u, t.index[id]) && t.inflight <= u.inflight && Pushed(t, u, id)
    requires u.policies == t.policies
    requires u.index == t.index || u.index == t.index - {id}
    ensures Notified(s, u, name, all, todo - {id})
  {
    hide Pushed;
    forall x | x in all - (todo - {id}) ensures Pushed(s, u, x) {
      if x == id {
        PushedSince(s, t, u, x);
      } else {
        PushedLater(s, t, u, x);
      }
    }
    forall x | x in todo - {id} ensures Same(s, u, x) {
      StillSame(s, t, u, id, x);
    }
    StillOnly(s, t, u, name, id);
    hide OnlyGroup, Same, Untouched;
  }

  lemma StillOnly(s: State, t: State, u: State, name: GroupName, id: Id)
    requires OnlyGroup(s, t, name.kind, [name.name]) && id in s.index && id.Group() == name && Same(s, t, id)
    requires forall x :: x in s.index ==> s.index[x] in s.groups && s.groups[s.index[x]].id == x
    requires Untouched(t, u, s.index[id]) && t.inflight <= u.inflight
    requires u.index == t.index || u.index == t.index - {id}
    ensures OnlyGroup(s, u, name.kind, [name.name])
  {
    assert s.inflight <= u.inflight;
    assert s.groups[s.index[id]].id == id;
  }

  lemma StillSame(s: State, t: State, u: State, id: Id, x: Id)
    requires Same(s, t, x) && Same(s, t, id) && x != id && x in s.index && id in s.index && id in t.index
    requires forall x :: x in s.index ==> s.index[x] in s.groups && s.groups[s.index[x]].id == x
    requires Untouched(t, u, t.index[id]) && (u.index == t.index || u.index == t.index - {id})
    ensures Same(s, u, x)
  {
    assert s.groups[s.index[x]].id == x && s.groups[s.index[id]].id == id;
  }

  /** All appliedTo groups of these names have been sent what they are owed. */
  ghost predicate Told(s: State, t: State, kind: Kind, names: seq<string>) {
    forall id: Id :: id.kind == kind && id.name in names ==> Pushed(s, t, id)
  }

  lemma NoneTold(s: State, kind: Kind)
    ensures OnlyGroup(s, s, kind, []) && Told(s, s, kind, [])
  {
  }

  lemma ToldNext(s: State, t: State, u: State, kind: Kind, names: seq<string>, i: nat)
    requires i < |names| && OnlyGroup(s, t, kind, names[..i]) && Told(s, t, kind, names[..i])
    requires OnlyGroup(t, u, kind, [names[i]]) && t.policies == s.policies
    requires forall id :: id in t.index && id.Group() == GroupName(kind, names[i]) ==> Pushed(t, u, id)
    requires forall x :: x in s.index ==> s.index[x] in s.groups && s.groups[s.index[x]].id == x
    ensures OnlyGroup(s, u, kind, names[..i + 1]) && Told(s, u, kind, names[..i + 1])
  {
    hide Pushed;
    OnlyGroupTrans(s, t, u, kind, names[..i], [names[i]]);
    assert names[..i] + [names[i]] == names[..i + 1];
    forall id: Id | id.kind == kind && id.name in names[..i + 1] ensures Pushed(s, u, id) {
      if id.name in names[..i] {
        PushedLater(s, t, u, id);
      } else if id in s.index {
        PushedSince(s, t, u, id);
      } else {
        PushedNone(s, u, id);
      }
    }
  }

  lemma PushedNone(s: State, t: State, id: Id)
    requires id !in s.index
    ensures Pushed(s, t, id)
  {
  }

  lemma ToldLater(s: State, t: State, u: State, kind: Kind, names: seq<string>)
    requires Told(s, t, kind, names) && t.inflight <= u.inflight && forall id :: id in u.index ==> id in t.index
    ensures Told(s, u, kind, names)
  {
    hide Pushed;
    forall id: Id | id.kind == kind && id.name in names ensures Pushed(s, u, id) {
      PushedLater(s, t, u, id);
    }
  }

  /** Steps that concern groups of one kind only do not change what groups of the other are owed. */
  lemma ToldSince(s: State, t: State, u: State, other: Kind, others: seq<string>, kind: Kind, names: seq<string>)
    requires OnlyGroup(s, t, other, others) && t.policies == s.policies && Told(t, u, kind, names) && other != kind
    requires forall x :: x in s.index ==> s.index[x] in s.groups && s.groups[s.index[x]].id == x
    ensures Told(s, u, kind, names)
  {
    hide Pushed;
    forall id: Id | id.kind == kind && id.name in names ensures Pushed(s, u, id) {
      PushedSince(s, t, u, id);
    }
  }

  lemma OnlyGroupGrows(s: State, t: State, kind: Kind, names: seq<string>)
    requires OnlyGroup(s, t, kind, names)
    ensures s.inflight <= t.inflight && forall id :: id in t.index ==> id in s.index
  {
  }

  // ---------------------------------------------------------------- the rollout of an appliedTo group

  /** What the success of an operation sets in motion for an appliedTo group. */
  function Rollout(s: State, g: Ref, op: Op): State
    requires g in s.groups
  {
    var o := s.groups[g];
    match op
    case CreateOp => if o.state == Init then UpdateRules(Confirm(s, g), g, None) else s
    case UpdateMembersOp => Put(s, g, o.(hasMembers := true))
    case UpdateRulesOp =>
      var s1 := Put(s, g, o.(hasRules := true));
      if o.hasMembers then s1 else UpdateImpl(s1, g, {}, {}, None)
    case ClearMembersOp =>
      var s1 := Put(s, g, o.(hasMembers := false));
      if o.hasRules then UpdateRules(s1, g, None) else s1
    case DeleteOp => s
  }

  /** All policies naming a group are ready, and there are some. */
  predicate RulesDue(s: State, name: GroupName) {
    Namers(s.policies, name) != {} && forall p :: p in Namers(s.policies, name) ==> s.policies[p].ready
  }

  /**
   What follows on a success, if no retry is armed: on the creation the rules, once all policies are ready; on the rules
   the members, if there are any and the cloud is not known to have them; on the clearing of members, if the cloud has
   rules, the rules that policies naming the group again have.
   */
  lemma RolloutFollows(s: State, g: Ref)
    requires g in s.groups && s.groups[g].retryOp.None?
    ensures var o := s.groups[g];
            && (o.state == Init && RulesDue(s, o.id.Group()) ==>
                  Sent(s.inflight, Rollout(s, g, CreateOp).inflight,
                       Call(g, o.id, RulesCall(RuleRefs(s.policies, o.id.Group())))))
            && (o.state == Created && !o.hasMembers && o.members != {} ==>
                  Sent(s.inflight, Rollout(s, g, UpdateRulesOp).inflight, Call(g, o.id, MembersCall)))
            && (o.state == Created && o.hasRules && RulesDue(s, o.id.Group()) ==>
                  Sent(s.inflight, Rollout(s, g, ClearMembersOp).inflight,
                       Call(g, o.id, RulesCall(RuleRefs(s.policies, o.id.Group())))))
  {
    hide Namers, RuleRefs, UpdateRules, UpdateImpl;
    UpdateRulesIssues(Confirm(s, g), g, None);
    UpdateRulesIssues(Put(s, g, s.groups[g].(hasMembers := false)), g, None);
    var s1 := Put(s, g, s.groups[g].(hasRules := true));
    if s1.groups[g].state == Created && s1.groups[g].members != {} {
      UpdateSends(s1, g);
    }
  }

  /** A group whose requests all succeed is created, then has its rules, then its members. */
  lemma RolloutCompletes(s: State, g: Ref)
    requires g in s.groups && s.groups[g].state == Init && s.groups[g].retryOp.None? && !s.groups[g].hasMembers
    requires s.groups[g].members != {} && RulesDue(s, s.groups[g].id.Group())
    ensures var o, s1 := s.groups[g], Rollout(s, g, CreateOp);
            && g in s1.groups
            && Sent(s.inflight, s1.inflight, Call(g, o.id, RulesCall(RuleRefs(s.policies, o.id.Group()))))
            && var s2 := Rollout(s1, g, UpdateRulesOp);
            && g in s2.groups && Sent(s1.inflight, s2.inflight, Call(g, o.id, MembersCall))
            && var s3 := Rollout(s2, g, UpdateMembersOp);
               g in s3.groups && s3.groups[g] == o.(state := Created, hasRules := true, hasMembers := true)
  {
    var s1 := Rollout(s, g, CreateOp);
    RolloutFollows(s, g);
    UpdateRulesQuiet(Confirm(s, g), g);
    RolloutFollows(s1, g);
    UpdateImplQuiet(Put(s1, g, s1.groups[g].(hasRules := true)), g);
    hide Namers, RuleRefs, UpdateRules, UpdateImpl, Sent;
  }

  lemma UpdateRulesQuiet(s: State, g: Ref)
    requires g in s.groups && RulesDue(s, s.groups[g].id.Group())
    ensures UpdateRules(s, g, None).groups == s.groups
  {
    hide RuleRefs;
  }

  lemma UpdateImplQuiet(s: State, g: Ref)
    requires g in s.groups
    ensures var t := UpdateImpl(s, g, {}, {}, None); g in t.groups && t.groups[g] == s.groups[g]
  {
  }

  /**
   What a retry that has succeeded sends: the rules of an appliedTo group, whose members are sent again once the cloud
   has them, and the members of an address group.
   */
  lemma IdleSends(s: State, g: Ref)
    requires g in s.groups && s.groups[g].retryOp.None? && s.groups[g].state == Created
    ensures var o, t := s.groups[g], RunIdle(s, g);
            && (o.id.kind == AppliedTo ==> !t.groups[g].hasMembers)
            && (o.id.kind == AppliedTo && RulesDue(s, o.id.Group()) ==>
                  Sent(s.inflight, t.inflight, Call(g, o.id, RulesCall(RuleRefs(s.policies, o.id.Group())))))
            && (o.id.kind == Addr && o.members != {} ==> Sent(s.inflight, t.inflight, Call(g, o.id, MembersCall)))
  {
    var s1 := Put(s, g, s.groups[g].(hasMembers := false));
    UpdateRulesIssues(s1, g, None);
    RulesKeepMembers(s1, g);
    hide Namers, RuleRefs, UpdateRules, UpdateImpl;
    if s.groups[g].members != {} {
      UpdateSends(s, g);
    }
  }

  lemma RulesKeepMembers(s: State, g: Ref)
    requires g in s.groups
    ensures var t := UpdateRules(s, g, None); g in t.groups && (!s.groups[g].hasMembers ==> !t.groups[g].hasMembers)
  {
    hide Namers, RuleRefs;
  }

  lemma RolloutFrame(s: State, g: Ref, op: Op)
    requires g in s.groups
    ensures var t := Rollout(s, g, op);
            t.index == s.index && t.pendingDelete == s.pendingDelete && t.retryQueue == s.retryQueue
  {
    hide UpdateRules, UpdateImpl;
  }

  lemma RolloutCreates(s: State, g: Ref, op: Op)
    requires g in s.groups
    ensures g in Rollout(s, g, op).groups && (op == CreateOp ==> Rollout(s, g, op).groups[g].state != Init)
    ensures op == DeleteOp ==> Rollout(s, g, op) == s
  {
    hide UpdateRules, UpdateImpl;
  }

  /** A success ends the retry of its operation. */
  function Eased(s: State, g: Ref, op: Op): (t: State)
    requires g in s.groups
    ensures g in t.groups
  {
    var key := SgKey(s.groups[g].id);
    if key in s.retryQueue && Held(s, key) then UpdateQueue(s, key, false, op) else s
  }

  /** What a success sets in motion, apart from telling the policies of an address group just created. */
  function Success(s: State, g: Ref, op: Op): State
    requires g in s.groups
  {
    var s1 := Eased(s, g, op);
    if s.groups[g].id.kind == AppliedTo then Rollout(s1, g, op) else s1
  }

  /** A stale answer does not touch the status of garbage. */
  function Noted(s: State, g: Ref, op: Op, failed: bool): (t: State)
    requires g in s.groups
    ensures g in t.groups
  {
    var o := s.groups[g];
    if o.state != Garbage || op == DeleteOp then Put(s, g, o.(status := if failed then Failed else Fine)) else s
  }

  /** notify up to the settling of retries. */
  function TakenUp(s: State, g: Ref, op: Op, failed: bool): State
    requires g in s.groups
  {
    var s1 := Noted(s, g, op, failed);
    if failed then s1 else Success(s1, g, op)
  }

  /**
   An address group has been created: policies that only waited for it are ready, and its members have been sent unless
   a retry is armed.
   */
  ghost predicate AddrReady(s: State, t: State, g: Ref)
    requires g in s.groups
  {
    var o := s.groups[g];
    && g in t.groups && t.groups[g].state != Init && t.index == s.index
    && (forall p :: p in Namers(s.policies, o.id.Group()) ==>
          p in t.policies && (AllReady(t.index, t.groups, t.policies[p].rules) ==> t.policies[p].ready))
    && (o.state != Garbage && o.retryOp.None? && o.members != {} ==>
          Sent(s.inflight, t.inflight, Call(g, o.id, MembersCall)))
  }

  /** What an answer sets in motion before retries are looked at. */
  ghost predicate Outcome(s: State, t: State, g: Ref, op: Op, failed: bool)
    requires g in s.groups
  {
    if failed || s.groups[g].id.kind == AppliedTo || op != CreateOp then t == TakenUp(s, g, op, failed)
    else AddrReady(Eased(Noted(s, g, op, failed), g, op), t, g)
  }

  lemma UpdateSends(s: State, g: Ref)
    requires g in s.groups && s.groups[g].state == Created && s.groups[g].retryOp.None? && s.groups[g].members != {}
    ensures Sent(s.inflight, UpdateImpl(s, g, {}, {}, None).inflight, Call(g, s.groups[g].id, MembersCall))
  {
    hide Emit;
    EmitAppends(Merge(s, g, {}, {}), g, MembersCall, None);
    assert UpdateImpl(s, g, {}, {}, None).inflight[|s.inflight|] == Call(g, s.groups[g].id, MembersCall);
  }

  lemma SentLater(a: seq<Call>, b: seq<Call>, c: seq<Call>, call: Call)
    requires Sent(a, b, call) && b <= c
    ensures Sent(a, c, call)
  {
  }

  /** A request whose object is known, as is the one queued under its id. */
  predicate Answerable(s: State, i: nat) {
    i < |s.inflight| && s.inflight[i].ref in s.groups && Held(s, SgKey(s.groups[s.inflight[i].ref].id))
  }

  /** A request is answered with a failure, reported as an operation. */
  function FailedAnswer(s: State, i: nat, op: Op): State
    requires Answerable(s, i)
  {
    var g := s.inflight[i].ref;
    Rest(SettleRetry(TakenUp(Answer(s, i, op), g, op, true), g, op, true))
  }

  /** syncImpl: what the cloud has is created; members it lacks are sent, a group it lacks is added again. */
  function Synced(s: State, g: Ref, present: bool, sameMembers: bool): State
    requires g in s.groups
  {
    var s1 := if present then Confirm(s, g) else s;
    if (present && sameMembers) || (!present && s.groups[g].members == {}) then s1
    else if s1.groups[g].state == Created then UpdateImpl(s1, g, {}, {}, None)
    else AddImpl(s1, g, None)
  }

  /** Where the members agree with the cloud, an appliedTo group knows that it has them. */
  function SyncedMembers(s: State, g: Ref, present: bool, sameMembers: bool): (t: State)
    requires g in s.groups
    ensures g in t.groups && t.policies == s.policies
  {
    var t := Synced(s, g, present, sameMembers);
    if (if present then sameMembers else s.groups[g].members == {}) && t.groups[g].members != {}
    then Put(t, g, t.groups[g].(hasMembers := true)) else t
  }

  /** The rules of an appliedTo group, once all its policies are ready: sent, unless the cloud has them. */
  function SyncedRules(s: State, g: Ref, sameRules: bool): State
    requires g in s.groups
  {
    if !sameRules then UpdateRules(s, g, None)
    else if Namers(s.policies, s.groups[g].id.Group()) == {} then s
    else Put(s, g, s.groups[g].(hasRules := true))
  }

  /** Some policies have recomputed their rules. */
  ghost predicate SomeComputed(s: State, policies: map<string, Policy>, namers: set<string>) {
    policies.Keys == s.policies.Keys &&
    forall p :: p in policies ==>
        policies[p] == s.policies[p] || (p in namers && policies[p] == Computed(s, s.policies[p]))
  }

  ghost function AllComputed(s: State, namers: set<string>): map<string, Policy> {
    map p | p in s.policies :: if p in namers then Computed(s, s.policies[p]) else s.policies[p]
  }

  lemma ComputedFrame(s: State, t: State, p: Policy)
    requires t.index == s.index && t.groups == s.groups && t.blocks == s.blocks
    ensures Computed(t, p) == Computed(s, p)
  {
  }

  /** What the cloud reports of a security group, as far as it matters: does it agree with the reconciler? */
  datatype CloudGroup = CloudGroup(sameMembers: bool, sameRules: bool)

  function Found(known: map<Id, CloudGroup>, id: Id): Option<CloudGroup> {
    if id in known then Some(known[id]) else None
  }

  /** What the cloud has reported of a group last. */
  function Latest(found: seq<(Id, CloudGroup)>, id: Id): Option<CloudGroup> {
    if found == [] then None
    else if found[|found| - 1].0 == id then Some(found[|found| - 1].1)
    else Latest(found[..|found| - 1], id)
  }

  /** The synchronization of one group, by what the cloud has of it. */
  ghost predicate SyncedOne(s: State, t: State, id: Id, c: Option<CloudGroup>) {
    && id in s.index && s.index[id] in s.groups
    && var g, sameMembers := s.index[id], c.Some? && c.value.sameMembers;
       if s.groups[g].deletePending then t == s
       else if id.kind == Addr then t == Synced(s, g, c.Some?, sameMembers)
       else RulesOutcome(SyncedMembers(s, g, c.Some?, sameMembers), t, g, id, c.Some? && c.value.sameRules)
  }

  /** Groups have been synchronized, in some order. */
  ghost predicate Swept(s: State, t: State, known: map<Id, CloudGroup>, done: set<Id>)
    decreases done
  {
    if done == {} then t == s
    else exists u, id :: id in done && Swept(s, u, known, done - {id}) && SyncedOne(u, t, id, Found(known, id))
  }

  lemma NoneSwept(s: State, known: map<Id, CloudGroup>)
    ensures Swept(s, s, known, {})
  {
  }

  lemma SweptNext(s: State, t: State, u: State, known: map<Id, CloudGroup>, done: set<Id>, id: Id)
    requires Swept(s, t, known, done) && id !in done && SyncedOne(t, u, id, Found(known, id))
    ensures Swept(s, u, known, done + {id})
  {
    hide SyncedOne;
    assert done + {id} - {id} == done;
  }

  /** An empty update for some appliedTo groups, in turn. */
  function TouchedAll(s: State, touched: seq<Id>): State {
    if touched == [] then s
    else
      var s1, id := TouchedAll(s, touched[..|touched| - 1]), touched[|touched| - 1];
      if id.kind == AppliedTo && id in s1.index && s1.index[id] in s1.groups
      then UpdateImpl(s1, s1.index[id], {}, {}, None) else s1
  }

  /**
   What a group has from a synchronization, unless it is pending deletion: if the cloud has it, it is created, and its
   members are sent if they differ; if not, and it is not created, it is added again. Members are only sent, and groups
   only added, if there are any members and no retry is armed.
   */
  ghost predicate CaughtUp(s: State, t: State, id: Id, c: Option<CloudGroup>) {
    id in s.index && s.index[id] in s.groups && s.index[id] in t.groups && !s.groups[s.index[id]].deletePending ==>
      var g := s.index[id];
      && (c.Some? ==> t.groups[g].state == Created)
      && (c.Some? && !c.value.sameMembers && s.groups[g].members != {} && s.groups[g].retryOp.None? ==>
            Sent(s.inflight, t.inflight, Call(g, id, MembersCall)))
      && (c.None? && s.groups[g].members != {} && s.groups[g].state == Init && s.groups[g].retryOp.None? ==>
            Sent(s.inflight, t.inflight, Call(g, id, CreateCall)))
  }

  lemma CaughtUpLater(s: State, t: State, u: State, id: Id, c: Option<CloudGroup>)
    requires CaughtUp(s, t, id, c) && t.inflight <= u.inflight
    requires id in s.index && s.index[id] in t.groups
    requires s.index[id] in u.groups && t.groups[s.index[id]].state.Rank() <= u.groups[s.index[id]].state.Rank()
    requires u.groups[s.index[id]].state != Garbage
    ensures CaughtUp(s, u, id, c)
  {
  }

  lemma CaughtUpSince(s: State, t: State, u: State, id: Id, c: Option<CloudGroup>)
    requires CaughtUp(t, u, id, c) && s.inflight <= t.inflight && t.index == s.index
    requires id in s.index && s.index[id] in s.groups && s.index[id] in t.groups
    requires t.groups[s.index[id]] == s.groups[s.index[id]]
    ensures CaughtUp(s, u, id, c)
  {
  }

  lemma SyncedCatchesUp(s: State, g: Ref, id: Id, c: Option<CloudGroup>)
    requires g in s.groups && id in s.index && s.index[id] == g && s.groups[g].id == id
    requires s.groups[g].state != Garbage && s.synced
    ensures var t := Synced(s, g, c.Some?, c.Some? && c.value.sameMembers);
            && CaughtUp(s, t, id, c) && s.inflight <= t.inflight && Untouched(s, t, g)
            && g in t.groups && (t.groups[g].state == Garbage <==> s.groups[g].state == Garbage)
            && s.groups[g].state.Rank() <= t.groups[g].state.Rank() && t.synced
  {
    hide Emit;
    var s1 := if c.Some? then Confirm(s, g) else s;
    EmitAppends(Merge(s1, g, {}, {}), g, MembersCall, None);
    var s2 := File(s1, g);
    EmitAppends(Put(s2, g, s2.groups[g].(status := InProgress)), g, CreateCall, None);
    var t := Synced(s, g, c.Some?, c.Some? && c.value.sameMembers);
    assert c.None? && s.groups[g].members != {} && s.groups[g].state == Init && s.groups[g].retryOp.None? ==>
             t.inflight[|s.inflight|] == Call(g, id, CreateCall);
    assert c.Some? && !c.value.sameMembers && s.groups[g].members != {} && s.groups[g].retryOp.None? ==>
             t.inflight[|s.inflight|] == Call(g, id, MembersCall);
  }

  /**
   What becomes of the rules of an appliedTo group: once all its policies are computed and ready they are
   synchronized.
   */
  ghost predicate RulesOutcome(s: State, t: State, g: Ref, id: Id, sameRules: bool)
    requires g in s.groups
  {
    var namers := Namers(s.policies, id.Group());
    if forall p :: p in namers ==> Computed(s, s.policies[p]).ready
    then t == SyncedRules(s.(policies := AllComputed(s, namers)), g, sameRules)
    else t == s.(policies := t.policies) && SomeComputed(s, t.policies, namers)
  }

  /**
   What an appliedTo group that policies name and the cloud has comes away with, once its policies are ready: it knows
   what the cloud has, and is sent the rules the cloud lacks.
   */
  lemma SyncedOutcome(s: State, t: State, id: Id, c: CloudGroup)
    requires SyncedOne(s, t, id, Some(c)) && id.kind == AppliedTo && !s.groups[s.index[id]].deletePending
    requires s.groups[s.index[id]].id == id && Namers(s.policies, id.Group()) != {}
    requires var u := SyncedMembers(s, s.index[id], true, c.sameMembers);
             forall p :: p in Namers(s.policies, id.Group()) ==> Computed(u, u.policies[p]).ready
    ensures var g := s.index[id];
            && g in t.groups && t.groups[g].state == Created
            && (c.sameMembers && s.groups[g].members != {} ==> t.groups[g].hasMembers)
            && (c.sameRules ==> t.groups[g].hasRules)
            && (!c.sameRules && s.groups[g].retryOp.None? ==>
                  Sent(s.inflight, t.inflight, Call(g, id, RulesCall(RuleRefs(t.policies, id.Group())))))
  {
    var g, u := s.index[id], SyncedMembers(s, s.index[id], true, c.sameMembers);
    MembersSynced(s, g, c.sameMembers);
    var v := u.(policies := AllComputed(u, Namers(s.policies, id.Group())));
    ComputedNames(u, id.Group());
    hide Computed, AllComputed, SyncedMembers, Namers, RuleRefs;
    if !c.sameRules {
      UpdateRulesIssues(v, g, None);
      UpdateRulesSame(v, g);
    }
  }

  lemma MembersSynced(s: State, g: Ref, sameMembers: bool)
    requires g in s.groups
    ensures var t := SyncedMembers(s, g, true, sameMembers);
            && t.groups[g].id == s.groups[g].id && t.groups[g].state == Created
            && t.groups[g].retryOp == s.groups[g].retryOp && s.inflight <= t.inflight
            && (sameMembers && s.groups[g].members != {} ==> t.groups[g].hasMembers)
  {
  }

  /** Computing the rules of the policies that name a group leaves it named by them, and makes them ready. */
  lemma ComputedNames(s: State, name: GroupName)
    ensures var policies := AllComputed(s, Namers(s.policies, name)); Namers(policies, name) == Namers(s.policies, name)
    ensures var policies := AllComputed(s, Namers(s.policies, name));
            (forall p :: p in Namers(s.policies, name) ==> Computed(s, s.policies[p]).ready) ==>
              forall p :: p in Namers(policies, name) ==> policies[p].ready
  {
    var policies := AllComputed(s, Namers(s.policies, name));
    forall p | p in s.policies ensures policies[p].Names(name) <==> s.policies[p].Names(name) {}
  }

  lemma UpdateRulesSame(s: State, g: Ref)
    requires g in s.groups && Namers(s.policies, s.groups[g].id.Group()) != {}
    ensures UpdateRules(s, g, None).groups == s.groups && UpdateRules(s, g, None).policies == s.policies
  {
    hide RuleRefs;
  }

  /** Policies outside `todo` have been computed and are ready. */
  ghost predicate Computing(s: State, policies: map<string, Policy>, namers: set<string>, todo: set<string>) {
    && todo <= namers <= s.policies.Keys && policies.Keys == s.policies.Keys
    && (forall p :: p in policies && p !in namers - todo ==> policies[p] == s.policies[p])
    && (forall p :: p in namers - todo ==> policies[p] == Computed(s, s.policies[p]) && policies[p].ready)
  }

  lemma NoneComputed(s: State, namers: set<string>)
    requires namers <= s.policies.Keys
    ensures Computing(s, s.policies, namers, namers)
  {
  }

  lemma ComputingNext(s: State, policies: map<string, Policy>, namers: set<string>, todo: set<string>, p: string)
    requires Computing(s, policies, namers, todo) && p in todo
    ensures policies[p] == s.policies[p] && SomeComputed(s, policies[p := Computed(s, s.policies[p])], namers)
    ensures Computed(s, s.policies[p]).ready ==>
              Computing(s, policies[p := Computed(s, s.policies[p])], namers, todo - {p})
  {
    hide Computed;
  }

  lemma AllAreComputed(s: State, policies: map<string, Policy>, namers: set<string>)
    requires Computing(s, policies, namers, {})
    ensures policies == AllComputed(s, namers) && SomeComputed(s, policies, namers)
    ensures forall p :: p in namers ==> p in s.policies && Computed(s, s.policies[p]).ready
  {
    hide Computed;
  }

  /** Groups outside `todo` have been synchronized, groups in it and those of the other kind are as they were. */
  ghost predicate Syncing(s: State, t: State, kind: Kind, known: map<Id, CloudGroup>, all: set<Id>, todo: set<Id>) {
    && t.index == s.index && t.synced && s.inflight <= t.inflight && todo <= all <= s.index.Keys
    && (forall id :: id in all ==> id.kind == kind && s.index[id] in s.groups && s.index[id] in t.groups)
    && (forall id :: id in all - todo ==> CaughtUp(s, t, id, Found(known, id)))
    && (forall id :: id in todo ==> t.groups[s.index[id]] == s.groups[s.index[id]])
    && (forall r :: r in s.groups && s.groups[r].id.kind != kind ==> r in t.groups && t.groups[r] == s.groups[r])
  }

  lemma NoneSynced(s: State, kind: Kind, known: map<Id, CloudGroup>, all: set<Id>)
    requires s.synced && all <= s.index.Keys && forall id :: id in all ==> id.kind == kind && s.index[id] in s.groups
    ensures Syncing(s, s, kind, known, all, all)
  {
  }

  lemma AllSynced(s: State, t: State, kind: Kind, known: map<Id, CloudGroup>, all: set<Id>)
    requires Syncing(s, t, kind, known, all, {})
    ensures t.index == s.index && t.synced && s.inflight <= t.inflight
    ensures forall id :: id in all ==> CaughtUp(s, t, id, Found(known, id))
    ensures forall r :: r in s.groups && s.groups[r].id.kind != kind ==> r in t.groups && t.groups[r] == s.groups[r]
  {
    hide CaughtUp;
  }

  lemma SyncingNext(s: State, t: State, u: State, kind: Kind, known: map<Id, CloudGroup>, all: set<Id>, todo: set<Id>,
                    id: Id)
    requires Syncing(s, t, kind, known, all, todo) && id in todo
    requires forall x :: x in s.index ==> s.index[x] in s.groups && s.groups[s.index[x]].id == x
    requires u.index == t.index && u.synced && t.inflight <= u.inflight && Untouched(t, u, t.index[id])
    requires t.index[id] in u.groups && CaughtUp(t, u, id, Found(known, id))
    ensures Syncing(s, u, kind, known, all, todo - {id})
  {
    hide CaughtUp;
    CaughtUpSince(s, t, u, id, Found(known, id));
    forall x | x in all - todo ensures CaughtUp(s, u, x, Found(known, x)) {
      CaughtUpUntouched(s, t, u, x, Found(known, x));
    }
    assert s.inflight <= u.inflight;
  }

  lemma CaughtUpUntouched(s: State, t: State, u: State, id: Id, c: Option<CloudGroup>)
    requires CaughtUp(s, t, id, c) && t.inflight <= u.inflight
    requires id in s.index && s.index[id] in t.groups && s.index[id] in u.groups
    requires u.groups[s.index[id]] == t.groups[s.index[id]]
    ensures CaughtUp(s, u, id, c)
  {
  }
}
