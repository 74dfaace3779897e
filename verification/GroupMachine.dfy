/**
 The state of the NetworkPolicy reconciler and what each of its cloud-facing operations makes of it.

 Security-group objects live in `groups`, keyed by object identity (`Ref`), because identity matters:
 the indexers, the retry queue and the in-flight cloud operations all hold pointers, and two objects with the
 same id can be alive at once (one being deleted, one just created). `Id` is the key `Name + "/" + Vpc`
 together with the indexer it belongs to.
 */
module GroupMachine {
  import opened PolicyTypes
  import opened PendingGroups

  type Ref = nat

  datatype Kind = Addr | AppliedTo

  datatype GroupName = GroupName(kind: Kind, name: string)

  datatype Id = Id(kind: Kind, name: string, vpc: string) {
    function Group(): GroupName { GroupName(kind, name) }

    /** An address group without VPC only stores IP blocks and never reaches the cloud. */
    predicate IpBlocks() { kind == Addr && vpc == "" }
  }

  datatype Op = CreateOp | UpdateMembersOp | ClearMembersOp | UpdateRulesOp | DeleteOp

  datatype GroupState = Init | Created | Garbage {
    function Rank(): nat {
      match this case Init => 0 case Created => 1 case Garbage => 2
    }
  }

  /** The outcome of the last cloud operation; Go's nil error is Fine. */
  datatype Status = Fine | InProgress | Failed

  datatype SecurityGroup = SecurityGroup(id: Id, members: set<string>, state: GroupState, deletePending: bool,
                                         status: Status,
                                         retryOp: Option<Op>, retryInProgress: bool, hasRules: bool, hasMembers: bool)

  function NewGroup(id: Id, members: set<string>, state: GroupState): SecurityGroup {
    SecurityGroup(id, members, state, false, Fine, None, false, false, false)
  }

  /**
   `refs`, `ips`: the security groups and, by group, the addresses in the compiled rules; `compiled`: there are such
   rules; `ready`: rulesReady. History: `lost`, the groups with addresses in the compiled rules whose IP-block group
   has been deleted since.
   */
  datatype Policy = Policy(rules: seq<PolicyRule>, appliedTo: seq<string>, refs: set<Id>, ips: map<string, set<Prefix>>,
                           compiled: bool, ready: bool, lost: set<string>) {
    /** Without compiled rules. */
    function Bare(): Policy {
      Policy(rules, appliedTo, {}, map[], false, false, {})
    }

    predicate Names(g: GroupName) {
      match g.kind
      case Addr => g.name in NamedAddressGroups(rules)
      case AppliedTo => g.name in appliedTo
    }
  }

  /** A request the cloud has not answered yet. MembersCall is labelled only when its answer arrives. */
  datatype CallKind = CreateCall | MembersCall | ClearCall | RulesCall(ids: set<Id>) | DeleteCall

  datatype Call = Call(ref: Ref, id: Id, what: CallKind)

  datatype QueueKey = SgKey(id: Id) | GroupKey(group: GroupName)

  /** A counted item of the retry queue; history: how often it has run, and on how many ticks it asked to run. */
  datatype RetryItem =
    | SgItem(ref: Ref, opCnt: int, runs: nat, asks: nat)
    | GroupItem(pending: PendingGroup, opCnt: int, runs: nat, asks: nat)

  const OPERATION_COUNT := 15

  /** A run of a queued item, with what it retried: its n-th since it was queued, on a tick or after an answer. */
  datatype Ran = Ran(key: QueueKey, op: Option<Op>, nth: nat, tick: bool)

  /** One issued request, with what the reconciler knew at that moment. */
  datatype Issue = Issue(call: Call, issuer: SecurityGroup, retried: Option<Op>, namers: set<string>,
                         acked: set<Id>, ready: set<Id>, overlapped: bool)

  /** The operation an answer is reported as. */
  datatype Report = Report(id: Id, op: Op)

  /**
   History, not data of the reconciler. `acked`: ids of address groups the cloud has confirmed at least once, perhaps
   for an object that has been deleted since; `overlapped`: some group object had two Creates in flight; `ran`: the runs
   of queued items; `panicked`: one of them failed its type assertion; `trace`: every request issued; `released`: the
   objects taken out of their indexers; `reporting`: the answer being taken up.
   */
  datatype Past = Past(acked: set<Id>, overlapped: bool, ran: seq<Ran>, panicked: bool, trace: seq<Issue>,
                       released: set<Ref>, reporting: Option<Report>)

  /** The addresses held by the IP-block group of each address group that has one. */
  datatype Blocks = Blocks(ips: map<string, set<Prefix>>)

  datatype State = State(synced: bool, bookmarks: nat, groups: map<Ref, SecurityGroup>, next: Ref, index: map<Id, Ref>,
                         blocks: Blocks, policies: map<string, Policy>, retryQueue: map<QueueKey, RetryItem>,
                         pendingDelete: map<GroupName, PendingGroup>, inflight: seq<Call>, past: Past)

  const EMPTY := State(false, 0, map[], 0, map[], Blocks(map[]), map[], map[], map[], [],
      Past({}, false, [], false, [], {}, None))

  // ---------------------------------------------------------------- reading the indexers

  function Namers(policies: map<string, Policy>, g: GroupName): set<string> {
    set p | p in policies && policies[p].Names(g)
  }

  /** ByIndex on a group indexer. */
  function Members(index: map<Id, Ref>, g: GroupName): set<Id> {
    set id | id in index && id.Group() == g
  }

  predicate IsReady(o: SecurityGroup) {
    o.id.IpBlocks() || o.state == Created
  }

  predicate CreateInFlight(calls: seq<Call>, r: Ref) {
    exists i :: 0 <= i < |calls| && calls[i].ref == r && calls[i].what.CreateCall?
  }

  function CountDeletes(calls: seq<Call>, g: GroupName): nat {
    if calls == [] then 0
    else
      var c := calls[|calls| - 1];
      CountDeletes(calls[..|calls| - 1], g) + if c.what.DeleteCall? && c.id.Group() == g then 1 else 0
  }

  function RefCnt(pendingDelete: map<GroupName, PendingGroup>, g: GroupName): int {
    if g in pendingDelete && pendingDelete[g].refCnt.Some? then pendingDelete[g].refCnt.value else 0
  }

  /** Address groups that are indexed and created. */
  function ReadyIds(s: State): set<Id> {
    set id | id in s.index && id.kind == Addr && s.index[id] in s.groups && s.groups[s.index[id]].state == Created
  }

  // ---------------------------------------------------------------- operations

  /**
   Neither the state and the armed retry of g nor policies, addresses, the retry queue and its record have changed;
   requests were only added.
   */
  ghost predicate Local(s: State, t: State, g: Ref) {
    && g in s.groups && g in t.groups
    && t.groups[g].id == s.groups[g].id && t.groups[g].state == s.groups[g].state
    && t.groups[g].retryOp == s.groups[g].retryOp
    && t.policies == s.policies && t.blocks == s.blocks
    && t.retryQueue == s.retryQueue && t.past.ran == s.past.ran && s.inflight <= t.inflight
  }

  function Put(s: State, g: Ref, o: SecurityGroup): State {
    s.(groups := s.groups[g := o])
  }

  /** Issues a request to the cloud. `retried` is the operation being retried, None outside the retry path. */
  function Emit(s: State, g: Ref, what: CallKind, retried: Option<Op>): (t: State)
    requires g in s.groups
    ensures Local(s, t, g) && t.index == s.index
  {
    var o := s.groups[g];
    s.(inflight := s.inflight + [Call(g, o.id, what)],
       past := s.past.(overlapped := s.past.overlapped || (what.CreateCall? && CreateInFlight(s.inflight, g)),
                       trace := s.past.trace + [Issue(Call(g, o.id, what), o, retried, Namers(s.policies, o.id.Group()),
                                                      s.past.acked, ReadyIds(s), s.past.overlapped)]))
  }

  function File(s: State, g: Ref): State
    requires g in s.groups
  {
    s.(index := s.index[s.groups[g].id := g])
  }

  function IssueCreate(s: State, g: Ref, retried: Option<Op>): State
    requires g in s.groups
  {
    Emit(Put(s, g, s.groups[g].(status := InProgress)), g, CreateCall, retried)
  }

  /** addImpl. */
  function AddImpl(s: State, g: Ref, retried: Option<Op>): (t: State)
    requires g in s.groups
    ensures Local(s, t, g) && t.index == s.index[s.groups[g].id := g] && t.pendingDelete == s.pendingDelete
  {
    if !s.synced || s.groups[g].retryOp.Some? then File(s, g) else IssueCreate(File(s, g), g, retried)
  }

  function Expect(s: State, name: GroupName): State {
    if name in s.pendingDelete then s else s.(pendingDelete := s.pendingDelete[name := PENDING_DELETE])
  }

  /** The pending-delete entry of a group counts one more Delete in flight. */
  function CountUp(s: State, name: GroupName): State
    requires name in s.pendingDelete
  {
    s.(pendingDelete := s.pendingDelete[name :=
        s.pendingDelete[name].(refCnt := Some(RefCnt(s.pendingDelete, name) + 1), runOnClear := false)])
  }

  /** Issues a Delete and counts it. */
  function EmitDelete(s: State, g: Ref, retried: Option<Op>): State
    requires g in s.groups && s.groups[g].id.Group() in s.pendingDelete
  {
    Emit(CountUp(s, s.groups[g].id.Group()), g, DeleteCall, retried)
  }

  function IssueDelete(s: State, g: Ref, retried: Option<Op>): (t: State)
    requires g in s.groups && s.groups[g].id.Group() in s.pendingDelete
    ensures Local(s, t, g) && t.index == s.index
  {
    EmitDelete(Put(s, g, s.groups[g].(status := InProgress)), g, retried)
  }

  /** Takes a group out of its indexer and out of the retry queue; a deletion supersedes any retry. */
  function Unfile(s: State, g: Ref, state: GroupState): State
    requires g in s.groups
  {
    var o := s.groups[g];
    s.(index := s.index - {o.id}, retryQueue := s.retryQueue - {SgKey(o.id)},
       groups := s.groups[g := o.(retryOp := None, state := state)],
       past := s.past.(released := s.past.released + {g}))
  }

  /** The part of deleteImpl reached when no policy names the group. */
  function Release(s: State, g: Ref, retried: Option<Op>): (t: State)
    requires g in s.groups && s.groups[g].id.Group() in s.pendingDelete
    ensures g in t.groups && t.groups[g].id == s.groups[g].id
    ensures t.index == s.index - {s.groups[g].id} && t.policies == s.policies && s.inflight <= t.inflight
  {
    if s.groups[g].state == Init && s.groups[g].status != InProgress then Unfile(s, g, Init)
    else IssueDelete(Unfile(s, g, Garbage), g, retried)
  }

  /** deleteImpl. */
  function DeleteImpl(s: State, g: Ref, retried: Option<Op>): (t: State)
    requires g in s.groups
    ensures g in t.groups && s.inflight <= t.inflight && t.policies == s.policies
    ensures s.groups[g].state == Garbage ==> Local(s, t, g)
    ensures t.index == if s.groups[g].state != Garbage &&
              Namers(s.policies, s.groups[g].id.Group()) == {} then s.index - {s.groups[g].id}
                       else s.index
  {
    var o := s.groups[g];
    var s1 := Expect(s, o.id.Group());
    if o.state == Garbage then
      if o.retryOp.Some? then s1 else IssueDelete(s1, g, retried)
    else if Namers(s.policies, o.id.Group()) != {} then
      Put(s1, g, o.(deletePending := true))
    else
      Release(s1, g, retried)
  }

  function Merge(s: State, g: Ref, added: set<string>, removed: set<string>): State
    requires g in s.groups
  {
    Put(s, g, s.groups[g].(members := s.groups[g].members - removed + added))
  }

  /** updateImpl. */
  function UpdateImpl(s: State, g: Ref, added: set<string>, removed: set<string>, retried: Option<Op>): (t: State)
    requires g in s.groups
    ensures Local(s, t, g) && t.index == s.index && t.pendingDelete == s.pendingDelete
  {
    if added == {} && removed == {} && s.groups[g].members == {} then s
    else if s.groups[g].state != Created || s.groups[g].retryOp.Some? then Merge(s, g, added, removed)
    else Emit(Merge(s, g, added, removed), g, MembersCall, retried)
  }

  /** The security groups named by the rules of all policies applied to a group. */
  function RuleRefs(policies: map<string, Policy>, g: GroupName): set<Id> {
    set p, id | p in Namers(policies, g) && id in policies[p].refs :: id
  }

  /** updateRules. */
  function UpdateRules(s: State, g: Ref, retried: Option<Op>): (t: State)
    requires g in s.groups
    ensures Local(s, t, g) && t.index == s.index && t.pendingDelete == s.pendingDelete
  {
    var o := s.groups[g];
    var namers := Namers(s.policies, o.id.Group());
    if o.state != Created || o.retryOp.Some? then s
    else if namers == {} then
      if o.hasMembers then Emit(s, g, ClearCall, retried) else Put(s, g, o.(hasRules := false))
    else if exists p :: p in namers && !s.policies[p].ready then s
    else Emit(s, g, RulesCall(RuleRefs(s.policies, o.id.Group())), retried)
  }

  // ---------------------------------------------------------------- the retry queue

  /** UpdatePendingItem of a security group. */
  function UpdateItem(o: SecurityGroup, op: Op): SecurityGroup {
    if o.retryOp != Some(op) then o
    else o.(retryInProgress := false, retryOp := if o.status == Fine then None else o.retryOp)
  }

  /** RunOrDeletePendingItem of a security group: run it? */
  predicate Runs(o: SecurityGroup) {
    o.retryOp.None? || !o.retryInProgress
  }

  /** RunOrDeletePendingItem of a security group: delete it? */
  predicate Done(o: SecurityGroup) {
    o.retryOp.None?
  }

  function Reissue(s: State, g: Ref, op: Op): (t: State)
    requires g in s.groups
    ensures g in t.groups && s.inflight <= t.inflight
    ensures (s.groups[g].state == Garbage <==> op == DeleteOp) ==>
              Local(s, t, g) && (t.index == s.index || t.index == s.index[s.groups[g].id := g])
  {
    match op
    case CreateOp => AddImpl(s, g, Some(op))
    case UpdateMembersOp => UpdateImpl(s, g, {}, {}, Some(op))
    case DeleteOp => DeleteImpl(s, g, Some(op))
    case _ => if s.groups[g].id.kind == AppliedTo then UpdateRules(s, g, Some(op)) else s
  }

  /** A retried ClearMembers or UpdateRules asserts that its group is an appliedTo group; of any other it panics. */
  predicate Panics(o: SecurityGroup) {
    o.id.kind != AppliedTo && (o.retryOp == Some(ClearMembersOp) || o.retryOp == Some(UpdateRulesOp))
  }

  /** A retry that has succeeded: reconcile the group with the cloud. */
  function RunIdle(s: State, g: Ref): (t: State)
    requires g in s.groups
    ensures Local(s, t, g) && t.index == s.index
  {
    if s.groups[g].state == Garbage then s
    else if s.groups[g].id.kind == AppliedTo then UpdateRules(Put(s, g, s.groups[g].(hasMembers := false)), g, None)
    else UpdateImpl(s, g, {}, {}, None)
  }

  /** A retry proper: disarm, issue again, arm again. */
  function RunArmed(s: State, g: Ref, op: Op): (t: State)
    requires g in s.groups
    ensures g in t.groups && s.inflight <= t.inflight
  {
    var s1 := Reissue(Put(s, g, s.groups[g].(retryOp := None)), g, op);
    Put(s1, g, s1.groups[g].(retryOp := Some(op), retryInProgress := true))
  }

  /** runPendingItemImpl; where it panics no request is issued. */
  function RunItem(s: State, g: Ref): (t: State)
    requires g in s.groups
    ensures g in t.groups && s.inflight <= t.inflight
  {
    match s.groups[g].retryOp
    case None => RunIdle(s, g)
    case Some(op) => RunArmed(s, g, op)
  }

  /** A queued security group is an object of the machine. */
  predicate Held(s: State, key: QueueKey) {
    key in s.retryQueue ==> s.retryQueue[key].SgItem? && s.retryQueue[key].ref in s.groups
  }

  function Enqueue(s: State, item: RetryItem): State
    requires item.SgItem? && item.ref in s.groups
  {
    s.(retryQueue := s.retryQueue[SgKey(s.groups[item.ref].id) := item])
  }

  function Dequeue(s: State, key: QueueKey): State {
    s.(retryQueue := s.retryQueue - {key})
  }

  /** An item leaves the queue or stays with its new count. */
  function Requeue(s: State, drop: bool, item: RetryItem): State
    requires item.SgItem? && item.ref in s.groups
  {
    if drop then Dequeue(s, SgKey(s.groups[item.ref].id)) else Enqueue(s, item)
  }

  /** An item that has run, on a tick or after an answer. */
  function Charged(item: RetryItem, tick: bool): RetryItem {
    var more := if tick then 1 else 0;
    match item
    case SgItem(ref, opCnt, runs, asks) => SgItem(ref, opCnt - 1, runs + 1, asks + more)
    case GroupItem(pending, opCnt, runs, asks) => GroupItem(pending, opCnt - 1, runs + 1, asks + more)
  }

  /** A run is recorded, with whether it panicked, and the item leaves the queue or stays with its new count. */
  function Conclude(s: State, run: Ran, panics: bool, item: Option<RetryItem>): State {
    s.(past := s.past.(ran := s.past.ran + [run], panicked := s.past.panicked || panics),
       retryQueue := if item.None? then s.retryQueue - {run.key} else s.retryQueue[run.key := item.value])
  }

  /** A queued security group runs, and leaves the queue or stays. */
  function RunAndCharge(s: State, item: RetryItem, tick: bool, drop: bool): (t: State)
    requires item.SgItem? && item.ref in s.groups
    ensures s.inflight <= t.inflight
  {
    var o := s.groups[item.ref];
    Conclude(RunItem(s, item.ref), Ran(SgKey(o.id), o.retryOp, item.runs + 1, tick), Panics(o),
             if drop then None else Some(Charged(item, tick)))
  }

  /** PendingItemQueue.Update on the retry queue, for a security-group item. */
  function UpdateQueue(s: State, key: QueueKey, checkRun: bool, op: Op): (t: State)
    requires key in s.retryQueue && Held(s, key)
    ensures s.inflight <= t.inflight
  {
    var item := s.retryQueue[key];
    var s1 := Put(s, item.ref, UpdateItem(s.groups[item.ref], op));
    if !checkRun then s1 else CheckItem(s1, item)
  }

  function CheckItem(s: State, item: RetryItem): (t: State)
    requires item.SgItem? && item.ref in s.groups
    ensures s.inflight <= t.inflight
  {
    var o := s.groups[item.ref];
    if Runs(o) then RunAndCharge(s, item, false, Done(o) || item.opCnt - 1 <= 0)
    else Requeue(s, item.opCnt <= 0, item)
  }

  /** PendingItemQueue.CheckToRun, for one security-group item. */
  function TickItem(s: State, item: RetryItem): State
    requires item.SgItem? && item.ref in s.groups
  {
    var o := s.groups[item.ref];
    if !Runs(o) then s
    else if item.opCnt > 0 then RunAndCharge(s, item, true, Done(o))
    else Requeue(s, true, item)
  }

  /** The part of notifyImpl that arms the retry of a failed operation. */
  function ArmRetry(s: State, g: Ref, op: Op, failed: bool): (t: State)
    requires g in s.groups
    ensures g in t.groups
  {
    var o := s.groups[g];
    if failed && SgKey(o.id) !in s.retryQueue && (o.state != Garbage || op == DeleteOp)
    then Enqueue(Put(s, g, o.(retryOp := Some(op))), SgItem(g, OPERATION_COUNT, 0, 0))
    else s
  }

  /** The part of notifyImpl that arms, updates and runs the retry of an operation. */
  function SettleRetry(s: State, g: Ref, op: Op, failed: bool): (t: State)
    requires g in s.groups && Held(s, SgKey(s.groups[g].id))
    ensures s.inflight <= t.inflight
  {
    var s1 := ArmRetry(s, g, op, failed);
    var key := SgKey(s.groups[g].id);
    if key in s1.retryQueue then UpdateQueue(s1, key, !failed, op) else s1
  }

  // ---------------------------------------------------------------- policies

  /** computeRules succeeds only if every group it resolves is known. */
  predicate AllKnown(index: map<Id, Ref>, rules: seq<PolicyRule>) {
    forall g :: g in RemoteAddressGroups(rules) ==> Members(index, GroupName(Addr, g)) != {}
  }

  /** The security groups compiled rules refer to. */
  function Resolved(index: map<Id, Ref>, rules: seq<PolicyRule>): set<Id> {
    set id | id in index && id.kind == Addr && id.vpc != "" && id.name in RemoteAddressGroups(rules)
  }

  /** The addresses compiled rules owe to the members of address groups, by group. */
  function ResolvedIps(ips: map<string, set<Prefix>>, rules: seq<PolicyRule>): map<string, set<Prefix>> {
    map g | g in RemoteAddressGroups(rules) && g in ips && ips[g] != {} :: ips[g]
  }

  predicate Within(a: map<string, set<Prefix>>, b: map<string, set<Prefix>>) {
    forall g :: g in a ==> g in b && a[g] == b[g]
  }

  /** Some rule has someone on its remote side, and is not restricted to no service at all. */
  predicate Produces(rules: seq<PolicyRule>, refs: set<Id>, ips: map<string, set<Prefix>>) {
    exists r :: r in rules && r.services != Some([]) && HasRemote(r.Remote(), refs, ips)
  }

  predicate HasRemote(peer: Peer, refs: set<Id>, ips: map<string, set<Prefix>>) {
    peer.ipBlocks != [] || exists g :: g in peer.addressGroups && (g in ips || exists id :: id in refs && id.name == g)
  }

  /** computeRulesReady: every address group a policy names is known, and all its security groups are ready. */
  ghost predicate AllReady(index: map<Id, Ref>, groups: map<Ref, SecurityGroup>, rules: seq<PolicyRule>) {
    forall g :: g in NamedAddressGroups(rules) ==> GroupReady(index, groups, GroupName(Addr, g))
  }

  ghost predicate GroupReady(index: map<Id, Ref>, groups: map<Ref, SecurityGroup>, g: GroupName) {
    Members(index, g) != {} && forall id :: id in Members(index, g) ==>
        index[id] in groups && IsReady(groups[index[id]])
  }

  /** computeRules. */
  ghost function Computed(s: State, p: Policy): Policy {
    if !AllKnown(s.index, p.rules) then p.Bare()
    else
      var refs, ips := Resolved(s.index, p.rules), ResolvedIps(s.blocks.ips, p.rules);
      Policy(p.rules, p.appliedTo, refs, ips, Produces(p.rules, refs, ips), AllReady(s.index, s.groups, p.rules), {})
  }

  // ---------------------------------------------------------------- other moves

  /** A new object; a group found in the cloud starts out Created and confirmed. */
  function Allocate(s: State, id: Id, members: set<string>, state: GroupState): State {
    s.(groups := s.groups[s.next := NewGroup(id, members, state)], next := s.next + 1,
       past := s.past.(acked := if state == Created then s.past.acked + {id} else s.past.acked))
  }

  /** The IP-block group of an address group takes its addresses. */
  function SetIps(s: State, name: string, ips: set<Prefix>): State {
    s.(blocks := Blocks(s.blocks.ips[name := ips]))
  }

  /** When an IP-block group goes, policies whose compiled rules have addresses of its group have lost it. */
  function Lose(policies: map<string, Policy>, ips: map<string, set<Prefix>>, name: string): map<string, Policy> {
    if name !in ips then policies
    else
      map p | p in policies ::
        if name in policies[p].ips then policies[p].(lost := policies[p].lost + {name}) else policies[p]
  }

  /** An IP-block group goes as soon as it is deleted, whoever names it. */
  function Erase(s: State, id: Id): State
    requires id.IpBlocks()
  {
    s.(index := s.index - {id}, blocks := Blocks(s.blocks.ips - {id.name}),
       policies := Lose(s.policies, s.blocks.ips, id.name))
  }

  /** The cloud has the group. */
  function Confirm(s: State, g: Ref): State
    requires g in s.groups
  {
    Put(s, g, s.groups[g].(state := Created)).(past := s.past.(acked := s.past.acked + {s.groups[g].id}))
  }

  function Drop<T>(q: seq<T>, i: nat): seq<T>
    requires i < |q|
  {
    q[..i] + q[i + 1..]
  }

  /** The answer to request i is taken up; that of a Delete stays counted until CountDown. */
  function Answer(s: State, i: nat, op: Op): State
    requires i < |s.inflight|
  {
    s.(inflight := Drop(s.inflight, i),
       past := s.past.(reporting := Some(Report(s.inflight[i].id, op))))
  }

  /** An answer has been taken up. */
  function Rest(s: State): State {
    s.(past := s.past.(reporting := None))
  }

  /** The answer to Delete request i is taken up and uncounted. */
  function CountDown(s: State, i: nat, runOnClear: bool): State
    requires i < |s.inflight| && s.inflight[i].id.Group() in s.pendingDelete
  {
    var name := s.inflight[i].id.Group();
    s.(inflight := Drop(s.inflight, i), pendingDelete :=
        s.pendingDelete[name := s.pendingDelete[name].(refCnt := Some(RefCnt(s.pendingDelete, name) - 1),
            runOnClear := runOnClear)])
  }

  // ---------------------------------------------------------------- invariants

  /** No dangling pointers, and every object is filed under its own id. */
  ghost predicate Linked(s: State) {
    && (forall r :: r in s.groups ==> r < s.next)
    && (forall id :: id in s.index ==> s.index[id] in s.groups && s.groups[s.index[id]].id == id)
    && (forall i :: 0 <= i < |s.inflight| ==>
          s.inflight[i].ref in s.groups && s.groups[s.inflight[i].ref].id == s.inflight[i].id)
    && (forall k :: k in s.retryQueue ==>
          match k
          case SgKey(id) => s.retryQueue[k].SgItem? && s.retryQueue[k].ref in s.groups &&
              s.groups[s.retryQueue[k].ref].id == id
          case GroupKey(_) => s.retryQueue[k].GroupItem? && Proper(s.retryQueue[k].pending))
    && (forall g :: g in s.pendingDelete ==> s.pendingDelete[g].refCnt.Some? && Proper(s.pendingDelete[g]))
  }

  /** IP-block groups, and they alone, hold addresses. */
  ghost predicate Housed(index: map<Id, Ref>, ips: map<string, set<Prefix>>) {
    forall n :: n in ips <==> Id(Addr, n, "") in index
  }

  /**
   IP-block groups stay out of the cloud, the retry path and the queue. Rules are requested, and their retry armed, for
   appliedTo groups only.
   */
  ghost predicate Grounded(s: State) {
    && (forall i :: 0 <= i < |s.inflight| ==> !s.inflight[i].id.IpBlocks())
    && (forall r :: r in s.groups && s.groups[r].id.IpBlocks() ==> s.groups[r].retryOp.None?)
    && (forall k :: k in s.retryQueue && k.SgKey? ==> !k.id.IpBlocks())
    && (forall i :: 0 <= i < |s.inflight| && s.inflight[i].what.RulesCall? ==> s.inflight[i].id.kind == AppliedTo)
    && (forall r :: r in s.groups && s.groups[r].retryOp == Some(UpdateRulesOp) ==> s.groups[r].id.kind == AppliedTo)
  }

  /** A garbage object is in no indexer and has nothing but its deletion left to do. */
  ghost predicate Lifecycle(s: State)
    requires Linked(s)
  {
    && (forall id :: id in s.index ==> s.groups[s.index[id]].state != Garbage)
    && (forall r :: r in s.groups && s.groups[r].retryOp.Some? ==>
          (s.groups[r].state == Garbage <==> s.groups[r].retryOp.value == DeleteOp))
    && (forall i :: 0 <= i < |s.inflight| && s.inflight[i].what.DeleteCall? ==>
          s.groups[s.inflight[i].ref].state == Garbage)
  }

  /** Each pending-delete entry counts the Deletes in flight for its group; no entry, no Delete. */
  ghost predicate Counted(pendingDelete: map<GroupName, PendingGroup>, inflight: seq<Call>) {
    forall g :: RefCnt(pendingDelete, g) == CountDeletes(inflight, g)
  }

  /**
   Compiled rules only refer to indexed cloud address groups the policy names, confirmed ones if ready, and have
   addresses of groups it names only.
   */
  ghost predicate PolicySound(index: map<Id, Ref>, acked: set<Id>, p: Policy) {
    && p.lost <= p.ips.Keys && p.ips.Keys <= RemoteAddressGroups(p.rules)
    && (forall id :: id in p.refs ==> id in index && id.kind == Addr && !id.IpBlocks() && p.Names(id.Group()))
    && (p.ready ==> p.refs <= acked)
  }

  ghost predicate PoliciesSound(index: map<Id, Ref>, acked: set<Id>, policies: map<string, Policy>) {
    forall p :: p in policies ==> PolicySound(index, acked, policies[p])
  }

  /** The cloud has confirmed every created address group. */
  ghost predicate Confirmed(groups: map<Ref, SecurityGroup>, acked: set<Id>) {
    forall r :: r in groups && groups[r].id.kind == Addr && groups[r].state == Created ==> groups[r].id in acked
  }

  /**
   An item's runs and its remaining budget add up to the initial budget; it has run whenever it asked to on a tick.
   */
  predicate InBudget(item: RetryItem) {
    0 <= item.opCnt && item.opCnt + item.runs == OPERATION_COUNT && item.asks <= item.runs
  }

  /** The number of the last recorded run of an item. */
  function LastRun(ran: seq<Ran>, key: QueueKey): nat {
    if ran == [] then 0
    else if ran[|ran| - 1].key == key then ran[|ran| - 1].nth
    else LastRun(ran[..|ran| - 1], key)
  }

  /** Queued items are within budget, and their counts are those of the record. */
  ghost predicate Budgeted(retryQueue: map<QueueKey, RetryItem>, ran: seq<Ran>) {
    forall k :: k in retryQueue ==>
        InBudget(retryQueue[k]) && (retryQueue[k].runs > 0 ==> LastRun(ran, k) == retryQueue[k].runs)
  }

  /** The retry of an address group's ClearMembers, whose type assertion fails. */
  predicate Fatal(run: Ran) {
    run.key.SgKey? && run.key.id.kind == Addr && run.op == Some(ClearMembersOp)
  }

  /** Runs are numbered consecutively and within the budget, plus one if the last follows an answer. */
  ghost predicate Numbered(ran: seq<Ran>, i: nat)
    requires i < |ran|
  {
    && 1 <= ran[i].nth <= (if ran[i].tick then OPERATION_COUNT else OPERATION_COUNT + 1)
    && (ran[i].nth == 1 || ran[i].nth == LastRun(ran[..i], ran[i].key) + 1)
    && (ran[i].key.GroupKey? ==> ran[i].tick)
  }

  /** A panic happens exactly when an address group's ClearMembers is retried. */
  ghost predicate Recorded(ran: seq<Ran>, panicked: bool) {
    && (forall i :: 0 <= i < |ran| ==> Numbered(ran, i))
    && (panicked <==> exists i :: 0 <= i < |ran| && Fatal(ran[i]))
  }

  /** May this request be what a retry of `op` issues? */
  predicate Answers(op: Op, what: CallKind) {
    match op
    case CreateOp => what.CreateCall?
    case UpdateMembersOp => what.MembersCall?
    case DeleteOp => what.DeleteCall?
    case _ => what.RulesCall? || what.ClearCall?
  }

  /** What holds of every request at the moment it is issued. */
  ghost predicate Lawful(e: Issue) {
    var what := e.call.what;
    // never while a retry is armed: a retry disarms itself first, a superseding Delete disarms the retry
    && e.issuer.retryOp.None?
    && (e.retried.Some? ==> Answers(e.retried.value, what))
    // garbage deletes and nothing else; members and rules only of created groups
    && (e.issuer.state == Garbage <==> what.DeleteCall?)
    && (what.MembersCall? || what.ClearCall? || what.RulesCall? ==> e.issuer.state == Created)
    // rules refer to address groups the cloud has confirmed, and to groups in state Created unless Creates overlapped
    && (what.RulesCall? ==> what.ids <= e.acked && (!e.overlapped ==> what.ids <= e.ready))
  }

  /** A Delete of the object has been issued. */
  ghost predicate WasDeleted(trace: seq<Issue>, r: Ref) {
    exists i :: 0 <= i < |trace| && IsDelete(trace[i], r)
  }

  predicate IsDelete(e: Issue, r: Ref) {
    e.call.ref == r && e.call.what.DeleteCall?
  }

  /** The first Delete of an object finds no policy naming its group. */
  ghost predicate Unnamed(trace: seq<Issue>) {
    forall i :: 0 <= i < |trace| && trace[i].call.what.DeleteCall? && !WasDeleted(trace[..i], trace[i].call.ref) ==>
      trace[i].namers == {}
  }

  ghost predicate Traced(trace: seq<Issue>) {
    (forall i :: 0 <= i < |trace| ==> Lawful(trace[i])) && Unnamed(trace)
  }

  /** The invariant of every reachable state. */
  ghost predicate Safe(s: State) {
    && Linked(s) && Grounded(s) && Lifecycle(s) && Housed(s.index, s.blocks.ips)
    && PoliciesSound(s.index, s.past.acked, s.policies) && Confirmed(s.groups, s.past.acked)
    && Counted(s.pendingDelete, s.inflight) && Budgeted(s.retryQueue, s.past.ran)
    && Recorded(s.past.ran, s.past.panicked) && Traced(s.past.trace)
  }

  /** Every garbage object has been deleted at least once; not so between unfiling an object and its first Delete. */
  ghost predicate Condemned(groups: map<Ref, SecurityGroup>, trace: seq<Issue>) {
    forall r :: r in groups && groups[r].state == Garbage ==> WasDeleted(trace, r)
  }

  ghost predicate Stray(s: State, r: Ref)
    requires r in s.groups
  {
    s.groups[r].state != Garbage && !(s.groups[r].id in s.index && s.index[s.groups[r].id] == r)
  }

  /**
   Objects dropped from the index without being garbage are dead: nothing in flight, armed or queued. Released objects
   are such, or garbage.
   */
  ghost predicate NoStrays(s: State)
    requires Linked(s)
  {
    && (forall r :: r in s.groups && Stray(s, r) ==> s.groups[r].retryOp.None?)
    && (forall i :: 0 <= i < |s.inflight| ==> !Stray(s, s.inflight[i].ref))
    && (forall k :: k in s.retryQueue && k.SgKey? ==> !Stray(s, s.retryQueue[k].ref))
    && (forall r :: r in s.past.released ==> r in s.groups && (s.groups[r].state == Garbage || Stray(s, r)))
  }

  /** A group that is not created yet waits for one Create at most, and knows it. */
  ghost predicate OneCreate(s: State)
    requires Linked(s)
  {
    && (forall i :: 0 <= i < |s.inflight| && s.groups[s.inflight[i].ref].state == Init ==>
          s.inflight[i].what.CreateCall? && s.groups[s.inflight[i].ref].status == InProgress)
    && (forall i, j :: 0 <= i < j < |s.inflight| && s.inflight[i].what.CreateCall? && s.inflight[j].what.CreateCall? ==>
          s.inflight[i].ref != s.inflight[j].ref)
  }

  /** Rules that are ready refer to groups in state Created. */
  ghost predicate ReadyCreated(s: State)
    requires Linked(s)
  {
    forall p, id :: p in s.policies && s.policies[p].ready && id in s.policies[p].refs ==>
      id in s.index && s.groups[s.index[id]].state == Created
  }

  /** Indexed delete-pending groups no policy names. */
  ghost function Orphans(index: map<Id, Ref>, groups: map<Ref, SecurityGroup>, policies: map<string, Policy>): set<Id> {
    set id | id in index && index[id] in groups && groups[index[id]].deletePending && Namers(policies, id.Group()) == {}
  }

  /** All groups are known, but the compiled rules are not about the security groups there are. */
  ghost predicate StaleRefs(index: map<Id, Ref>, p: Policy) {
    AllKnown(index, p.rules) && p.refs != Resolved(index, p.rules)
  }

  /**
   Leaving aside the groups it has lost, and those are not back, the compiled rules have addresses their groups have
   not, or all groups are known and they lack some.
   */
  ghost predicate StaleIps(index: map<Id, Ref>, ips: map<string, set<Prefix>>, p: Policy) {
    || !Within(p.ips - p.lost, ResolvedIps(ips, p.rules))
    || !(p.lost !! ips.Keys)
    || (p.lost == {} && AllKnown(index, p.rules) && p.ips != ResolvedIps(ips, p.rules))
  }

  /** Policies whose compiled rules do not say what their groups are. */
  ghost function Stale(index: map<Id, Ref>, blocks: Blocks, policies: map<string, Policy>): set<string> {
    set p | p in policies && (StaleRefs(index, policies[p]) || StaleIps(index, blocks.ips, policies[p]))
  }

  ghost predicate Orderly(s: State)
    requires Linked(s)
  {
    !s.past.overlapped ==> NoStrays(s) && OneCreate(s) && ReadyCreated(s)
  }

  /** The invariant at and between the steps of an event. */
  ghost predicate Inv(s: State) {
    Safe(s) && Orderly(s) && Condemned(s.groups, s.past.trace)
  }

  /** The invariant between events. */
  ghost predicate Settled(s: State) {
    Inv(s) && s.past.reporting.None? && (!s.past.overlapped ==>
        Orphans(s.index, s.groups, s.policies) == {} && Stale(s.index, s.blocks, s.policies) == {})
  }

  // ---------------------------------------------------------------- stranded retries

  /** May the answer to this request be reported as this operation? */
  predicate Carries(what: CallKind, op: Op) {
    match what
    case CreateCall => op == CreateOp
    case MembersCall => op == UpdateMembersOp || op == ClearMembersOp
    case ClearCall => op == ClearMembersOp
    case RulesCall(_) => op == UpdateRulesOp
    case DeleteCall => op == DeleteOp
  }

  /** Some answer for the group, outstanding or being taken up, may be reported as this operation. */
  ghost predicate Awaited(inflight: seq<Call>, reporting: Option<Report>, id: Id, op: Op) {
    || (exists i :: 0 <= i < |inflight| && inflight[i].id == id && Carries(inflight[i].what, op))
    || reporting == Some(Report(id, op))
  }

  /** No answers for the group are outstanding, or being taken up, but of Deletes. */
  ghost predicate Quiet(inflight: seq<Call>, reporting: Option<Report>, id: Id) {
    && (forall i :: 0 <= i < |inflight| && inflight[i].id == id ==> inflight[i].what.DeleteCall?)
    && (reporting.Some? && reporting.value.id == id ==> reporting.value.op == DeleteOp)
  }

  /** The object is the queued one of its id, and has budget left. */
  predicate Affords(retryQueue: map<QueueKey, RetryItem>, id: Id, g: Ref) {
    var key := SgKey(id);
    key in retryQueue && retryQueue[key].SgItem? && retryQueue[key].ref == g && retryQueue[key].opCnt > 0
  }

  /**
   The retry of a group that is no garbage waits for an answer none is outstanding for. Nor can another answer arm the
   group anew: it is queued for good, or there is none.
   */
  ghost predicate Stranded(s: State, g: Ref) {
    g in s.groups && !Runs(s.groups[g]) && s.groups[g].state != Garbage &&
    var id := s.groups[g].id;
    && !Awaited(s.inflight, s.past.reporting, id, s.groups[g].retryOp.value)
    && (Quiet(s.inflight, s.past.reporting, id) || Affords(s.retryQueue, id, g))
  }

  /** Between two traces no request was issued for the object. */
  ghost predicate Silent(before: seq<Issue>, after: seq<Issue>, g: Ref) {
    forall i :: |before| <= i < |after| ==> after[i].call.ref != g
  }

  /** The object has been released, or its retry is still stranded and nothing has been requested for it. */
  ghost predicate Stays(s: State, t: State, g: Ref) {
    || g in t.past.released
    || (g in s.groups && Stranded(t, g) && t.groups[g].retryOp == s.groups[g].retryOp &&
        Silent(s.past.trace, t.past.trace, g))
  }

  /** Between two traces nothing but Deletes was requested for the object. */
  ghost predicate OnlyDeletes(before: seq<Issue>, after: seq<Issue>, g: Ref) {
    forall i :: |before| <= i < |after| && after[i].call.ref == g ==> after[i].call.what.DeleteCall?
  }

  /** Stranded retries stay stranded. */
  ghost predicate Patient(s: State, t: State) {
    !t.past.overlapped ==>
      && (forall g :: Stranded(s, g) ==> Stays(s, t, g))
      && (forall g :: g in s.past.released || Stranded(s, g) ==> OnlyDeletes(s.past.trace, t.past.trace, g))
  }

  // ---------------------------------------------------------------- what steps do

  /** Over any run objects keep their id, go Init, Created, Garbage in that order, and history only grows. */
  ghost predicate Progresses(s: State, t: State) {
    && s.next <= t.next
    && (forall r :: r in s.groups ==> && r in t.groups && t.groups[r].id == s.groups[r].id
                                      && s.groups[r].state.Rank() <= t.groups[r].state.Rank()
                                      && (s.groups[r].deletePending ==> t.groups[r].deletePending))
    && s.past.acked <= t.past.acked && (s.past.overlapped ==> t.past.overlapped)
    && (s.past.panicked ==> t.past.panicked) && s.past.ran <= t.past.ran && s.past.trace <= t.past.trace
    && s.past.released <= t.past.released
  }

  /** Over any run this is so, and stranded retries stay stranded. */
  ghost predicate Advances(s: State, t: State) {
    Progresses(s, t) && Patient(s, t) && t.past.reporting == s.past.reporting
  }

  /** A filed object that is not about to be deleted. */
  predicate Stable(s: State, id: Id) {
    id in s.index && s.index[id] in s.groups && !s.groups[s.index[id]].deletePending
  }

  /**
   What is kept for a group stays, nothing is kept for it yet if its deletion has just come up, and it does not begin to
   wait for its members.
   */
  predicate SameShelf(s: State, t: State, name: GroupName) {
    && (name in s.pendingDelete ==>
          name in t.pendingDelete && t.pendingDelete[name].added == s.pendingDelete[name].added)
    && (name in t.pendingDelete && name !in s.pendingDelete ==> t.pendingDelete[name].added == map[])
    && (GroupKey(name) in t.retryQueue ==> GroupKey(name) in s.retryQueue)
  }

  /**
   Leaving aside some groups: no object is filed anew, those not about to go stay, with their members, and so does what
   is kept for later.
   */
  ghost predicate Calm(s: State, t: State, but: set<GroupName>) {
    && (!t.past.overlapped ==>
          && (forall id :: id in t.index && id.Group() !in but ==> id in s.index)
          && (forall id: Id :: id.Group() !in but && Stable(s, id) ==>
                && Stable(t, id) && t.index[id] == s.index[id]
                && t.groups[t.index[id]].members == s.groups[s.index[id]].members))
    && forall name :: name !in but ==> SameShelf(s, t, name)
  }

  /** Requests are only added, and other groups are left alone. */
  ghost predicate Steady(s: State, t: State, but: set<GroupName>) {
    s.inflight <= t.inflight && Calm(s, t, but)
  }

  /** What any step does as long as policies keep their names. */
  ghost predicate Moves(s: State, t: State) {
    Advances(s, t) && SameNames(s.policies, t.policies) &&
        (!t.past.overlapped ==> Orphans(t.index, t.groups, t.policies) <= Orphans(s.index, s.groups, s.policies))
  }

  /** What a step of an event does, unless it files new groups or changes a policy. */
  ghost predicate Evolves(s: State, t: State) {
    Moves(s, t) && (!t.past.overlapped ==> Stale(t.index, t.blocks, t.policies) <= Stale(s.index, s.blocks, s.policies))
  }

  ghost predicate SameNames(m: map<string, Policy>, n: map<string, Policy>) {
    m.Keys == n.Keys && forall p :: p in m ==> m[p].rules == n[p].rules && m[p].appliedTo == n[p].appliedTo
  }
}
