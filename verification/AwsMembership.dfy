/** Membership of AWS security groups: the groups attached to the network interfaces of a VPC. */
module AwsMembership {
  import opened PolicyTypes
  import opened GroupNames

  datatype GroupKind = Foreign | AddressGroup | AppliedToGroup

  /** A network interface: the instance it is attached to, and the ids of its security groups. */
  datatype Nic = Nic(instance: Option<string>, groups: set<string>)

  datatype ResourceKind = VirtualMachine | NetworkInterface | OtherResource

  datatype Resource = Resource(kind: ResourceKind, name: string)

  /** The security groups of a VPC by id, and the default group. */
  datatype Vpc = Vpc(names: map<string, string>, default: string) {
    function Kind(id: string): GroupKind {
      if id !in names then Foreign
      else
        var (_, addressGroup, appliedTo) := Classify(Lower(names[id]));
        if addressGroup then AddressGroup else if appliedTo then AppliedToGroup else Foreign
    }

    predicate Managed(id: string) {
      Kind(id) != Foreign
    }

    /** Managed groups have names of their own, and the default group is not managed. */
    ghost predicate Valid() {
      && default in names && !Managed(default)
      && (forall a, b :: a in names && b in names && Managed(a) && Lower(names[a]) == Lower(names[b]) ==> a == b)
    }
  }

  // ---------------------------------------------------------------- one interface

  function Managed(vpc: Vpc, groups: set<string>): set<string> {
    set x | x in groups && vpc.Managed(x)
  }

  function AppliedTos(vpc: Vpc, groups: set<string>): set<string> {
    set x | x in groups && vpc.Kind(x) == AppliedToGroup
  }

  /** buildEc2SgsToAttachForCaseMemberOnlySgWithNoATSgAttached. */
  function KeepForeign(vpc: Vpc, managed: set<string>, foreign: set<string>): set<string> {
    managed + foreign + if foreign == {} then {vpc.default} else {}
  }

  /** The groups an interface is to get when group g is updated; None leaves it alone. */
  function Plan(vpc: Vpc, groups: set<string>, g: string, membershipOnly: bool, member: bool): Option<set<string>> {
    var managed := Managed(vpc, groups);
    var foreign := groups - managed;
    var appliedTos := |AppliedTos(vpc, groups)|;
    if (g in groups) == member then None
    else if member then
      if membershipOnly && appliedTos == 0 then Some(KeepForeign(vpc, managed + {g}, foreign)) else Some(managed + {g})
    else if !membershipOnly && appliedTos == 1 then Some(managed - {g} + {vpc.default})
    else if membershipOnly && appliedTos == 0 then Some(KeepForeign(vpc, managed - {g}, foreign))
    else Some(managed - {g})
  }

  /** Sorting the groups of an interface: managed ones, foreign ones, how many are applied-to, and is g there? */
  method SortGroups(vpc: Vpc, groups: set<string>, gName: string)
    returns (managed: set<string>, foreign: set<string>, appliedTos: nat, attached: bool)
    requires groups <= vpc.names.Keys
    ensures managed == Managed(vpc, groups) && foreign == groups - managed
    ensures appliedTos == |AppliedTos(vpc, groups)|
    ensures attached <==> HasName(vpc, managed, gName)
  {
    hide Vpc.Kind, Lower, Managed, AppliedTos, HasName;
    managed, foreign, appliedTos, attached := {}, {}, 0, false;
    var todo := groups;
    ghost var done := {};
    NoneSorted(vpc);
    while todo != {}
      invariant todo !! done && todo + done == groups && managed <= done
      invariant managed == Managed(vpc, done) && foreign == done - managed
      invariant appliedTos == |AppliedTos(vpc, done)|
      invariant attached <==> HasName(vpc, managed, gName)
      decreases todo
    {
      var x :| x in todo;
      SortNext(vpc, done, x);
      NameNext(vpc, managed, x, gName);
      if vpc.Kind(x) == Foreign {
        foreign := foreign + {x};
      } else {
        if vpc.Kind(x) == AppliedToGroup {
          appliedTos := appliedTos + 1;
        }
        if Lower(vpc.names[x]) == gName {
          attached := true;
        }
        managed := managed + {x};
      }
      todo, done := todo - {x}, done + {x};
    }
    assert done == groups;
  }

  ghost predicate HasName(vpc: Vpc, ids: set<string>, name: string) {
    exists x :: x in ids && x in vpc.names && Lower(vpc.names[x]) == name
  }

  lemma NameNext(vpc: Vpc, ids: set<string>, x: string, name: string)
    requires x in vpc.names
    ensures HasName(vpc, ids + {x}, name) <==> HasName(vpc, ids, name) || Lower(vpc.names[x]) == name
  {
  }

  lemma NoneSorted(vpc: Vpc)
    ensures Managed(vpc, {}) == {} && AppliedTos(vpc, {}) == {} && forall name :: !HasName(vpc, {}, name)
  {
  }

  lemma SortNext(vpc: Vpc, done: set<string>, x: string)
    requires x !in done
    ensures Managed(vpc, done + {x}) == if vpc.Kind(x) == Foreign then Managed(vpc, done) else Managed(vpc, done) + {x}
    ensures |AppliedTos(vpc, done + {x})| == |AppliedTos(vpc, done)| + if vpc.Kind(x) == AppliedToGroup then 1 else 0
  {
    hide Vpc.Kind;
    assert AppliedTos(vpc, done + {x}) == if vpc.Kind(x) == AppliedToGroup then AppliedTos(vpc, done) + {x}
        else AppliedTos(vpc, done);
  }

  method PlanNic(vpc: Vpc, groups: set<string>, g: string, membershipOnly: bool, member: bool)
    returns (plan: Option<set<string>>)
    requires vpc.Valid() && g in vpc.names && vpc.Managed(g) && groups <= vpc.names.Keys
    ensures plan == Plan(vpc, groups, g, membershipOnly, member) && (plan.Some? <==> (g in groups) != member)
    ensures membershipOnly == (vpc.Kind(g) == AddressGroup) && plan.Some? ==> Disposed(vpc, groups, plan.value)
  {
    if membershipOnly == (vpc.Kind(g) == AddressGroup) && (g in groups) != member {
      PlanDisposes(vpc, groups, g, member);
    }
    hide Disposed;
    var managed, foreign, appliedTos, attached := SortGroups(vpc, groups, Lower(vpc.names[g]));
    assert attached <==> g in groups by {
      if attached {
        var x :| x in managed && x in vpc.names && Lower(vpc.names[x]) == Lower(vpc.names[g]);
        assert x == g;
      }
    }
    if attached {
      if !member {
        managed := managed - {g};
        var toAttach := managed;
        if !membershipOnly && appliedTos == 1 {
          toAttach := toAttach + {vpc.default};
        }
        if membershipOnly && appliedTos == 0 {
          toAttach := KeepForeign(vpc, managed, foreign);
        }
        return Some(toAttach);
      }
    } else if member {
      managed := managed + {g};
      var toAttach := managed;
      if membershipOnly && appliedTos == 0 {
        toAttach := KeepForeign(vpc, managed, foreign);
      }
      return Some(toAttach);
    }
    return None;
  }

  // ---------------------------------------------------------------- one call

  /** A membership update: the group, its members, and the interfaces whose modification fails. */
  datatype Call = Call(g: string, vms: set<string>, nics: set<string>, failing: set<string>) {
    predicate Member(id: string, nic: Nic) {
      (nic.instance.Some? && nic.instance.value in vms) || id in nics
    }
  }

  /** What the call plans for an interface; interfaces without instance are skipped. */
  function PlanFor(vpc: Vpc, c: Call, id: string, nic: Nic): Option<set<string>> {
    if nic.instance.None? then None
    else Plan(vpc, nic.groups, c.g, vpc.Kind(c.g) == AddressGroup, c.Member(id, nic))
  }

  /** updateNetworkInterfaceSecurityGroups: no groups means the default group. */
  function Attach(vpc: Vpc, nic: Nic, groups: set<string>): Nic {
    nic.(groups := if groups == {} then {vpc.default} else groups)
  }

  function After(vpc: Vpc, c: Call, id: string, nic: Nic): Nic {
    var plan := PlanFor(vpc, c, id, nic);
    if plan.None? || id in c.failing then nic else Attach(vpc, nic, plan.value)
  }

  ghost function Apply(vpc: Vpc, nics: map<string, Nic>, c: Call): map<string, Nic> {
    map id | id in nics :: After(vpc, c, id, nics[id])
  }

  /** No planned modification failed. */
  ghost predicate Succeeds(vpc: Vpc, nics: map<string, Nic>, c: Call) {
    forall id :: id in nics && id in c.failing ==> PlanFor(vpc, c, id, nics[id]).None?
  }

  /** FindResourcesBasedOnKind. */
  method SortResources(resources: seq<Resource>) returns (vms: set<string>, nics: set<string>)
    ensures vms == set r | r in resources && r.kind == VirtualMachine :: Lower(r.name)
    ensures nics == set r | r in resources && r.kind == NetworkInterface :: Lower(r.name)
  {
    vms, nics := {}, {};
    for i := 0 to |resources|
      invariant vms == set r | r in resources[..i] && r.kind == VirtualMachine :: Lower(r.name)
      invariant nics == set r | r in resources[..i] && r.kind == NetworkInterface :: Lower(r.name)
    {
      assert resources[..i + 1] == resources[..i] + [resources[i]];
      if resources[i].kind == VirtualMachine {
        vms := vms + {Lower(resources[i].name)};
      }
      if resources[i].kind == NetworkInterface {
        nics := nics + {Lower(resources[i].name)};
      }
    }
    assert resources[..|resources|] == resources;
  }

  function CallOf(g: string, resources: seq<Resource>, failing: set<string>): Call {
    Call(g, set r | r in resources && r.kind == VirtualMachine :: Lower(r.name),
         set r | r in resources && r.kind == NetworkInterface :: Lower(r.name), failing)
  }

  ghost predicate Catalogued(vpc: Vpc, nics: map<string, Nic>) {
    forall id :: id in nics ==> nics[id].groups <= vpc.names.Keys
  }

  class Ec2Service {
    const vpc: Vpc
    var nics: map<string, Nic>

    constructor (vpc: Vpc, nics: map<string, Nic>)
      ensures this.vpc == vpc && this.nics == nics
    {
      this.vpc, this.nics := vpc, nics;
    }

    /** The first loop of updateSecurityGroupMembers: the interfaces to modify. */
    method PlanAll(c: Call) returns (plans: map<string, set<string>>)
      requires vpc.Valid() && c.g in vpc.names && vpc.Managed(c.g) && Catalogued(vpc, nics)
      ensures plans.Keys <= nics.Keys
      ensures forall id :: id in nics ==> PlanFor(vpc, c, id, nics[id]) == if id in plans then Some(plans[id]) else None
    {
      hide Plan;
      plans := map[];
      var todo := nics.Keys;
      while todo != {}
        invariant todo <= nics.Keys && plans.Keys <= nics.Keys - todo
        invariant forall id :: id in nics.Keys - todo ==>
                    PlanFor(vpc, c, id, nics[id]) == if id in plans then Some(plans[id]) else None
        decreases todo
      {
        var id :| id in todo;
        var nic := nics[id];
        if nic.instance.Some? {
          var plan := PlanNic(vpc, nic.groups, c.g, vpc.Kind(c.g) == AddressGroup, c.Member(id, nic));
          if plan.Some? {
            plans := plans[id := plan.value];
          }
        }
        todo := todo - {id};
      }
    }

    /** processNetworkInterfaceModifyConcurrently: each modification succeeds or fails on its own. */
    method ModifyAll(plans: map<string, set<string>>, failing: set<string>) returns (ok: bool)
      requires plans.Keys <= nics.Keys
      modifies this`nics
      ensures nics.Keys == old(nics).Keys
      ensures forall id :: id in nics ==>
                nics[id] == if id in plans && id !in failing then Attach(vpc, old(nics)[id], plans[id])
                    else old(nics)[id]
      ensures ok <==> plans.Keys !! failing
    {
      ok := true;
      var todo := plans.Keys;
      while todo != {}
        invariant todo <= plans.Keys && nics.Keys == old(nics).Keys
        invariant forall id :: id in nics ==>
                    nics[id] == if id in plans.Keys - todo && id !in failing then Attach(vpc, old(nics)[id], plans[id])
                        else old(nics)[id]
        invariant ok <==> plans.Keys - todo !! failing
        decreases todo
      {
        var id :| id in todo;
        if id in failing {
          ok := false;
        } else {
          nics := nics[id := Attach(vpc, nics[id], plans[id])];
        }
        todo := todo - {id};
      }
    }

    /** updateSecurityGroupMembers; DeleteSecurityGroup calls it without resources. */
    method UpdateSecurityGroupMembers(g: string, resources: seq<Resource>, failing: set<string>) returns (ok: bool)
      requires vpc.Valid() && g in vpc.names && vpc.Managed(g) && Catalogued(vpc, nics)
      modifies this`nics
      ensures nics == Apply(vpc, old(nics), CallOf(g, resources, failing))
      ensures ok <==> Succeeds(vpc, old(nics), CallOf(g, resources, failing))
      ensures forall id :: id in old(nics) && Modifies(vpc, CallOf(g, resources, failing), id, old(nics)[id]) ==>
                id in nics && Disposed(vpc, old(nics)[id].groups, nics[id].groups)
    {
      hide Plan, Disposed;
      var vms, ifs := SortResources(resources);
      var c := Call(g, vms, ifs, failing);
      assert c == CallOf(g, resources, failing);
      var plans := PlanAll(c);
      ghost var was := nics;
      ok := ModifyAll(plans, failing);
      forall id | id in was && Modifies(vpc, c, id, was[id])
        ensures id in nics && Disposed(vpc, was[id].groups, nics[id].groups)
      {
        ForeignersAfter(vpc, c, id, was[id]);
      }
    }
  }

  // ---------------------------------------------------------------- runs of calls

  ghost function Run(vpc: Vpc, nics: map<string, Nic>, calls: seq<Call>): map<string, Nic> {
    if calls == [] then nics else Apply(vpc, Run(vpc, nics, calls[..|calls| - 1]), calls[|calls| - 1])
  }

  ghost predicate Proper(vpc: Vpc, calls: seq<Call>) {
    vpc.Valid() && forall i :: 0 <= i < |calls| ==> calls[i].g in vpc.names && vpc.Managed(calls[i].g)
  }

  /** The call modifies the interface. */
  ghost predicate Modifies(vpc: Vpc, c: Call, id: string, nic: Nic) {
    PlanFor(vpc, c, id, nic).Some? && id !in c.failing
  }

  /** Interfaces modified at least once in a run. */
  ghost predicate Touched(vpc: Vpc, nics: map<string, Nic>, calls: seq<Call>, id: string)
    requires id in nics
    ensures id in Run(vpc, nics, calls)
  {
    if calls == [] then false
    else
      var front := calls[..|calls| - 1];
      var before := Touched(vpc, nics, front, id);
      before || Modifies(vpc, calls[|calls| - 1], id, Run(vpc, nics, front)[id])
  }

  /** Either policy applies and only managed groups are attached, or none applies and a foreign group is. */
  ghost predicate Dichotomy(vpc: Vpc, groups: set<string>) {
    if AppliedTos(vpc, groups) != {} then groups == Managed(vpc, groups) else groups != Managed(vpc, groups)
  }

  /** One modification establishes the dichotomy, whatever was there before. */
  lemma ModifiedIsSorted(vpc: Vpc, c: Call, id: string, nic: Nic)
    requires vpc.Valid() && vpc.Managed(c.g) && Modifies(vpc, c, id, nic)
    ensures Dichotomy(vpc, After(vpc, c, id, nic).groups)
  {
    hide Dichotomy, Vpc.Kind, Plan;
    var groups := nic.groups;
    assert Plan(vpc, groups, c.g, vpc.Kind(c.g) == AddressGroup, c.Member(id, nic)).Some?;
    PlanChanges(vpc, groups, c.g, c.Member(id, nic));
    if c.Member(id, nic) {
      AttachSorted(vpc, c.g, groups);
    } else {
      DetachSorted(vpc, c.g, groups);
    }
  }

  lemma PlanChanges(vpc: Vpc, groups: set<string>, g: string, member: bool)
    ensures Plan(vpc, groups, g, vpc.Kind(g) == AddressGroup, member).Some? <==> (g in groups) != member
  {
  }

  lemma AttachSorted(vpc: Vpc, g: string, groups: set<string>)
    requires vpc.Valid() && vpc.Managed(g) && g !in groups
    ensures var plan := Plan(vpc, groups, g, vpc.Kind(g) == AddressGroup, true);
            plan.Some? && plan.value != {} && Dichotomy(vpc, plan.value)
  {
    hide Vpc.Kind;
    var out := Plan(vpc, groups, g, vpc.Kind(g) == AddressGroup, true).value;
    var foreign := groups - Managed(vpc, groups);
    if vpc.Kind(g) == AppliedToGroup {
      assert g in AppliedTos(vpc, out);
    } else if AppliedTos(vpc, groups) == {} {
      assert AppliedTos(vpc, out) == {};
      var x :| x in out && x in foreign + {vpc.default};
      assert x !in Managed(vpc, out);
    } else {
      var x :| x in AppliedTos(vpc, groups);
      assert x in AppliedTos(vpc, out);
    }
  }

  lemma Sole<T>(s: set<T>, x: T)
    requires x in s
    ensures |s| == 1 ==> s == {x}
    ensures |s| != 1 ==> s - {x} != {}
  {
    assert |s - {x}| == |s| - 1;
  }

  lemma DetachSorted(vpc: Vpc, g: string, groups: set<string>)
    requires vpc.Valid() && vpc.Managed(g) && g in groups
    ensures var plan := Plan(vpc, groups, g, vpc.Kind(g) == AddressGroup, false);
            plan.Some? && plan.value != {} && Dichotomy(vpc, plan.value)
  {
    hide Vpc.Kind;
    var out := Plan(vpc, groups, g, vpc.Kind(g) == AddressGroup, false).value;
    var foreign := groups - Managed(vpc, groups);
    var ats := AppliedTos(vpc, groups);
    if vpc.Kind(g) == AppliedToGroup {
      assert g in ats;
      Sole(ats, g);
      if |ats| == 1 {
        assert AppliedTos(vpc, out) == {};
        assert vpc.default in out && vpc.default !in Managed(vpc, out);
      } else {
        var x :| x in ats - {g};
        assert x in AppliedTos(vpc, out);
      }
    } else if ats == {} {
      assert AppliedTos(vpc, out) == {};
      var x :| x in out && x in foreign + {vpc.default};
      assert x !in Managed(vpc, out);
    } else {
      var x :| x in ats;
      assert x in AppliedTos(vpc, out);
    }
  }

  /** After any run of updates and failures, every interface ever modified satisfies the dichotomy. */
  lemma {:induction false} TouchedIsSorted(vpc: Vpc, nics: map<string, Nic>, calls: seq<Call>, id: string)
    requires Proper(vpc, calls) && id in nics && Touched(vpc, nics, calls, id)
    ensures Dichotomy(vpc, Run(vpc, nics, calls)[id].groups)
  {
    hide Dichotomy, Plan;
    var front, c := calls[..|calls| - 1], calls[|calls| - 1];
    var was := Touched(vpc, nics, front, id);
    var nic := Run(vpc, nics, front)[id];
    if Modifies(vpc, c, id, nic) {
      ModifiedIsSorted(vpc, c, id, nic);
    } else {
      TouchedIsSorted(vpc, nics, front, id);
    }
  }

  /** An update of one managed group leaves the others where they are, and puts its own where it belongs. */
  lemma AttachesOwnOnly(vpc: Vpc, c: Call, id: string, nic: Nic, g: string)
    requires vpc.Valid() && vpc.Managed(c.g) && vpc.Managed(g) && nic.instance.Some?
    ensures g != c.g || id in c.failing ==> (g in After(vpc, c, id, nic).groups <==> g in nic.groups)
    ensures id !in c.failing ==> (c.g in After(vpc, c, id, nic).groups <==> c.Member(id, nic))
    ensures PlanFor(vpc, c, id, nic).None? ==> (c.g in nic.groups <==> c.Member(id, nic))
  {
    hide Vpc.Kind;
  }

  // ---------------------------------------------------------------- groups of others

  /** The groups of an interface that are not nephe's. */
  function Foreigners(vpc: Vpc, groups: set<string>): set<string> {
    set x | x in groups && !vpc.Managed(x)
  }

  /**
   What becomes of the groups of others on an interface that is modified. With an appliedTo group attached there are
   none. Without one, an address group leaves them alone, and the default group stands in where there are none; when
   the last appliedTo group goes, only the default group is left.
   */
  ghost predicate Disposed(vpc: Vpc, was: set<string>, now: set<string>) {
    Foreigners(vpc, now) ==
      if AppliedTos(vpc, now) != {} then {}
      else if AppliedTos(vpc, was) != {} || Foreigners(vpc, was) == {} then {vpc.default}
      else Foreigners(vpc, was)
  }

  lemma ForeignersAfter(vpc: Vpc, c: Call, id: string, nic: Nic)
    requires vpc.Valid() && vpc.Managed(c.g) && Modifies(vpc, c, id, nic)
    ensures Disposed(vpc, nic.groups, After(vpc, c, id, nic).groups)
  {
    hide Vpc.Kind, Plan;
    var was, member := nic.groups, c.Member(id, nic);
    PlanChanges(vpc, was, c.g, member);
    PlanDisposes(vpc, was, c.g, member);
  }

  lemma PlanDisposes(vpc: Vpc, was: set<string>, g: string, member: bool)
    requires vpc.Valid() && vpc.Managed(g) && (g in was) != member
    ensures var plan := Plan(vpc, was, g, vpc.Kind(g) == AddressGroup, member);
            plan.Some? && plan.value != {} && Disposed(vpc, was, plan.value)
  {
    hide Vpc.Kind, Plan;
    if member {
      AttachForeigners(vpc, g, was);
    } else {
      DetachForeigners(vpc, g, was);
    }
  }

  lemma AttachForeigners(vpc: Vpc, g: string, was: set<string>)
    requires vpc.Valid() && vpc.Managed(g) && g !in was
    ensures var plan := Plan(vpc, was, g, vpc.Kind(g) == AddressGroup, true);
            plan.Some? && plan.value != {} && Disposed(vpc, was, plan.value)
  {
    hide Vpc.Kind;
    var now := Plan(vpc, was, g, vpc.Kind(g) == AddressGroup, true).value;
    assert was - Managed(vpc, was) == Foreigners(vpc, was);
    if vpc.Kind(g) == AppliedToGroup {
      assert g in AppliedTos(vpc, now);
    } else {
      assert AppliedTos(vpc, now) == AppliedTos(vpc, was);
    }
  }

  lemma DetachForeigners(vpc: Vpc, g: string, was: set<string>)
    requires vpc.Valid() && vpc.Managed(g) && g in was
    ensures var plan := Plan(vpc, was, g, vpc.Kind(g) == AddressGroup, false);
            plan.Some? && plan.value != {} && Disposed(vpc, was, plan.value)
  {
    hide Vpc.Kind;
    DetachSorted(vpc, g, was);
    var now := Plan(vpc, was, g, vpc.Kind(g) == AddressGroup, false).value;
    assert was - Managed(vpc, was) == Foreigners(vpc, was);
    if vpc.Kind(g) == AppliedToGroup {
      Sole(AppliedTos(vpc, was), g);
      assert AppliedTos(vpc, now) == AppliedTos(vpc, was) - {g};
    } else {
      assert AppliedTos(vpc, now) == AppliedTos(vpc, was);
    }
  }

  /** Over any run with any failures an interface has the foreign groups it started with, the default group, or none. */
  lemma {:induction false} NoStrangers(vpc: Vpc, nics: map<string, Nic>, calls: seq<Call>, id: string)
    requires Proper(vpc, calls) && id in nics
    ensures id in Run(vpc, nics, calls)
    ensures Foreigners(vpc, Run(vpc, nics, calls)[id].groups) in
              {Foreigners(vpc, nics[id].groups), {vpc.default}, {}}
  {
    if calls != [] {
      var front, c := calls[..|calls| - 1], calls[|calls| - 1];
      NoStrangers(vpc, nics, front, id);
      var nic := Run(vpc, nics, front)[id];
      hide Foreigners, Plan, Vpc.Kind, Vpc.Valid;
      if Modifies(vpc, c, id, nic) {
        ForeignersAfter(vpc, c, id, nic);
      }
    }
  }

  /** Address groups alone never move an interface out of the groups of others it started with. */
  lemma {:induction false} AddressGroupsKeepForeigners(vpc: Vpc, nics: map<string, Nic>, calls: seq<Call>, id: string)
    requires Proper(vpc, calls) && forall i :: 0 <= i < |calls| ==> vpc.Kind(calls[i].g) == AddressGroup
    requires id in nics && AppliedTos(vpc, nics[id].groups) == {} && Foreigners(vpc, nics[id].groups) != {}
    ensures id in Run(vpc, nics, calls) && AppliedTos(vpc, Run(vpc, nics, calls)[id].groups) == {}
    ensures Foreigners(vpc, Run(vpc, nics, calls)[id].groups) == Foreigners(vpc, nics[id].groups)
  {
    if calls != [] {
      var front, c := calls[..|calls| - 1], calls[|calls| - 1];
      AddressGroupsKeepForeigners(vpc, nics, front, id);
      var nic := Run(vpc, nics, front)[id];
      NoneApplied(vpc, c, id, nic);
      hide Foreigners, Plan, Vpc.Kind, Vpc.Valid, AppliedTos;
      if Modifies(vpc, c, id, nic) {
        ForeignersAfter(vpc, c, id, nic);
      }
    }
  }

  lemma NoneApplied(vpc: Vpc, c: Call, id: string, nic: Nic)
    requires vpc.Valid() && vpc.Kind(c.g) == AddressGroup && AppliedTos(vpc, nic.groups) == {}
    ensures AppliedTos(vpc, After(vpc, c, id, nic).groups) == {}
  {
    hide Vpc.Kind;
    forall x | x in After(vpc, c, id, nic).groups
      ensures x in nic.groups || x == c.g || x == vpc.default
    {}
    assert vpc.Kind(vpc.default) == Foreign;
    forall x | x in After(vpc, c, id, nic).groups ensures vpc.Kind(x) != AppliedToGroup {
      assert x in nic.groups ==> x !in AppliedTos(vpc, nic.groups);
    }
  }

  /** The membership a run leaves: that of the latest call for a group, if that call succeeded. */
  lemma {:induction false} LatestCallDecides(vpc: Vpc, nics: map<string, Nic>, calls: seq<Call>, k: nat, id: string)
    requires Proper(vpc, calls) && k < |calls| && id in nics && nics[id].instance.Some?
    requires forall j :: k < j < |calls| ==> calls[j].g != calls[k].g
    requires Succeeds(vpc, Run(vpc, nics, calls[..k]), calls[k])
    ensures id in Run(vpc, nics, calls) && Run(vpc, nics, calls)[id].instance == nics[id].instance
    ensures calls[k].g in Run(vpc, nics, calls)[id].groups <==> calls[k].Member(id, nics[id])
  {
    hide Plan, Vpc.Kind, Vpc.Valid, PlanFor;
    var n := |calls| - 1;
    var front, c := calls[..n], calls[n];
    SameInstance(vpc, nics, front, id);
    var nic := Run(vpc, nics, front)[id];
    AttachesOwnOnly(vpc, c, id, nic, calls[k].g);
    if k < n {
      assert front[..k] == calls[..k];
      LatestCallDecides(vpc, nics, front, k, id);
    }
  }

  lemma {:induction false} SameInstance(vpc: Vpc, nics: map<string, Nic>, calls: seq<Call>, id: string)
    requires id in nics
    ensures id in Run(vpc, nics, calls) && Run(vpc, nics, calls)[id].instance == nics[id].instance
    ensures nics[id].instance.None? ==> Run(vpc, nics, calls)[id] == nics[id]
  {
    hide Plan;
    if calls != [] {
      SameInstance(vpc, nics, calls[..|calls| - 1], id);
    }
  }
}
