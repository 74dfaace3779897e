/** The compiler and the reconciler mean the same groups: rules compiled earlier say what rules compiled now would. */
module CompiledReferences {
  import opened PolicyTypes
  import opened Cidr
  import opened GroupMachine
  import opened GroupInvariants
  import RuleCompiler

  /** The directory lists exactly the indexed address groups. */
  ghost predicate Lists(index: map<Id, Ref>, d: RuleCompiler.Directory) {
    && (forall g, sg :: g in d && sg in d[g] ==> sg.id.name == g && Id(Addr, g, sg.id.vpc) in index)
    && (forall id :: id in index && id.kind == Addr ==> Listed(d, id))
  }

  ghost predicate Listed(d: RuleCompiler.Directory, id: Id) {
    id.name in d && exists sg :: sg in d[id.name] && sg.id.vpc == id.vpc
  }

  /** The addresses a directory has for a group. */
  function Addresses(d: RuleCompiler.Directory, g: string): set<Prefix> {
    if g in d then set sg, x | sg in d[g] && x in sg.ips :: x else {}
  }

  /** The cloud security groups a directory has for a group. */
  function Clouded(d: RuleCompiler.Directory, g: string): set<RuleCompiler.SgId> {
    if g in d then set sg | sg in d[g] && sg.id.vpc != "" :: sg.id else {}
  }

  /** The directory is that of a state: its groups, and their addresses. */
  ghost predicate Reflects(s: State, d: RuleCompiler.Directory) {
    Lists(s.index, d) && forall g :: Addresses(d, g) == if g in s.blocks.ips then s.blocks.ips[g] else {}
  }

  /** What the compiled rules of a policy have from each of its groups is what the directory has for it. */
  ghost predicate Reads(d: RuleCompiler.Directory, p: Policy) {
    && RuleCompiler.Compilable(d, p.rules)
    && forall g :: g in RemoteAddressGroups(p.rules) ==>
         && Clouded(d, g) == (set id | id in p.refs && id.name == g :: RuleCompiler.SgId(g, id.vpc))
         && Addresses(d, g) == if g in p.ips then p.ips[g] else {}
  }

  lemma SameKnown(index: map<Id, Ref>, d: RuleCompiler.Directory, g: string)
    requires Lists(index, d)
    ensures RuleCompiler.Known(d, g) <==> Members(index, GroupName(Addr, g)) != {}
  {
    if RuleCompiler.Known(d, g) {
      assert d[g][0] in d[g];
      assert Id(Addr, g, d[g][0].id.vpc) in Members(index, GroupName(Addr, g));
    }
    if id :| id in Members(index, GroupName(Addr, g)) {
      assert Listed(d, id);
    }
  }

  /**
   A policy compiles exactly if the reconciler takes it to, and refers to exactly the groups the reconciler tracks.
   */
  lemma ReferencedIsResolved(index: map<Id, Ref>, d: RuleCompiler.Directory, rules: seq<PolicyRule>)
    requires Lists(index, d)
    ensures RuleCompiler.Compilable(d, rules) <==> AllKnown(index, rules)
    ensures Resolved(index, rules) == set id | id in RuleCompiler.Referenced(d, rules) :: Id(Addr, id.name, id.vpc)
  {
    forall g ensures RuleCompiler.Known(d, g) <==> Members(index, GroupName(Addr, g)) != {} {
      SameKnown(index, d, g);
    }
    forall id | id in Resolved(index, rules)
      ensures RuleCompiler.SgId(id.name, id.vpc) in RuleCompiler.Referenced(d, rules)
    {
      var r :| r in rules && id.name in r.Remote().addressGroups;
      assert Listed(d, id);
      var sg :| sg in d[id.name] && sg.id.vpc == id.vpc;
      assert sg.id == RuleCompiler.SgId(id.name, id.vpc);
    }
    forall id | id in RuleCompiler.Referenced(d, rules) ensures Id(Addr, id.name, id.vpc) in Resolved(index, rules) {
      var r, g, sg :| r in rules && g in r.Remote().addressGroups && g in d && sg in d[g] && sg.id.vpc != "" &&
          sg.id == id;
      assert g in RemoteAddressGroups(rules);
    }
  }

  lemma CloudedIsResolved(index: map<Id, Ref>, d: RuleCompiler.Directory, rules: seq<PolicyRule>, g: string)
    requires Lists(index, d) && g in RemoteAddressGroups(rules)
    ensures Clouded(d, g) == set id | id in Resolved(index, rules) && id.name == g :: RuleCompiler.SgId(g, id.vpc)
  {
    forall id | id in Resolved(index, rules) && id.name == g ensures RuleCompiler.SgId(g, id.vpc) in Clouded(d, g) {
      assert Listed(d, id);
      var sg :| sg in d[g] && sg.id.vpc == id.vpc;
      assert sg.id == RuleCompiler.SgId(g, id.vpc);
    }
    forall c | c in Clouded(d, g)
      ensures c in set id | id in Resolved(index, rules) && id.name == g :: RuleCompiler.SgId(g, id.vpc)
    {
      assert Id(Addr, g, c.vpc) in Resolved(index, rules);
    }
  }

  /** What the reconciler records of a policy it compiles is what the compiler reads. */
  lemma ResolvedReads(s: State, d: RuleCompiler.Directory, p: Policy)
    requires Reflects(s, d) && AllKnown(s.index, p.rules)
    requires p.refs == Resolved(s.index, p.rules) && p.ips == ResolvedIps(s.blocks.ips, p.rules)
    ensures Reads(d, p)
  {
    hide AllKnown, Resolved, Lists, Clouded, Addresses;
    ReferencedIsResolved(s.index, d, p.rules);
    forall g | g in RemoteAddressGroups(p.rules)
      ensures Clouded(d, g) == set id | id in p.refs && id.name == g :: RuleCompiler.SgId(g, id.vpc)
    {
      CloudedIsResolved(s.index, d, p.rules, g);
    }
  }

  /** Whom a group has: the machines of its security groups and those at its addresses. */
  lemma GroupHasIs(d: RuleCompiler.Directory, g: string, f: RuleCompiler.Flow)
    ensures RuleCompiler.GroupHas(d, g, f) <==>
            (exists x :: x in Addresses(d, g) && Covers(x, f.address)) ||
                (exists id :: id in Clouded(d, g) && id in f.groups)
  {
    if RuleCompiler.GroupHas(d, g, f) {
      var sg :| sg in d[g] && RuleCompiler.MemberOf(sg, f);
      if sg.id.vpc != "" && sg.id in f.groups {
        assert sg.id in Clouded(d, g);
      } else {
        var x :| x in sg.ips && Covers(x, f.address);
        assert x in Addresses(d, g);
      }
    }
    if x :| x in Addresses(d, g) && Covers(x, f.address) {
      var sg :| sg in d[g] && x in sg.ips;
      assert RuleCompiler.MemberOf(sg, f);
    }
    if id :| id in Clouded(d, g) && id in f.groups {
      var sg :| sg in d[g] && sg.id == id && id.vpc != "";
      assert RuleCompiler.MemberOf(sg, f);
    }
  }

  /** Directories that a policy reads alike permit the same traffic. */
  lemma ReadAlike(a: RuleCompiler.Directory, b: RuleCompiler.Directory, p: Policy, dir: Direction, f: RuleCompiler.Flow)
    requires Reads(a, p) && Reads(b, p)
    ensures RuleCompiler.PolicyAllows(a, p.rules, dir, f) <==> RuleCompiler.PolicyAllows(b, p.rules, dir, f)
  {
    hide Clouded, Addresses, RuleCompiler.GroupHas, RuleCompiler.ServicesAllow;
    forall g | g in RemoteAddressGroups(p.rules)
      ensures RuleCompiler.GroupHas(a, g, f) <==> RuleCompiler.GroupHas(b, g, f)
    {
      GroupHasIs(a, g, f);
      GroupHasIs(b, g, f);
    }
    forall r | r in p.rules
      ensures RuleCompiler.PeerAllows(a, r.Remote(), f) <==> RuleCompiler.PeerAllows(b, r.Remote(), f)
    {
      forall g | g in r.Remote().addressGroups ensures g in RemoteAddressGroups(p.rules) {}
    }
  }

  /**
   Between events, rules compiled earlier, from what the directory was then, permit exactly what the policy means with
   the groups as they are now. Creates must not have overlapped, and none of its IP-block groups been deleted since.
   */
  lemma CompiledIsCurrent(s: State, name: string, before: RuleCompiler.Directory, now: RuleCompiler.Directory,
                          dir: Direction, f: RuleCompiler.Flow)
    requires Settled(s) && !s.past.overlapped && name in s.policies && s.policies[name].lost == {}
    requires AllKnown(s.index, s.policies[name].rules) && Reads(before, s.policies[name]) && Reflects(s, now)
    ensures RuleCompiler.PolicyAllows(before, s.policies[name].rules, dir, f) <==>
            RuleCompiler.PolicyAllows(now, s.policies[name].rules, dir, f)
  {
    hide Settled, AllKnown, Resolved, ResolvedIps, Reads, Reflects, RuleCompiler.PolicyAllows;
    var p := s.policies[name];
    RulesMean(s, name);
    ResolvedReads(s, now, p);
    ReadAlike(before, now, p, dir, f);
  }

  /** Rules are compiled from the directory of the moment. */
  lemma ComputedReads(s: State, d: RuleCompiler.Directory, p: Policy)
    requires Reflects(s, d) && AllKnown(s.index, p.rules)
    ensures Reads(d, Computed(s, p))
  {
    hide AllKnown, Resolved, ResolvedIps, Reads, Reflects;
    ResolvedReads(s, d, Computed(s, p));
  }

  lemma RemoteReads(d: RuleCompiler.Directory, p: Policy, r: PolicyRule)
    requires Reads(d, p) && r in p.rules && forall g :: g in p.ips ==> p.ips[g] != {}
    ensures RuleCompiler.HasRemote(d, r.Remote()) <==> HasRemote(r.Remote(), p.refs, p.ips)
  {
    var peer := r.Remote();
    forall g | g in peer.addressGroups
      ensures (g in d && exists sg :: sg in d[g] && (sg.ips != [] || sg.id.vpc != "")) <==>
              (g in p.ips || exists id :: id in p.refs && id.name == g)
    {
      assert g in RemoteAddressGroups(p.rules);
      GroupReads(d, p, g);
    }
  }

  lemma GroupReads(d: RuleCompiler.Directory, p: Policy, g: string)
    requires Reads(d, p) && g in RemoteAddressGroups(p.rules) && forall g :: g in p.ips ==> p.ips[g] != {}
    ensures (g in d && exists sg :: sg in d[g] && (sg.ips != [] || sg.id.vpc != "")) <==>
            (g in p.ips || exists id :: id in p.refs && id.name == g)
  {
    if g in d {
      if sg :| sg in d[g] && (sg.ips != [] || sg.id.vpc != "") {
        if sg.ips != [] {
          assert sg.ips[0] in sg.ips && sg.ips[0] in Addresses(d, g);
        } else {
          assert sg.id in Clouded(d, g);
        }
      }
    }
    if g in p.ips {
      var x :| x in p.ips[g];
      assert x in Addresses(d, g);
    }
    if id :| id in p.refs && id.name == g {
      assert RuleCompiler.SgId(g, id.vpc) in Clouded(d, g);
    }
  }

  /** The reconciler has compiled rules for a policy exactly if the compiler, given the groups there are, makes some. */
  lemma ComputedProduces(s: State, d: RuleCompiler.Directory, p: Policy)
    requires Reflects(s, d)
    ensures Computed(s, p).compiled <==>
            RuleCompiler.Compilable(d, p.rules) && exists r :: r in p.rules && RuleCompiler.Productive(d, r)
  {
    ReferencedIsResolved(s.index, d, p.rules);
    if AllKnown(s.index, p.rules) {
      var q := Computed(s, p);
      ComputedReads(s, d, p);
      hide AllKnown, Resolved, Reads, Reflects, HasRemote, RuleCompiler.HasRemote;
      forall r | r in p.rules
        ensures RuleCompiler.HasRemote(d, r.Remote()) <==> HasRemote(r.Remote(), q.refs, q.ips)
      {
        RemoteReads(d, q, r);
      }
    }
  }

  /** So what is sent for a group, compiled policy by policy at different times, is what its policies mean now. */
  lemma SentIsCurrent(s: State, names: seq<string>, ds: seq<RuleCompiler.Directory>, now: RuleCompiler.Directory,
                      dir: Direction, f: RuleCompiler.Flow)
    requires Settled(s) && !s.past.overlapped && Reflects(s, now) && |ds| == |names|
    requires forall i :: 0 <= i < |names| ==>
               && names[i] in s.policies && s.policies[names[i]].lost == {}
               && AllKnown(s.index, s.policies[names[i]].rules)
               && Reads(ds[i], s.policies[names[i]])
    ensures var policies := seq(|names|, i requires 0 <= i < |names| &&
              names[i] in s.policies => s.policies[names[i]].rules);
            RuleCompiler.SomeAllows(ds, policies, dir, f) <==>
            exists p :: p in names && p in s.policies && RuleCompiler.PolicyAllows(now, s.policies[p].rules, dir, f)
  {
    hide Settled, AllKnown, Reads, Reflects, RuleCompiler.PolicyAllows;
    var policies := seq(|names|, i requires 0 <= i < |names| && names[i] in s.policies => s.policies[names[i]].rules);
    forall i | 0 <= i < |names|
      ensures policies[i] == s.policies[names[i]].rules
      ensures RuleCompiler.PolicyAllows(ds[i], policies[i], dir, f) <==>
                RuleCompiler.PolicyAllows(now, policies[i], dir, f)
    {
      CompiledIsCurrent(s, names[i], ds[i], now, dir, f);
    }
    if RuleCompiler.SomeAllows(ds, policies, dir, f) {
      var i :| 0 <= i < |policies| && RuleCompiler.PolicyAllows(ds[i], policies[i], dir, f);
      assert names[i] in names;
    }
    if p :| p in names && p in s.policies && RuleCompiler.PolicyAllows(now, s.policies[p].rules, dir, f) {
      var i :| 0 <= i < |names| && names[i] == p;
      assert RuleCompiler.PolicyAllows(ds[i], policies[i], dir, f);
    }
  }
}
