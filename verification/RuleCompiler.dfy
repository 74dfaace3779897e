/** From policy rules to the rules of a cloud security group, and on to EC2 permissions. */
module RuleCompiler {
  import opened Basics
  import opened PolicyTypes
  import opened Cidr

  /** A membership-only security group. */
  datatype SgId = SgId(name: string, vpc: string)

  /** An indexed address security group: the one without VPC holds IP blocks. */
  datatype AddrSg = AddrSg(id: SgId, ips: seq<Prefix>)

  /** ByIndex of the address-group indexer; a group that is missing or empty is not known. */
  type Directory = map<string, seq<AddrSg>>

  /** An IngressRule or EgressRule: the peers it admits, on one port and protocol or on any. */
  datatype CloudRule = CloudRule(port: Option<nat>, protocol: Option<nat>, ips: seq<Prefix>, sgs: seq<SgId>)

  /** Traffic to or from a remote address that belongs to some security groups. */
  datatype Flow = Flow(address: nat, groups: set<SgId>, protocol: nat, port: nat)

  // ---------------------------------------------------------------- what rules permit

  function ProtocolNumber(p: Protocol): Option<nat> {
    match p
    case TCP => Some(6)
    case UDP => Some(17)
    case SCTP => Some(132)
    case OtherProtocol(_) => None
  }

  predicate Matches(want: Option<nat>, have: nat) {
    want.Some? ==> want.value == have
  }

  ghost predicate PeersAllow(ips: seq<Prefix>, sgs: seq<SgId>, f: Flow) {
    CoveredBy(ips, f.address) || exists id :: id in sgs && id in f.groups
  }

  ghost predicate Allows(r: CloudRule, f: Flow) {
    Matches(r.port, f.port) && Matches(r.protocol, f.protocol) && PeersAllow(r.ips, r.sgs, f)
  }

  ghost predicate Permits(rules: seq<CloudRule>, f: Flow) {
    exists r :: r in rules && Allows(r, f)
  }

  /** A policy service admits its own protocol and port; a protocol the cloud cannot name admits nothing. */
  ghost predicate ServiceAllows(s: Service, f: Flow) {
    && (s.protocol.Some? ==> ProtocolNumber(s.protocol.value) == Some(f.protocol))
    && Matches(s.port, f.port)
  }

  ghost predicate ServicesAllow(services: Option<seq<Service>>, f: Flow) {
    services.Some? ==> exists s :: s in services.value && ServiceAllows(s, f)
  }

  ghost predicate MemberOf(sg: AddrSg, f: Flow) {
    CoveredBy(sg.ips, f.address) || (sg.id.vpc != "" && sg.id in f.groups)
  }

  ghost predicate GroupHas(d: Directory, g: string, f: Flow) {
    g in d && exists sg :: sg in d[g] && MemberOf(sg, f)
  }

  ghost predicate PeerAllows(d: Directory, p: Peer, f: Flow) {
    CoveredBy(p.ipBlocks, f.address) || exists g :: g in p.addressGroups && GroupHas(d, g, f)
  }

  ghost predicate RuleAllows(d: Directory, r: PolicyRule, f: Flow) {
    PeerAllows(d, r.Remote(), f) && ServicesAllow(r.services, f)
  }

  /** Some rule of that direction permits the flow. */
  ghost predicate PolicyAllows(d: Directory, rules: seq<PolicyRule>, dir: Direction, f: Flow) {
    exists r :: r in rules && r.direction == dir && RuleAllows(d, r, f)
  }

  predicate Known(d: Directory, g: string) {
    g in d && d[g] != []
  }

  ghost predicate Compilable(d: Directory, rules: seq<PolicyRule>) {
    forall r, g :: r in rules && g in r.Remote().addressGroups ==> Known(d, g)
  }

  /** What the compiler can encode: a port that is not 0, a protocol it has a number for. */
  predicate Encodable(s: Service) {
    s.port != Some(0) && (s.protocol.Some? ==> ProtocolNumber(s.protocol.value).Some?)
  }

  ghost predicate AllEncodable(rules: seq<PolicyRule>) {
    forall r, s :: r in rules && r.services.Some? && s in r.services.value ==> Encodable(s)
  }

  ghost predicate ValidPeers(d: Directory, rules: seq<PolicyRule>) {
    && (forall r, p :: r in rules && p in r.Remote().ipBlocks ==> Valid(p))
    && (forall g, sg, p :: g in d && sg in d[g] && p in sg.ips ==> Valid(p))
  }

  // ---------------------------------------------------------------- one policy rule

  /** The addresses and groups of one address group. */
  method ExpandGroup(sgs: seq<AddrSg>) returns (ips: seq<Prefix>, ids: seq<SgId>)
    ensures forall f :: PeersAllow(ips, ids, f) <==> exists sg :: sg in sgs && MemberOf(sg, f)
    ensures forall p :: p in ips <==> exists sg :: sg in sgs && p in sg.ips
    ensures forall id :: id in ids <==> exists sg :: sg in sgs && sg.id == id && id.vpc != ""
  {
    ips, ids := [], [];
    for i := 0 to |sgs|
      invariant forall p :: p in ips <==> exists sg :: sg in sgs[..i] && p in sg.ips
      invariant forall id :: id in ids <==> exists sg :: sg in sgs[..i] && sg.id == id && id.vpc != ""
    {
      assert sgs[..i + 1] == sgs[..i] + [sgs[i]];
      ips := ips + sgs[i].ips;
      if sgs[i].id.vpc != "" {
        ids := ids + [sgs[i].id];
      }
    }
    assert sgs[..|sgs|] == sgs;
  }

  /** The sources or destinations of a rule, resolved; not known if it names a group nobody has announced. */
  method CompilePeer(d: Directory, p: Peer) returns (known: bool, ips: seq<Prefix>, ids: seq<SgId>)
    ensures known <==> forall g :: g in p.addressGroups ==> Known(d, g)
    ensures known ==> forall f :: PeersAllow(ips, ids, f) <==> PeerAllows(d, p, f)
    ensures known ==> forall q :: q in ips <==>
              q in p.ipBlocks || exists g, sg :: g in p.addressGroups && g in d && sg in d[g] && q in sg.ips
    ensures known ==> forall id :: id in ids <==>
              exists g, sg :: g in p.addressGroups && g in d && sg in d[g] && sg.id == id && id.vpc != ""
  {
    ips, ids := p.ipBlocks, [];
    var gs := p.addressGroups;
    for i := 0 to |gs|
      invariant forall j :: 0 <= j < i ==> Known(d, gs[j])
      invariant forall q :: q in ips <==> q in p.ipBlocks || exists g, sg ::
                g in gs[..i] && g in d && sg in d[g] && q in sg.ips
      invariant forall id :: id in ids <==> exists g, sg ::
                g in gs[..i] && g in d && sg in d[g] && sg.id == id && id.vpc != ""
    {
      assert gs[..i + 1] == gs[..i] + [gs[i]];
      if !Known(d, gs[i]) {
        return false, ips, ids;
      }
      var more, sgs := ExpandGroup(d[gs[i]]);
      ips, ids := ips + more, ids + sgs;
    }
    assert gs[..|gs|] == gs;
    known := true;
    forall f ensures PeersAllow(ips, ids, f) <==> PeerAllows(d, p, f) {
      PeersExact(d, p, ips, ids, f);
    }
  }

  lemma PeersExact(d: Directory, p: Peer, ips: seq<Prefix>, ids: seq<SgId>, f: Flow)
    requires forall q :: q in ips <==> q in p.ipBlocks || exists g, sg ::
              g in p.addressGroups && g in d && sg in d[g] && q in sg.ips
    requires forall id :: id in ids <==> exists g, sg ::
              g in p.addressGroups && g in d && sg in d[g] && sg.id == id && id.vpc != ""
    ensures PeersAllow(ips, ids, f) <==> PeerAllows(d, p, f)
  {
    if PeersAllow(ips, ids, f) && !CoveredBy(p.ipBlocks, f.address) {
      if CoveredBy(ips, f.address) {
        var q :| q in ips && Covers(q, f.address);
        var g, sg :| g in p.addressGroups && g in d && sg in d[g] && q in sg.ips;
        assert MemberOf(sg, f) && GroupHas(d, g, f);
      } else {
        var id :| id in ids && id in f.groups;
        var g, sg :| g in p.addressGroups && g in d && sg in d[g] && sg.id == id && id.vpc != "";
        assert MemberOf(sg, f) && GroupHas(d, g, f);
      }
    }
    if PeerAllows(d, p, f) && !CoveredBy(p.ipBlocks, f.address) {
      var g :| g in p.addressGroups && GroupHas(d, g, f);
      var sg :| sg in d[g] && MemberOf(sg, f);
      if CoveredBy(sg.ips, f.address) {
        var q :| q in sg.ips && Covers(q, f.address);
        assert q in ips;
      } else {
        assert sg.id in ids;
      }
    } else if PeerAllows(d, p, f) {
      var q :| q in p.ipBlocks && Covers(q, f.address);
      assert q in ips;
    }
  }

  /** Deduplication keys treat 0 and absent alike. */
  function NonZero(x: Option<nat>): Option<nat> {
    if x == Some(0) then None else x
  }

  function Lenient(r: CloudRule): CloudRule {
    r.(port := NonZero(r.port), protocol := NonZero(r.protocol))
  }

  ghost predicate PermitsLeniently(rules: seq<CloudRule>, f: Flow) {
    exists r :: r in rules && Allows(Lenient(r), f)
  }

  function EncodedProtocol(s: Service): Option<nat> {
    if s.protocol.Some? then ProtocolNumber(s.protocol.value) else None
  }

  /** What a service comes to after compilation, for all services. */
  ghost predicate EncodedAllows(s: Service, f: Flow) {
    Matches(NonZero(s.port), f.port) && Matches(EncodedProtocol(s), f.protocol)
  }

  ghost predicate EncodedRuleAllows(d: Directory, r: PolicyRule, f: Flow) {
    PeerAllows(d, r.Remote(), f) && (r.services.Some? ==> exists s :: s in r.services.value && EncodedAllows(s, f))
  }

  ghost predicate EncodedPolicyAllows(d: Directory, rules: seq<PolicyRule>, dir: Direction, f: Flow) {
    exists r :: r in rules && r.direction == dir && EncodedRuleAllows(d, r, f)
  }

  predicate HasPeers(r: CloudRule) {
    r.ips != [] || r.sgs != []
  }

  ghost predicate Sane(rules: seq<CloudRule>) {
    forall r :: r in rules ==> HasPeers(r) && forall p :: p in r.ips ==> Valid(p)
  }

  /** The security groups rules refer to. */
  function Groups(rules: seq<CloudRule>): set<SgId> {
    set r, id | r in rules && id in r.sgs :: id
  }

  /** The cloud security groups of all address groups that rules name as their remote side. */
  function Referenced(d: Directory, rules: seq<PolicyRule>): set<SgId> {
    set r, g, sg | r in rules && g in r.Remote().addressGroups && g in d && sg in d[g] && sg.id.vpc != "" :: sg.id
  }

  lemma ReferencedMono(d: Directory, rules: seq<PolicyRule>, r: PolicyRule)
    requires r in rules
    ensures Referenced(d, [r]) <= Referenced(d, rules)
  {
  }

  lemma Peerless(ips: seq<Prefix>, ids: seq<SgId>, f: Flow)
    requires ips == [] && ids == []
    ensures !PeersAllow(ips, ids, f)
  {
  }

  /** The remote side of a rule has someone. */
  ghost predicate HasRemote(d: Directory, p: Peer) {
    p.ipBlocks != [] ||
    exists g, sg :: g in p.addressGroups && g in d && sg in d[g] && (sg.ips != [] || sg.id.vpc != "")
  }

  lemma RemoteCompiles(d: Directory, p: Peer, ips: seq<Prefix>, ids: seq<SgId>)
    requires forall q :: q in ips <==> q in p.ipBlocks || exists g, sg ::
              g in p.addressGroups && g in d && sg in d[g] && q in sg.ips
    requires forall id :: id in ids <==> exists g, sg ::
              g in p.addressGroups && g in d && sg in d[g] && sg.id == id && id.vpc != ""
    ensures ips != [] || ids != [] <==> HasRemote(d, p)
  {
    if ips != [] {
      assert ips[0] in ips;
    }
    if ids != [] {
      assert ids[0] in ids;
    }
    if p.ipBlocks != [] {
      assert p.ipBlocks[0] in ips;
    }
    if g, sg :| g in p.addressGroups && g in d && sg in d[g] && (sg.ips != [] || sg.id.vpc != "") {
      assert sg.ips != [] ==> sg.ips[0] in ips;
      assert sg.id.vpc != "" ==> sg.id in ids;
    }
  }

  /** The rule compiles to something: it has someone on its remote side, and is not restricted to no service at all. */
  ghost predicate Productive(d: Directory, r: PolicyRule) {
    r.services != Some([]) && HasRemote(d, r.Remote())
  }

  /** networkPolicyRule.rules: no rule without peers, one per service. */
  method CompileRule(d: Directory, r: PolicyRule) returns (known: bool, out: seq<CloudRule>)
    requires ValidPeers(d, [r])
    ensures known <==> Compilable(d, [r])
    ensures known ==> Sane(out) && forall f :: PermitsLeniently(out, f) <==> EncodedRuleAllows(d, r, f)
    ensures known ==> Groups(out) <= Referenced(d, [r]) && (out != [] <==> Productive(d, r))
    ensures !known ==> out == []
  {
    hide PeersAllow, PeerAllows, HasRemote;
    assert r in [r];
    var ips, ids;
    known, ips, ids := CompilePeer(d, r.Remote());
    if !known {
      return false, [];
    }
    RemoteCompiles(d, r.Remote(), ips, ids);
    assert forall p :: p in ips ==> Valid(p);
    if ips == [] && ids == [] {
      forall f ensures !PeersAllow(ips, ids, f) {
        Peerless(ips, ids, f);
      }
      return true, [];
    }
    var base := CloudRule(None, None, ips, ids);
    if r.services.None? {
      out := [base];
      assert Lenient(base) == base;
      return;
    }
    out := CompileServices(base, r.services.value);
  }

  method CompileServices(base: CloudRule, services: seq<Service>) returns (out: seq<CloudRule>)
    ensures forall f :: PermitsLeniently(out, f) <==>
              PeersAllow(base.ips, base.sgs, f) && exists s :: s in services && EncodedAllows(s, f)
    ensures |out| == |services| && forall c :: c in out ==> c.ips == base.ips && c.sgs == base.sgs
  {
    out := [];
    for i := 0 to |services|
      invariant |out| == i && forall j :: 0 <= j < i ==>
                  out[j] == base.(port := services[j].port, protocol := EncodedProtocol(services[j]))
    {
      var s := services[i];
      var c := base.(protocol := None, port := None);
      if s.protocol.Some? && ProtocolNumber(s.protocol.value).Some? {
        c := c.(protocol := ProtocolNumber(s.protocol.value));
      }
      if s.port.Some? {
        c := c.(port := s.port);
      }
      out := out + [c];
    }
    forall f
      ensures PermitsLeniently(out, f) <==> PeersAllow(base.ips, base.sgs, f) && exists s ::
                s in services && EncodedAllows(s, f)
    {
      ServicesExact(base, services, out, f);
    }
  }

  lemma ServicesExact(base: CloudRule, services: seq<Service>, out: seq<CloudRule>, f: Flow)
    requires |out| == |services|
    requires forall j :: 0 <= j < |out| ==>
              out[j] == base.(port := services[j].port, protocol := EncodedProtocol(services[j]))
    ensures PermitsLeniently(out, f) <==> PeersAllow(base.ips, base.sgs, f) && exists s ::
              s in services && EncodedAllows(s, f)
  {
    hide PeersAllow;
    forall j | 0 <= j < |out|
      ensures Allows(Lenient(out[j]), f) <==> PeersAllow(base.ips, base.sgs, f) && EncodedAllows(services[j], f)
    {}
    if PermitsLeniently(out, f) {
      var r :| r in out && Allows(Lenient(r), f);
      var j :| 0 <= j < |out| && out[j] == r;
      assert services[j] in services && EncodedAllows(services[j], f);
    }
    if PeersAllow(base.ips, base.sgs, f) && exists s :: s in services && EncodedAllows(s, f) {
      var s :| s in services && EncodedAllows(s, f);
      var j :| 0 <= j < |services| && services[j] == s;
      assert out[j] in out && Allows(Lenient(out[j]), f);
    }
  }

  // ---------------------------------------------------------------- all rules of a policy

  /** computeRules, up to readiness. */
  method ComputeRules(d: Directory, rules: seq<PolicyRule>)
    returns (known: bool, ingress: seq<CloudRule>, egress: seq<CloudRule>)
    requires ValidPeers(d, rules)
    ensures known <==> Compilable(d, rules)
    ensures known ==> Sane(ingress) && Sane(egress)
    ensures known ==> forall f :: PermitsLeniently(ingress, f) <==> EncodedPolicyAllows(d, rules, In, f)
    ensures known ==> forall f :: PermitsLeniently(egress, f) <==> EncodedPolicyAllows(d, rules, Out, f)
    ensures known ==> Groups(ingress) + Groups(egress) <= Referenced(d, rules)
    ensures known ==> (ingress != [] || egress != [] <==> exists r :: r in rules && Productive(d, r))
  {
    hide EncodedRuleAllows, Allows, Groups, Referenced, Productive;
    NoRules();
    ingress, egress := [], [];
    for i := 0 to |rules|
      invariant Compilable(d, rules[..i]) && Sane(ingress) && Sane(egress)
      invariant forall f :: PermitsLeniently(ingress, f) <==> EncodedPolicyAllows(d, rules[..i], In, f)
      invariant forall f :: PermitsLeniently(egress, f) <==> EncodedPolicyAllows(d, rules[..i], Out, f)
      invariant Groups(ingress) + Groups(egress) <= Referenced(d, rules)
      invariant ingress != [] || egress != [] <==> exists r :: r in rules[..i] && Productive(d, r)
    {
      assert rules[..i + 1] == rules[..i] + [rules[i]];
      var ok, out := CompileRule(d, rules[i]);
      if !ok {
        return false, [], [];
      }
      forall f, dir ensures EncodedPolicyAllows(d, rules[..i + 1], dir, f) <==>
                            EncodedPolicyAllows(d, rules[..i], dir, f) ||
                                (rules[i].direction == dir && EncodedRuleAllows(d, rules[i], f)) {
        PolicyAppend(d, rules[..i], rules[i], dir, f);
      }
      ReferencedMono(d, rules, rules[i]);
      GroupsAppend(ingress, out);
      GroupsAppend(egress, out);
      if rules[i].direction == In {
        forall f
          ensures PermitsLeniently(ingress + out, f) <==> PermitsLeniently(ingress, f) || PermitsLeniently(out, f)
        {
          LenientlyAppend(ingress, out, f);
        }
        ingress := ingress + out;
      } else {
        forall f
          ensures PermitsLeniently(egress + out, f) <==> PermitsLeniently(egress, f) || PermitsLeniently(out, f)
        {
          LenientlyAppend(egress, out, f);
        }
        egress := egress + out;
      }
    }
    assert rules[..|rules|] == rules;
    known := true;
  }

  lemma PolicyAppend(d: Directory, rules: seq<PolicyRule>, r: PolicyRule, dir: Direction, f: Flow)
    ensures EncodedPolicyAllows(d, rules + [r], dir, f) <==>
              EncodedPolicyAllows(d, rules, dir, f) || (r.direction == dir && EncodedRuleAllows(d, r, f))
  {
    hide EncodedRuleAllows;
    assert r in rules + [r];
    forall q | q in rules ensures q in rules + [r] {}
  }

  lemma LenientlyAppend(a: seq<CloudRule>, b: seq<CloudRule>, f: Flow)
    ensures PermitsLeniently(a + b, f) <==> PermitsLeniently(a, f) || PermitsLeniently(b, f)
  {
    hide Allows;
    forall r | r in a || r in b ensures r in a + b {}
  }

  // ---------------------------------------------------------------- merging rules

  datatype Key = Key(port: nat, protocol: nat)

  function OrZero(x: Option<nat>): nat {
    if x.Some? then x.value else 0
  }

  function KeyOf(r: CloudRule): Key {
    Key(OrZero(r.port), OrZero(r.protocol))
  }

  function Present(n: nat): Option<nat> {
    if n != 0 then Some(n) else None
  }

  /** All addresses and groups of the rules on one key. */
  ghost predicate Collected(rules: seq<CloudRule>, k: Key, ips: seq<Prefix>, sgs: seq<SgId>) {
    && (forall p :: p in ips <==> exists r :: r in rules && KeyOf(r) == k && p in r.ips)
    && (forall id :: id in sgs <==> exists r :: r in rules && KeyOf(r) == k && id in r.sgs)
  }

  /** The first loop of deduplicateIngressRules and deduplicateEgressRules. */
  method CollectPeers(rules: seq<CloudRule>) returns (ips: map<Key, seq<Prefix>>, sgs: map<Key, seq<SgId>>)
    ensures ips.Keys == sgs.Keys && (forall k :: k in ips <==> HasKey(rules, k)) && forall r :: r in rules ==>
              KeyOf(r) in ips
    ensures forall k :: k in ips ==> Collected(rules, k, ips[k], sgs[k])
  {
    hide Collected, HasKey, KeyOf;
    ips, sgs := map[], map[];
    NoKeys();
    for i := 0 to |rules|
      invariant ips.Keys == sgs.Keys && forall k :: k in ips <==> HasKey(rules[..i], k)
      invariant forall k :: k in ips ==> Collected(rules[..i], k, ips[k], sgs[k])
    {
      assert rules[..i + 1] == rules[..i] + [rules[i]];
      var r := rules[i];
      var k := KeyOf(r);
      var newIps := (if k in ips then ips[k] else []) + r.ips;
      var newSgs := (if k in sgs then sgs[k] else []) + r.sgs;
      forall k' ensures HasKey(rules[..i + 1], k') <==> HasKey(rules[..i], k') || k' == k {
        KeyAppend(rules[..i], r, k');
      }
      if k !in ips {
        NoneCollected(rules[..i], k);
      }
      CollectedNext(rules[..i], r, k, if k in ips then ips[k] else [], if k in sgs then sgs[k] else []);
      forall k' | k' in ips && k' != k ensures Collected(rules[..i + 1], k', ips[k'], sgs[k']) {
        CollectedNext(rules[..i], r, k', ips[k'], sgs[k']);
      }
      ips, sgs := ips[k := newIps], sgs[k := newSgs];
    }
    assert rules[..|rules|] == rules;
    forall r | r in rules ensures KeyOf(r) in ips {
      OwnKey(rules, r);
    }
  }

  lemma NoKeys()
    ensures forall k :: !HasKey([], k)
  {
  }

  lemma OwnKey(rules: seq<CloudRule>, r: CloudRule)
    requires r in rules
    ensures HasKey(rules, KeyOf(r))
  {
  }

  lemma NoneCollected(rules: seq<CloudRule>, k: Key)
    requires !HasKey(rules, k)
    ensures Collected(rules, k, [], [])
  {
  }

  lemma CollectedNext(rules: seq<CloudRule>, r: CloudRule, k: Key, ips: seq<Prefix>, sgs: seq<SgId>)
    requires Collected(rules, k, ips, sgs)
    ensures KeyOf(r) == k ==> Collected(rules + [r], k, ips + r.ips, sgs + r.sgs)
    ensures KeyOf(r) != k ==> Collected(rules + [r], k, ips, sgs)
  {
    hide KeyOf;
    assert r in rules + [r] && forall q :: q in rules ==> q in rules + [r];
  }

  /** The rule of key k admits what the rules on that key admit. */
  ghost predicate Merges(rules: seq<CloudRule>, k: Key, m: CloudRule) {
    && KeyOf(m) == k && Lenient(m) == m
    && (forall f :: PeersAllow(m.ips, m.sgs, f) <==>
          exists r :: r in rules && KeyOf(r) == k && PeersAllow(r.ips, r.sgs, f))
    && (forall i, j :: 0 <= i < |m.ips| && 0 <= j < |m.ips| && i != j ==> !Contains(m.ips[i], m.ips[j]))
    && Distinct(m.sgs) && (forall id :: id in m.sgs <==> exists r :: r in rules && KeyOf(r) == k && id in r.sgs)
  }

  method MergeKey(ghost rules: seq<CloudRule>, k: Key, ips: seq<Prefix>, sgs: seq<SgId>) returns (m: CloudRule)
    requires Sane(rules) && Collected(rules, k, ips, sgs) && HasKey(rules, k)
    ensures Merges(rules, k, m) && HasPeers(m) && forall p :: p in m.ips ==> Valid(p)
  {
    hide Contains;
    forall i | 0 <= i < |ips| ensures Valid(ips[i]) {
      assert ips[i] in ips;
    }
    var outIps := DeduplicateIP(ips);
    var outSgs := DropRepeats(sgs);
    m := CloudRule(Present(k.port), Present(k.protocol), outIps, outSgs);
    forall f
      ensures PeersAllow(outIps, outSgs, f) <==> exists r :: r in rules && KeyOf(r) == k && PeersAllow(r.ips, r.sgs, f)
    {
      CollectedAllow(rules, k, ips, sgs, f);
      assert CoveredBy(outIps, f.address) <==> CoveredBy(ips, f.address);
    }
    assert HasPeers(m) by {
      var r :| r in rules && KeyOf(r) == k;
      if r.ips != [] {
        assert r.ips[0] in ips;
      } else {
        assert r.sgs[0] in sgs;
        assert r.sgs[0] in outSgs;
      }
    }
  }

  lemma CollectedAllow(rules: seq<CloudRule>, k: Key, ips: seq<Prefix>, sgs: seq<SgId>, f: Flow)
    requires Collected(rules, k, ips, sgs)
    ensures PeersAllow(ips, sgs, f) <==> exists r :: r in rules && KeyOf(r) == k && PeersAllow(r.ips, r.sgs, f)
  {
    if CoveredBy(ips, f.address) {
      var p :| p in ips && Covers(p, f.address);
      var r :| r in rules && KeyOf(r) == k && p in r.ips;
      assert PeersAllow(r.ips, r.sgs, f);
    } else if PeersAllow(ips, sgs, f) {
      var id :| id in sgs && id in f.groups;
      var r :| r in rules && KeyOf(r) == k && id in r.sgs;
      assert PeersAllow(r.ips, r.sgs, f);
    }
    if r :| r in rules && KeyOf(r) == k && PeersAllow(r.ips, r.sgs, f) {
      if CoveredBy(r.ips, f.address) {
        var p :| p in r.ips && Covers(p, f.address);
        assert p in ips;
      } else {
        var id :| id in r.sgs && id in f.groups;
        assert id in sgs;
      }
    }
  }

  ghost predicate HasKey(rules: seq<CloudRule>, k: Key) {
    exists r :: r in rules && KeyOf(r) == k
  }

  lemma KeyAppend(rules: seq<CloudRule>, m: CloudRule, k: Key)
    ensures HasKey(rules + [m], k) <==> HasKey(rules, k) || KeyOf(m) == k
  {
    assert m in rules + [m];
    forall r | r in rules ensures r in rules + [m] {}
  }

  /** deduplicateIngressRules and deduplicateEgressRules. */
  method Deduplicate(rules: seq<CloudRule>) returns (merged: seq<CloudRule>)
    requires Sane(rules)
    ensures Sane(merged) && forall f :: Permits(merged, f) <==> PermitsLeniently(rules, f)
    ensures forall i, j :: 0 <= i < j < |merged| ==> KeyOf(merged[i]) != KeyOf(merged[j])
    ensures forall m :: m in merged ==> Merges(rules, KeyOf(m), m)
    ensures Groups(merged) == Groups(rules)
  {
    hide Collected, Merges, HasKey, KeyOf, PermitsLeniently, Permits;
    var ips, sgs := CollectPeers(rules);
    merged := [];
    var todo := ips.Keys;
    while todo != {}
      invariant todo <= ips.Keys && Sane(merged)
      invariant forall m :: m in merged ==> KeyOf(m) in ips.Keys - todo && Merges(rules, KeyOf(m), m)
      invariant forall k :: k in ips.Keys - todo ==> HasKey(merged, k)
      invariant forall i, j :: 0 <= i < j < |merged| ==> KeyOf(merged[i]) != KeyOf(merged[j])
      decreases todo
    {
      var k :| k in todo;
      var m := MergeKey(rules, k, ips[k], sgs[k]);
      MergesKey(rules, k, m);
      assert forall m' :: m' in merged ==> KeyOf(m') != k;
      forall k' ensures HasKey(merged + [m], k') <==> HasKey(merged, k') || k' == k {
        KeyAppend(merged, m, k');
      }
      merged := merged + [m];
      todo := todo - {k};
    }
    forall f ensures Permits(merged, f) <==> PermitsLeniently(rules, f) {
      MergedExact(rules, merged, f);
    }
    MergedGroups(rules, merged);
  }

  lemma MergesKey(rules: seq<CloudRule>, k: Key, m: CloudRule)
    requires Merges(rules, k, m)
    ensures KeyOf(m) == k
  {
  }

  lemma MergedExact(rules: seq<CloudRule>, merged: seq<CloudRule>, f: Flow)
    requires forall m :: m in merged ==> Merges(rules, KeyOf(m), m)
    requires forall r :: r in rules ==> HasKey(merged, KeyOf(r))
    ensures Permits(merged, f) <==> PermitsLeniently(rules, f)
  {
    hide PeersAllow;
    forall m, r | m in merged && KeyOf(m) == KeyOf(r)
      ensures Lenient(m) == m && Lenient(r).port == m.port && Lenient(r).protocol == m.protocol
    {
      assert Merges(rules, KeyOf(m), m);
    }
    if Permits(merged, f) {
      var m :| m in merged && Allows(m, f);
      var r :| r in rules && KeyOf(r) == KeyOf(m) && PeersAllow(r.ips, r.sgs, f);
      assert Allows(Lenient(r), f);
    }
    if PermitsLeniently(rules, f) {
      var r :| r in rules && Allows(Lenient(r), f);
      var m :| m in merged && KeyOf(m) == KeyOf(r);
      assert PeersAllow(m.ips, m.sgs, f);
      assert Allows(m, f);
    }
  }

  lemma MergedGroups(rules: seq<CloudRule>, merged: seq<CloudRule>)
    requires forall m :: m in merged ==> Merges(rules, KeyOf(m), m)
    requires forall r :: r in rules ==> HasKey(merged, KeyOf(r))
    ensures Groups(merged) == Groups(rules)
  {
    forall id, r | r in rules && id in r.sgs ensures id in Groups(merged) {
      var m :| m in merged && KeyOf(m) == KeyOf(r);
      assert id in m.sgs;
    }
  }

  // ---------------------------------------------------------------- everything applied to a group

  /** Some policy permits a flow, each read with the groups as they were when it was compiled. */
  ghost predicate SomeEncodedAllows(ds: seq<Directory>, policies: seq<seq<PolicyRule>>, dir: Direction, f: Flow)
    requires |ds| == |policies|
  {
    exists i :: 0 <= i < |policies| && EncodedPolicyAllows(ds[i], policies[i], dir, f)
  }

  ghost predicate SomeAllows(ds: seq<Directory>, policies: seq<seq<PolicyRule>>, dir: Direction, f: Flow)
    requires |ds| == |policies|
  {
    exists i :: 0 <= i < |policies| && PolicyAllows(ds[i], policies[i], dir, f)
  }

  function AllReferenced(ds: seq<Directory>, policies: seq<seq<PolicyRule>>): set<SgId>
    requires |ds| == |policies|
  {
    set i, id | 0 <= i < |policies| && id in Referenced(ds[i], policies[i]) :: id
  }

  /** The compiled rules of all policies, one after the other. */
  method CollectRules(ds: seq<Directory>, policies: seq<seq<PolicyRule>>)
    returns (known: bool, ingress: seq<CloudRule>, egress: seq<CloudRule>)
    requires |ds| == |policies| && forall i :: 0 <= i < |policies| ==> ValidPeers(ds[i], policies[i])
    ensures known <==> forall i :: 0 <= i < |policies| ==> Compilable(ds[i], policies[i])
    ensures known ==> Sane(ingress) && Sane(egress)
    ensures known ==> forall f :: PermitsLeniently(ingress, f) <==> SomeEncodedAllows(ds, policies, In, f)
    ensures known ==> forall f :: PermitsLeniently(egress, f) <==> SomeEncodedAllows(ds, policies, Out, f)
    ensures known ==> Groups(ingress) + Groups(egress) <= AllReferenced(ds, policies)
  {
    hide EncodedPolicyAllows, PermitsLeniently, Groups, Referenced, Compilable;
    ingress, egress := [], [];
    NoRules();
    for i := 0 to |policies|
      invariant Sane(ingress) && Sane(egress) && forall j :: 0 <= j < i ==> Compilable(ds[j], policies[j])
      invariant forall f :: PermitsLeniently(ingress, f) <==> SomeEncodedAllows(ds[..i], policies[..i], In, f)
      invariant forall f :: PermitsLeniently(egress, f) <==> SomeEncodedAllows(ds[..i], policies[..i], Out, f)
      invariant Groups(ingress) + Groups(egress) <= AllReferenced(ds, policies)
    {
      var ok, more, out := ComputeRules(ds[i], policies[i]);
      if !ok {
        return false, [], [];
      }
      forall f
        ensures PermitsLeniently(ingress + more, f) <==> SomeEncodedAllows(ds[..i + 1], policies[..i + 1], In, f)
        ensures PermitsLeniently(egress + out, f) <==> SomeEncodedAllows(ds[..i + 1], policies[..i + 1], Out, f)
      {
        LenientlyAppend(ingress, more, f);
        LenientlyAppend(egress, out, f);
        SomeNext(ds, policies, i, In, f);
        SomeNext(ds, policies, i, Out, f);
      }
      GroupsAppend(ingress, more);
      GroupsAppend(egress, out);
      ingress, egress := ingress + more, egress + out;
    }
    assert policies[..|policies|] == policies && ds[..|ds|] == ds;
    known := true;
  }

  lemma NoRules()
    ensures forall f :: !PermitsLeniently([], f)
    ensures Groups([]) == {}
  {
  }

  lemma GroupsAppend(a: seq<CloudRule>, b: seq<CloudRule>)
    ensures Groups(a + b) == Groups(a) + Groups(b)
  {
  }

  lemma SomeNext(ds: seq<Directory>, policies: seq<seq<PolicyRule>>, i: nat, dir: Direction, f: Flow)
    requires |ds| == |policies| && i < |policies|
    ensures SomeEncodedAllows(ds[..i + 1], policies[..i + 1], dir, f) <==>
            SomeEncodedAllows(ds[..i], policies[..i], dir, f) || EncodedPolicyAllows(ds[i], policies[i], dir, f)
  {
    hide EncodedPolicyAllows;
    var es, ps := ds[..i + 1], policies[..i + 1];
    assert es[i] == ds[i] && ps[i] == policies[i];
    if j :| 0 <= j < i && EncodedPolicyAllows(ds[..i][j], policies[..i][j], dir, f) {
      assert EncodedPolicyAllows(es[j], ps[j], dir, f);
    }
    if j :| 0 <= j < |ps| && EncodedPolicyAllows(es[j], ps[j], dir, f) && j < i {
      assert EncodedPolicyAllows(ds[..i][j], policies[..i][j], dir, f);
    }
  }

  /** A service survives compilation unchanged exactly if it is encodable. */
  lemma ServiceExact(s: Service)
    ensures (forall f :: EncodedAllows(s, f) <==> ServiceAllows(s, f)) <==> Encodable(s)
  {
    var protocol := if EncodedProtocol(s).Some? then EncodedProtocol(s).value else 6;
    if s.port == Some(0) {
      var f := Flow(0, {}, protocol, 1);
      assert EncodedAllows(s, f) && !ServiceAllows(s, f);
    } else if !Encodable(s) {
      var f := Flow(0, {}, protocol, if s.port.Some? then s.port.value else 1);
      assert EncodedAllows(s, f) && !ServiceAllows(s, f);
    }
  }

  lemma PolicyExact(d: Directory, rules: seq<PolicyRule>, dir: Direction, f: Flow)
    requires AllEncodable(rules)
    ensures EncodedPolicyAllows(d, rules, dir, f) <==> PolicyAllows(d, rules, dir, f)
  {
    hide PeerAllows;
    forall r | r in rules ensures EncodedRuleAllows(d, r, f) <==> RuleAllows(d, r, f) {
      if r.services.Some? {
        forall s | s in r.services.value ensures EncodedAllows(s, f) <==> ServiceAllows(s, f) {
          ServiceExact(s);
        }
      }
    }
  }

  /**
   What updateRules sends for a group: it permits exactly what the policies applied to the group permit, each with the
   groups as they were when it was compiled; it refers to no groups but theirs, and none of its rules lacks peers.
   */
  method RulesFor(ds: seq<Directory>, policies: seq<seq<PolicyRule>>)
    returns (known: bool, ingress: seq<CloudRule>, egress: seq<CloudRule>)
    requires |ds| == |policies| && forall i :: 0 <= i < |policies| ==> ValidPeers(ds[i], policies[i])
    ensures known <==> forall i :: 0 <= i < |policies| ==> Compilable(ds[i], policies[i])
    ensures known ==> Sane(ingress) && Sane(egress)
    ensures known ==> forall f :: Permits(ingress, f) <==> SomeEncodedAllows(ds, policies, In, f)
    ensures known ==> forall f :: Permits(egress, f) <==> SomeEncodedAllows(ds, policies, Out, f)
    ensures known && (forall p :: p in policies ==> AllEncodable(p)) ==>
              forall f :: && (Permits(ingress, f) <==> SomeAllows(ds, policies, In, f))
                          && (Permits(egress, f) <==> SomeAllows(ds, policies, Out, f))
    ensures known ==> Groups(ingress) + Groups(egress) <= AllReferenced(ds, policies)
  {
    hide Permits, PermitsLeniently, Compilable, AllEncodable, EncodedPolicyAllows, PolicyAllows, Groups, Referenced,
        Merges;
    var ins, outs;
    known, ins, outs := CollectRules(ds, policies);
    if !known {
      return false, [], [];
    }
    ingress := Deduplicate(ins);
    egress := Deduplicate(outs);
    if forall p :: p in policies ==> AllEncodable(p) {
      forall f, dir ensures SomeEncodedAllows(ds, policies, dir, f) <==> SomeAllows(ds, policies, dir, f) {
        forall i | 0 <= i < |policies|
          ensures EncodedPolicyAllows(ds[i], policies[i], dir, f) <==> PolicyAllows(ds[i], policies[i], dir, f)
        {
          PolicyExact(ds[i], policies[i], dir, f);
        }
      }
    }
  }

  // ---------------------------------------------------------------- EC2 permissions

  const PORT_END := 65535

  /** An IpPermission; `protocol == None` is "-1". */
  datatype Permission = Permission(protocol: Option<nat>, fromPort: Option<nat>, toPort: Option<nat>,
                                   ranges: seq<Prefix>, groups: seq<SgId>)

  const ANYWHERE := Prefix(0, 0)

  function PortRange(port: Option<nat>, protocol: Option<nat>): (Option<nat>, Option<nat>) {
    if port.Some? then (port, port)
    else if protocol == Some(6) || protocol == Some(17) then (Some(0), Some(PORT_END))
    else (None, None)
  }

  function ToPermission(r: CloudRule): Permission {
    var ports := PortRange(r.port, r.protocol);
    Permission(r.protocol, ports.0, ports.1, if r.ips == [] && r.sgs == [] then [ANYWHERE] else r.ips, r.sgs)
  }

  ghost predicate PermissionAllows(p: Permission, f: Flow) {
    && Matches(p.protocol, f.protocol)
    && (p.fromPort.Some? ==> p.fromPort.value <= f.port)
    && (p.toPort.Some? ==> f.port <= p.toPort.value)
    && PeersAllow(p.ranges, p.groups, f)
  }

  /** The conversion keeps the meaning of a rule exactly if the rule has peers; without, everywhere is let in. */
  lemma PermissionExact(r: CloudRule)
    requires r.port.Some? ==> r.port.value <= PORT_END
    ensures (forall f: Flow :: f.port <= PORT_END ==> (PermissionAllows(ToPermission(r), f) <==> Allows(r, f))) <==>
              HasPeers(r)
  {
    if !HasPeers(r) {
      var f := Flow(0, {}, if r.protocol.Some? then r.protocol.value else 6, if r.port.Some? then r.port.value else 1);
      assert ANYWHERE in ToPermission(r).ranges;
      assert PermissionAllows(ToPermission(r), f) && !Allows(r, f);
    }
  }

  /** All permissions together admit what the rules admit. */
  lemma PermissionsExact(rules: seq<CloudRule>, f: Flow)
    requires Sane(rules) && f.port <= PORT_END && forall r :: r in rules && r.port.Some? ==> r.port.value <= PORT_END
    ensures (exists r :: r in rules && PermissionAllows(ToPermission(r), f)) <==> Permits(rules, f)
  {
    hide PermissionAllows, Allows, ToPermission;
    forall r | r in rules ensures PermissionAllows(ToPermission(r), f) <==> Allows(r, f) {
      PermissionExact(r);
    }
  }
}
