/** The network security group all appliedTo groups of an Azure virtual network share. */
module AzureNsg {
  import opened PolicyTypes
  import opened GroupNames
  import opened Cidr
  import opened RuleCompiler

  const RULE_START_PRIORITY := 100
  const DENY_PRIORITY := 4096
  /** How many ordinary rules fit between the two. */
  const CAPACITY := DENY_PRIORITY - RULE_START_PRIORITY
  const DENY_DESCRIPTION := "nephe-at-per-vnet-default"

  datatype Remote = Anywhere | Prefixes(ips: seq<Prefix>) | Asgs(names: seq<string>) | VirtualNetwork

  /** What a rule says; `protocol == None` and `port == None` are "*". */
  datatype Content = Content(deny: bool, protocol: Option<nat>, port: Option<nat>, remote: Remote)

  /** Rules of nephe are named after their priority and direction. */
  datatype Name = Generated(priority: int, direction: Direction) | Custom(name: string)

  datatype NsgRule = NsgRule(name: Name, priority: int, direction: Direction, description: Option<string>,
                             content: Content)

  function DenyRule(dir: Direction): NsgRule {
    NsgRule(Generated(DENY_PRIORITY, dir), DENY_PRIORITY, dir, Some(DENY_DESCRIPTION),
        Content(true, None, None, VirtualNetwork))
  }

  /** An ordinary rule without its number. */
  datatype Entry = Entry(owner: string, content: Content)

  function Numbered(e: Entry, dir: Direction, i: nat): NsgRule {
    NsgRule(Generated(RULE_START_PRIORITY + i, dir), RULE_START_PRIORITY + i, dir, Some(e.owner), e.content)
  }

  function NumberAll(es: seq<Entry>, dir: Direction): seq<NsgRule> {
    seq(|es|, i requires 0 <= i < |es| => Numbered(es[i], dir, i))
  }

  /** The rules of one direction: ordinary ones numbered without gaps, the deny rule last. */
  function Layout(es: seq<Entry>, dir: Direction): seq<NsgRule> {
    NumberAll(es, dir) + [DenyRule(dir)]
  }

  // ---------------------------------------------------------------- translation

  predicate Supported(protocol: Option<nat>) {
    protocol.Some? ==> protocol.value in {1, 6, 17}
  }

  /** The groups that exist as application security groups. */
  function Found(sgs: seq<SgId>, asgs: set<string>): seq<string> {
    if sgs == [] then []
    else
      var name := Lower(sgs[|sgs| - 1].name);
      Found(sgs[..|sgs| - 1], asgs) + if name in asgs then [name] else []
  }

  /** One compiled rule: a rule for its addresses, one for its groups. */
  function Translate(r: CloudRule, asgs: set<string>): seq<Content> {
    var groups := Found(r.sgs, asgs);
    (if r.ips != [] then [Content(false, r.protocol, r.port, Prefixes(r.ips))]
     else if r.sgs == [] then [Content(false, r.protocol, r.port, Anywhere)]
     else []) +
    if groups != [] then [Content(false, r.protocol, r.port, Asgs(groups))] else []
  }

  function TranslateAll(rules: seq<CloudRule>, asgs: set<string>): seq<Content> {
    if rules == [] then [] else TranslateAll(rules[..|rules| - 1], asgs) + Translate(rules[|rules| - 1], asgs)
  }

  function Owned(owner: string, contents: seq<Content>): seq<Entry> {
    seq(|contents|, i requires 0 <= i < |contents| => Entry(owner, contents[i]))
  }

  /** Rules that have peers never open a network to everyone. */
  lemma {:induction false} NeverAnywhere(rules: seq<CloudRule>, asgs: set<string>)
    requires forall r :: r in rules ==> HasPeers(r)
    ensures forall c :: c in TranslateAll(rules, asgs) ==> c.remote != Anywhere
  {
    if rules != [] {
      assert HasPeers(rules[|rules| - 1]);
      NeverAnywhere(rules[..|rules| - 1], asgs);
    }
  }

  // ---------------------------------------------------------------- what translated rules admit

  /** A machine is in an application security group by its name in lower case. */
  ghost predicate InAsg(f: Flow, name: string) {
    exists id :: id in f.groups && Lower(id.name) == name
  }

  ghost predicate Reaches(remote: Remote, f: Flow) {
    match remote
    case Anywhere => true
    case VirtualNetwork => true
    case Prefixes(ips) => CoveredBy(ips, f.address)
    case Asgs(names) => exists n :: n in names && InAsg(f, n)
  }

  ghost predicate Admits(c: Content, f: Flow) {
    !c.deny && Matches(c.port, f.port) && Matches(c.protocol, f.protocol) && Reaches(c.remote, f)
  }

  ghost predicate SomeAdmits(contents: seq<Content>, f: Flow) {
    exists c :: c in contents && Admits(c, f)
  }

  /** What a compiled rule allows when groups go by lower-case names, and only those found count. */
  ghost predicate AllowsByName(r: CloudRule, asgs: set<string>, f: Flow) {
    && Matches(r.port, f.port) && Matches(r.protocol, f.protocol)
    && (!HasPeers(r) || CoveredBy(r.ips, f.address) ||
        exists id :: id in r.sgs && Lower(id.name) in asgs && InAsg(f, Lower(id.name)))
  }

  ghost predicate PermitsByName(rules: seq<CloudRule>, asgs: set<string>, f: Flow) {
    exists r :: r in rules && AllowsByName(r, asgs, f)
  }

  lemma {:induction false} FoundExact(sgs: seq<SgId>, asgs: set<string>, n: string)
    ensures n in Found(sgs, asgs) <==> n in asgs && exists id :: id in sgs && Lower(id.name) == n
  {
    if sgs != [] {
      var front, last := sgs[..|sgs| - 1], sgs[|sgs| - 1];
      assert sgs == front + [last];
      FoundExact(front, asgs, n);
    }
  }

  lemma TranslateExact(r: CloudRule, asgs: set<string>, f: Flow)
    ensures SomeAdmits(Translate(r, asgs), f) <==> AllowsByName(r, asgs, f)
  {
    hide InAsg, CoveredBy, Found;
    var groups := Found(r.sgs, asgs);
    forall n ensures n in groups <==> n in asgs && exists id :: id in r.sgs && Lower(id.name) == n {
      FoundExact(r.sgs, asgs, n);
    }
    if AllowsByName(r, asgs, f) {
      if !HasPeers(r) {
        assert Admits(Content(false, r.protocol, r.port, Anywhere), f);
      } else if r.ips != [] && CoveredBy(r.ips, f.address) {
        assert Admits(Content(false, r.protocol, r.port, Prefixes(r.ips)), f);
      } else {
        CoveredByNone(f.address);
        var id :| id in r.sgs && Lower(id.name) in asgs && InAsg(f, Lower(id.name));
        assert Lower(id.name) in groups;
        assert Admits(Content(false, r.protocol, r.port, Asgs(groups)), f);
      }
    }
  }

  lemma CoveredByNone(address: nat)
    ensures !CoveredBy([], address)
  {
  }

  lemma SomeAdmitsConcat(a: seq<Content>, b: seq<Content>, f: Flow)
    ensures SomeAdmits(a + b, f) <==> SomeAdmits(a, f) || SomeAdmits(b, f)
  {
    hide Admits;
    forall c ensures c in a + b <==> c in a || c in b {}
  }

  /** The translated rules admit exactly what the compiled ones allow, groups taken by name. */
  lemma {:induction false} TranslateAllExact(rules: seq<CloudRule>, asgs: set<string>, f: Flow)
    ensures SomeAdmits(TranslateAll(rules, asgs), f) <==> PermitsByName(rules, asgs, f)
  {
    if rules != [] {
      var front, last := rules[..|rules| - 1], rules[|rules| - 1];
      assert rules == front + [last];
      TranslateAllExact(front, asgs, f);
      TranslateExact(last, asgs, f);
      hide AllowsByName, Translate, SomeAdmits;
      SomeAdmitsConcat(TranslateAll(front, asgs), Translate(last, asgs), f);
    }
  }

  /** Different groups have different names, in lower case. */
  ghost predicate Distinguished(ids: set<SgId>) {
    forall a, b :: a in ids && b in ids && Lower(a.name) == Lower(b.name) ==> a == b
  }

  /** Rules with peers, about these groups only. */
  ghost predicate About(rules: seq<CloudRule>, ids: set<SgId>) {
    forall r :: r in rules ==> HasPeers(r) && forall id :: id in r.sgs ==> id in ids
  }

  /** A machine seen as a member of the groups found only. */
  function Restricted(f: Flow, asgs: set<string>): Flow {
    f.(groups := set id | id in f.groups && Lower(id.name) in asgs)
  }

  /** Where names tell groups apart, the rules admit what the compiled ones permit of the groups that were found. */
  lemma TranslatedPermits(rules: seq<CloudRule>, ids: set<SgId>, asgs: set<string>, f: Flow)
    requires About(rules, ids) && f.groups <= ids && Distinguished(ids)
    ensures SomeAdmits(TranslateAll(rules, asgs), f) <==> Permits(rules, Restricted(f, asgs))
  {
    TranslateAllExact(rules, asgs, f);
    hide CoveredBy, Matches, SomeAdmits, TranslateAll;
    forall r | r in rules ensures AllowsByName(r, asgs, f) <==> Allows(r, Restricted(f, asgs)) {
      forall id | id in r.sgs && Lower(id.name) in asgs ensures InAsg(f, Lower(id.name)) <==> id in f.groups {}
    }
  }

  /** So every compiled rule keeps its meaning, for all groups there are and found, exactly if names tell them apart. */
  lemma AsgNamesExact(ids: set<SgId>, asgs: set<string>)
    requires forall id :: id in ids ==> Lower(id.name) in asgs
    ensures (forall rules, f: Flow :: About(rules, ids) && f.groups <= ids ==>
               (SomeAdmits(TranslateAll(rules, asgs), f) <==> Permits(rules, f))) <==>
            Distinguished(ids)
  {
    if Distinguished(ids) {
      forall rules, f: Flow | About(rules, ids) && f.groups <= ids
        ensures SomeAdmits(TranslateAll(rules, asgs), f) <==> Permits(rules, f)
      {
        TranslatedPermits(rules, ids, asgs, f);
        assert Restricted(f, asgs) == f;
      }
    } else {
      var a, b :| a in ids && b in ids && Lower(a.name) == Lower(b.name) && a != b;
      NamesConfuse(a, b, asgs);
      assert About([CloudRule(None, None, [], [a])], ids);
    }
  }

  /** A rule about one group admits the machines of another with the same name. */
  lemma NamesConfuse(a: SgId, b: SgId, asgs: set<string>)
    requires Lower(a.name) == Lower(b.name) && a != b && Lower(a.name) in asgs
    ensures var rules, f := [CloudRule(None, None, [], [a])], Flow(0, {b}, 0, 0);
            SomeAdmits(TranslateAll(rules, asgs), f) && !Permits(rules, f)
  {
    var r, f := CloudRule(None, None, [], [a]), Flow(0, {b}, 0, 0);
    TranslateAllExact([r], asgs, f);
    assert InAsg(f, Lower(a.name));
    assert a in r.sgs && AllowsByName(r, asgs, f) && r in [r];
    CoveredByNone(0);
  }

  method FindAsgs(sgs: seq<SgId>, asgs: set<string>) returns (groups: seq<string>)
    ensures groups == Found(sgs, asgs)
  {
    groups := [];
    for i := 0 to |sgs|
      invariant groups == Found(sgs[..i], asgs)
    {
      assert sgs[..i + 1][..i] == sgs[..i];
      if Lower(sgs[i].name) in asgs {
        groups := groups + [Lower(sgs[i].name)];
      }
    }
    assert sgs[..|sgs|] == sgs;
  }

  /** The rule at a running priority, as the converters build it. */
  function Build(owner: string, c: Content, dir: Direction, priority: int): NsgRule {
    NsgRule(Generated(priority, dir), priority, dir, Some(owner), c)
  }

  lemma NoneBuilt(owner: string, dir: Direction)
    ensures NumberAll(Owned(owner, []), dir) == []
  {
  }

  lemma BuildNext(owner: string, contents: seq<Content>, c: Content, dir: Direction)
    ensures |Owned(owner, contents)| == |contents|
    ensures NumberAll(Owned(owner, contents + [c]), dir) ==
            NumberAll(Owned(owner, contents), dir) + [Build(owner, c, dir, RULE_START_PRIORITY + |contents|)]
  {
  }

  /** convertIngressToAzureNsgSecurityRules and its egress twin; None reports an unsupported protocol. */
  method ConvertRules(owner: string, rules: seq<CloudRule>, asgs: set<string>, dir: Direction)
    returns (out: Option<seq<NsgRule>>)
    ensures out.Some? <==> forall r :: r in rules ==> Supported(r.protocol)
    ensures out.Some? ==> out.value == Layout(Owned(owner, TranslateAll(rules, asgs)), dir)
    ensures out.Some? ==> forall f :: OwnerAdmits(out.value, owner, dir, f) <==> PermitsByName(rules, asgs, f)
  {
    hide NumberAll, Owned, Found, OwnerAdmits, PermitsByName;
    ConvertedAdmits(owner, rules, asgs, dir);
    NoneBuilt(owner, dir);
    var contents: seq<Content> := [];
    var built: seq<NsgRule> := [];
    var priority := RULE_START_PRIORITY;
    for i := 0 to |rules|
      invariant forall j :: 0 <= j < i ==> Supported(rules[j].protocol)
      invariant contents == TranslateAll(rules[..i], asgs)
      invariant built == NumberAll(Owned(owner, contents), dir) && priority == RULE_START_PRIORITY + |contents|
    {
      assert rules[..i + 1][..i] == rules[..i];
      var r := rules[i];
      if !Supported(r.protocol) {
        return None;
      }
      ghost var before := contents;
      if r.ips != [] || r.sgs == [] {
        var c := Content(false, r.protocol, r.port, if r.ips == [] then Anywhere else Prefixes(r.ips));
        BuildNext(owner, contents, c, dir);
        built := built + [Build(owner, c, dir, priority)];
        contents, priority := contents + [c], priority + 1;
      }
      var groups := FindAsgs(r.sgs, asgs);
      if groups != [] {
        var c := Content(false, r.protocol, r.port, Asgs(groups));
        BuildNext(owner, contents, c, dir);
        built := built + [Build(owner, c, dir, priority)];
        contents, priority := contents + [c], priority + 1;
      }
      assert contents == before + Translate(r, asgs);
    }
    assert rules[..|rules|] == rules;
    return Some(built + [DenyRule(dir)]);
  }

  // ---------------------------------------------------------------- renumbering

  function Ordinary(rules: seq<NsgRule>): seq<Entry>
    requires forall r :: r in rules ==> r.description.Some?
  {
    if rules == [] then []
    else
      var r := rules[|rules| - 1];
      Ordinary(rules[..|rules| - 1]) + if r.priority == DENY_PRIORITY then []
          else [Entry(r.description.value, r.content)]
  }

  /** The rules at the deny priority, by name: of rules with one name the last. */
  function Defaults(rules: seq<NsgRule>): map<Name, NsgRule> {
    if rules == [] then map[]
    else
      var r := rules[|rules| - 1];
      if r.priority == DENY_PRIORITY then Defaults(rules[..|rules| - 1])[r.name := r]
          else Defaults(rules[..|rules| - 1])
  }

  lemma {:induction false} DefaultsNamed(rules: seq<NsgRule>)
    ensures forall n :: n in Defaults(rules) ==> Defaults(rules)[n] in rules && Defaults(rules)[n].name == n
    ensures forall n :: n in Defaults(rules) ==> Defaults(rules)[n].priority == DENY_PRIORITY
  {
    if rules != [] {
      DefaultsNamed(rules[..|rules| - 1]);
    }
  }

  /** All rules are of one direction and say whose they are. */
  ghost predicate Uniform(rules: seq<NsgRule>, dir: Direction) {
    forall r :: r in rules ==> r.direction == dir && r.description.Some?
  }

  /** One of the loops of updateSecurityRuleNameAndPriority. */
  method RenumberInto(rules: seq<NsgRule>, ghost dir: Direction, ghost done: seq<Entry>, numbered: seq<NsgRule>,
                      defaults: map<Name, NsgRule>)
    returns (numbered': seq<NsgRule>, defaults': map<Name, NsgRule>)
    requires Uniform(rules, dir) && numbered == NumberAll(done, dir)
    ensures numbered' == NumberAll(done + Ordinary(rules), dir) && defaults' == defaults + Defaults(rules)
  {
    numbered', defaults' := numbered, defaults;
    var priority := RULE_START_PRIORITY + |numbered|;
    ghost var es := done;
    for i := 0 to |rules|
      invariant es == done + Ordinary(rules[..i]) && numbered' == NumberAll(es, dir)
      invariant priority == RULE_START_PRIORITY + |es|
      invariant defaults' == defaults + Defaults(rules[..i])
    {
      assert rules[..i + 1][..i] == rules[..i];
      var r := rules[i];
      assert r in rules;
      if r.priority == DENY_PRIORITY {
        defaults' := defaults'[r.name := r];
      } else {
        var renamed := r.(name := Generated(priority, r.direction), priority := priority);
        ghost var e := Entry(r.description.value, r.content);
        assert NumberAll(es + [e], dir) == NumberAll(es, dir) + [renamed];
        es := es + [e];
        numbered', priority := numbered' + [renamed], priority + 1;
      }
    }
    assert rules[..|rules|] == rules;
  }

  /** The list has the rules of the map, once each, in some order. */
  ghost predicate Enumerates(list: seq<NsgRule>, m: map<Name, NsgRule>) {
    |list| == |m| && (forall r :: r in list <==> r.name in m && m[r.name] == r)
  }

  /** The rules of one direction: ordinary ones numbered without gaps, then those at the deny priority. */
  ghost predicate Arranged(rules: seq<NsgRule>, es: seq<Entry>, last: map<Name, NsgRule>, dir: Direction) {
    |es| <= |rules| && rules[..|es|] == NumberAll(es, dir) && Enumerates(rules[|es|..], last)
  }

  method ListAll(m: map<Name, NsgRule>) returns (list: seq<NsgRule>)
    requires forall n :: n in m ==> m[n].name == n
    ensures Enumerates(list, m)
  {
    list := [];
    var todo := m.Keys;
    while todo != {}
      invariant todo <= m.Keys && |list| + |todo| == |m.Keys|
      invariant forall r :: r in list <==> r.name in m.Keys - todo && m[r.name] == r
      decreases todo
    {
      var name :| name in todo;
      list := list + [m[name]];
      todo := todo - {name};
    }
  }

  /** updateSecurityRuleNameAndPriority: ordinary rules are numbered anew, those at the deny priority come last. */
  method Renumber(existing: seq<NsgRule>, added: seq<NsgRule>, ghost dir: Direction) returns (rules: seq<NsgRule>)
    requires Uniform(existing, dir) && Uniform(added, dir)
    ensures Arranged(rules, Ordinary(existing) + Ordinary(added), Defaults(existing) + Defaults(added), dir)
  {
    assert NumberAll([], dir) == [];
    hide NumberAll, Ordinary, Defaults, Enumerates;
    var numbered, defaults := RenumberInto(existing, dir, [], [], map[]);
    numbered, defaults := RenumberInto(added, dir, [] + Ordinary(existing), numbered, defaults);
    assert [] + Ordinary(existing) + Ordinary(added) == Ordinary(existing) + Ordinary(added);
    assert map[] + Defaults(existing) + Defaults(added) == Defaults(existing) + Defaults(added);
    DefaultsNamed(existing);
    DefaultsNamed(added);
    var last := ListAll(defaults);
    rules := numbered + last;
    Arranges(Ordinary(existing) + Ordinary(added), last, Defaults(existing) + Defaults(added), dir);
  }

  lemma Arranges(es: seq<Entry>, last: seq<NsgRule>, m: map<Name, NsgRule>, dir: Direction)
    requires Enumerates(last, m)
    ensures Arranged(NumberAll(es, dir) + last, es, m, dir)
  {
    var rules := NumberAll(es, dir) + last;
    assert rules[..|es|] == NumberAll(es, dir) && rules[|es|..] == last;
  }

  // ---------------------------------------------------------------- the shared security group

  /** Rules of appliedTo groups other than the given one. */
  predicate Keeps(r: NsgRule, owner: string) {
    r.description.Some? && Classify(r.description.value).2 && r.description.value != owner
  }

  function KeptRules(rules: seq<NsgRule>, owner: string, dir: Direction): seq<NsgRule> {
    if rules == [] then []
    else
      var r := rules[|rules| - 1];
      KeptRules(rules[..|rules| - 1], owner, dir) + if Keeps(r, owner) && r.direction == dir then [r] else []
  }

  lemma {:induction false} KeptIn(rules: seq<NsgRule>, owner: string, dir: Direction)
    ensures forall r :: r in KeptRules(rules, owner, dir) ==> r in rules && Keeps(r, owner) && r.direction == dir
  {
    if rules != [] {
      KeptIn(rules[..|rules| - 1], owner, dir);
    }
  }

  /** The rules at the deny priority after an update: those of other groups, and the deny rule. */
  function Tail(rules: seq<NsgRule>, owner: string, dir: Direction): map<Name, NsgRule> {
    Defaults(KeptRules(rules, owner, dir)) + map[Generated(DENY_PRIORITY, dir) := DenyRule(dir)]
  }

  /** Whatever nephe has at the deny priority is named like the deny rule. */
  ghost predicate Shaped(rules: seq<NsgRule>) {
    forall r :: r in rules && r.description.Some? && Classify(r.description.value).2 && r.priority == DENY_PRIORITY ==>
      r.name == Generated(DENY_PRIORITY, r.direction)
  }

  /** The ordinary rules of the other groups, in order. */
  function Others(rules: seq<NsgRule>, owner: string, dir: Direction): seq<Entry> {
    KeptIn(rules, owner, dir);
    Ordinary(KeptRules(rules, owner, dir))
  }

  /** What is left of entries once the one numbered with the deny priority is taken for a deny rule. */
  function Readable(es: seq<Entry>): seq<Entry> {
    if |es| <= CAPACITY then es else es[..CAPACITY] + es[CAPACITY + 1..]
  }

  /** The ordinary rules after an update: those of the other groups, then the group's own. */
  function Updated(rules: seq<NsgRule>, owner: string, contents: seq<Content>, dir: Direction): seq<Entry> {
    Others(rules, owner, dir) + Readable(Owned(owner, contents))
  }

  method FilterRules(rules: seq<NsgRule>, owner: string) returns (ins: seq<NsgRule>, outs: seq<NsgRule>)
    ensures ins == KeptRules(rules, owner, In) && outs == KeptRules(rules, owner, Out)
  {
    ins, outs := [], [];
    for i := 0 to |rules|
      invariant ins == KeptRules(rules[..i], owner, In) && outs == KeptRules(rules[..i], owner, Out)
    {
      assert rules[..i + 1][..i] == rules[..i];
      if Keeps(rules[i], owner) {
        if rules[i].direction == In {
          ins := ins + [rules[i]];
        } else {
          outs := outs + [rules[i]];
        }
      }
    }
    assert rules[..|rules|] == rules;
  }

  lemma OrdinaryAppend(a: seq<NsgRule>, r: NsgRule)
    requires r.description.Some? && forall x :: x in a ==> x.description.Some?
    ensures forall x :: x in a + [r] ==> x.description.Some?
    ensures Ordinary(a + [r]) == Ordinary(a) + if r.priority == DENY_PRIORITY then []
              else [Entry(r.description.value, r.content)]
  {
    assert (a + [r])[..|a|] == a;
  }

  lemma ReadableAppend(es: seq<Entry>, e: Entry)
    ensures Readable(es + [e]) == if |es| == CAPACITY then Readable(es) else Readable(es) + [e]
  {
  }

  lemma NumberAppend(es: seq<Entry>, e: Entry, dir: Direction)
    ensures NumberAll(es + [e], dir) == NumberAll(es, dir) + [Numbered(e, dir, |es|)]
  {
  }

  lemma UniformAppend(rules: seq<NsgRule>, e: Entry, dir: Direction, n: nat)
    requires Uniform(rules, dir)
    ensures Uniform(rules + [Numbered(e, dir, n)], dir)
  {
  }

  /** Reading back a list of numbered rules. */
  lemma {:induction false} OrdinaryNumbered(es: seq<Entry>, dir: Direction)
    ensures Uniform(NumberAll(es, dir), dir) && Ordinary(NumberAll(es, dir)) == Readable(es)
  {
    if es != [] {
      var front, e := es[..|es| - 1], es[|es| - 1];
      assert es == front + [e];
      OrdinaryNumbered(front, dir);
      hide Readable, NumberAll, Ordinary;
      ReadableAppend(front, e);
      NumberAppend(front, e, dir);
      UniformAppend(NumberAll(front, dir), e, dir, |front|);
      OrdinaryAppend(NumberAll(front, dir), Numbered(e, dir, |front|));
    }
  }

  lemma OrdinaryLayout(es: seq<Entry>, dir: Direction)
    ensures Uniform(Layout(es, dir), dir) && Ordinary(Layout(es, dir)) == Readable(es)
  {
    OrdinaryNumbered(es, dir);
    OrdinaryAppend(NumberAll(es, dir), DenyRule(dir));
  }

  class SharedNsg {
    var rules: seq<NsgRule>

    constructor (rules: seq<NsgRule>)
      ensures this.rules == rules
    {
      this.rules := rules;
    }

    /**
     buildEffectiveNSGSecurityRulesToApply, and the write that follows; nothing is written if the group has no
     application security group, if a rule cannot be translated, or if the cloud refuses.
     */
    method UpdateRules(owner: string, ingress: seq<CloudRule>, egress: seq<CloudRule>, asgs: set<string>, known: bool,
                       refused: bool)
      returns (ok: bool)
      modifies this
      ensures ok <==> !refused && known && forall r :: r in ingress + egress ==> Supported(r.protocol)
      ensures !ok ==> rules == old(rules)
      ensures var ins := Updated(old(rules), owner, TranslateAll(ingress, asgs), In);
              var outs := Updated(old(rules), owner, TranslateAll(egress, asgs), Out);
              var lastIns, lastOuts := Tail(old(rules), owner, In), Tail(old(rules), owner, Out);
              ok ==>
                && |ins| + |lastIns| <= |rules|
                && Arranged(rules[..|ins| + |lastIns|], ins, lastIns, In)
                && Arranged(rules[|ins| + |lastIns|..], outs, lastOuts, Out)
                && (Shaped(old(rules)) ==> rules == Layout(ins, In) + Layout(outs, Out))
      ensures ok && |TranslateAll(ingress, asgs)| <= CAPACITY ==>
                forall f :: OwnerAdmits(rules, owner, In, f) <==> PermitsByName(ingress, asgs, f)
      ensures ok && |TranslateAll(egress, asgs)| <= CAPACITY ==>
                forall f :: OwnerAdmits(rules, owner, Out, f) <==> PermitsByName(egress, asgs, f)
    {
      hide TranslateAll, Supported, Arranged, Shaped, Layout, Tail, Updated, OwnerAdmits, PermitsByName;
      if !known {
        return false;
      }
      var keptIns, keptOuts := FilterRules(rules, owner);
      var ins := BuildDirection(rules, owner, ingress, asgs, keptIns, In);
      var outs := BuildDirection(rules, owner, egress, asgs, keptOuts, Out);
      assert (forall r :: r in ingress + egress ==> Supported(r.protocol)) <==> ins.Some? && outs.Some? by {
        forall r | r in ingress || r in egress ensures r in ingress + egress {}
      }
      if ins.None? || outs.None? || refused {
        return false;
      }
      ArrangedSize(ins.value, Updated(rules, owner, TranslateAll(ingress, asgs), In), Tail(rules, owner, In), In);
      if Shaped(rules) {
        ShapedTail(rules, owner, In);
        ShapedTail(rules, owner, Out);
        ArrangedDeny(ins.value, Updated(rules, owner, TranslateAll(ingress, asgs), In), In);
        ArrangedDeny(outs.value, Updated(rules, owner, TranslateAll(egress, asgs), Out), Out);
      }
      UpdatedAdmits(rules, owner, ingress, egress, asgs, ins.value, outs.value);
      rules := ins.value + outs.value;
      assert rules[..|ins.value|] == ins.value && rules[|ins.value|..] == outs.value;
      ok := true;
    }
  }

  /** Some rule the owner has in that direction admits the flow. */
  ghost predicate OwnerAdmits(rules: seq<NsgRule>, owner: string, dir: Direction, f: Flow) {
    exists r :: r in rules && r.description == Some(owner) && r.direction == dir && Admits(r.content, f)
  }

  lemma OwnerAdmitsConcat(a: seq<NsgRule>, b: seq<NsgRule>, owner: string, dir: Direction, f: Flow)
    ensures OwnerAdmits(a + b, owner, dir, f) <==> OwnerAdmits(a, owner, dir, f) || OwnerAdmits(b, owner, dir, f)
  {
    hide Admits;
    forall r ensures r in a + b <==> r in a || r in b {}
  }

  lemma {:induction false} OrdinaryOwners(rules: seq<NsgRule>)
    requires forall r :: r in rules ==> r.description.Some?
    ensures forall e :: e in Ordinary(rules) ==> exists r :: r in rules && r.description == Some(e.owner)
  {
    if rules != [] {
      var front, last := rules[..|rules| - 1], rules[|rules| - 1];
      assert rules == front + [last];
      OrdinaryOwners(front);
    }
  }

  lemma OthersOwners(rules: seq<NsgRule>, owner: string, dir: Direction)
    ensures forall e :: e in Others(rules, owner, dir) ==> e.owner != owner
  {
    KeptIn(rules, owner, dir);
    OrdinaryOwners(KeptRules(rules, owner, dir));
  }

  /** What the numbered rules of one direction admit for an owner. */
  lemma NumberedAdmits(es: seq<Entry>, contents: seq<Content>, owner: string, own: Direction, dir: Direction, f: Flow)
    requires forall e :: e in es ==> e.owner != owner
    ensures OwnerAdmits(NumberAll(es + Owned(owner, contents), own), owner, dir, f) <==>
              own == dir && SomeAdmits(contents, f)
  {
    hide Admits;
    var all := es + Owned(owner, contents);
    if own == dir && SomeAdmits(contents, f) {
      var c :| c in contents && Admits(c, f);
      var j :| 0 <= j < |contents| && contents[j] == c;
      assert NumberAll(all, own)[|es| + j] in NumberAll(all, own);
    }
    if OwnerAdmits(NumberAll(all, own), owner, dir, f) {
      var r :| r in NumberAll(all, own) && r.description == Some(owner) && r.direction == dir && Admits(r.content, f);
      var i :| 0 <= i < |all| && NumberAll(all, own)[i] == r;
      assert all[i] in all && i >= |es|;
      assert contents[i - |es|] in contents;
    }
  }

  /** Nothing at the deny priority admits anything for the group just updated. */
  lemma TailAdmits(rules: seq<NsgRule>, owner: string, own: Direction, last: seq<NsgRule>, dir: Direction, f: Flow)
    requires Enumerates(last, Tail(rules, owner, own))
    ensures !OwnerAdmits(last, owner, dir, f)
  {
    KeptIn(rules, owner, own);
    DefaultsNamed(KeptRules(rules, owner, own));
    hide Reaches, Defaults, Classify;
    forall r | r in last && r.description == Some(owner) && r.direction == dir ensures !Admits(r.content, f) {
      assert r == DenyRule(own) || r in KeptRules(rules, owner, own);
    }
  }

  lemma DirectionAdmits(rules: seq<NsgRule>, owner: string, compiled: seq<CloudRule>, asgs: set<string>,
                        built: seq<NsgRule>, own: Direction, dir: Direction, f: Flow)
    requires Arranged(built, Updated(rules, owner, TranslateAll(compiled, asgs), own), Tail(rules, owner, own), own)
    requires |TranslateAll(compiled, asgs)| <= CAPACITY || own != dir
    ensures OwnerAdmits(built, owner, dir, f) <==> own == dir && PermitsByName(compiled, asgs, f)
  {
    hide Tail, Enumerates, NumberAll, TranslateAll, OwnerAdmits, SomeAdmits, PermitsByName, Others;
    var contents := TranslateAll(compiled, asgs);
    var kept := Others(rules, owner, own);
    var es := Updated(rules, owner, contents, own);
    OthersOwners(rules, owner, own);
    TailAdmits(rules, owner, own, built[|es|..], dir, f);
    assert built == built[..|es|] + built[|es|..];
    OwnerAdmitsConcat(NumberAll(es, own), built[|es|..], owner, dir, f);
    TranslateAllExact(compiled, asgs, f);
    if own == dir {
      NumberedAdmits(kept, contents, owner, own, dir, f);
    } else {
      NumberedElsewhere(es, owner, own, dir, f);
    }
  }

  lemma NumberedElsewhere(es: seq<Entry>, owner: string, own: Direction, dir: Direction, f: Flow)
    requires own != dir
    ensures !OwnerAdmits(NumberAll(es, own), owner, dir, f)
  {
    hide Admits;
  }

  /** The rules of one conversion admit what the compiled rules allow. */
  lemma ConvertedAdmits(owner: string, rules: seq<CloudRule>, asgs: set<string>, dir: Direction)
    ensures forall f ::
              OwnerAdmits(Layout(Owned(owner, TranslateAll(rules, asgs)), dir), owner, dir, f) <==>
              PermitsByName(rules, asgs, f)
  {
    var contents := TranslateAll(rules, asgs);
    assert [] + Owned(owner, contents) == Owned(owner, contents);
    hide NumberAll, Owned, TranslateAll, PermitsByName, SomeAdmits;
    forall f ensures OwnerAdmits(Layout(Owned(owner, contents), dir), owner, dir, f) <==> PermitsByName(rules, asgs, f) {
      OwnerAdmitsConcat(NumberAll(Owned(owner, contents), dir), [DenyRule(dir)], owner, dir, f);
      NumberedAdmits([], contents, owner, dir, dir, f);
      TranslateAllExact(rules, asgs, f);
    }
  }

  /** After an update the owner's rules admit, in each direction, what the compiled rules allow. */
  lemma UpdatedAdmits(rules: seq<NsgRule>, owner: string, ingress: seq<CloudRule>, egress: seq<CloudRule>,
                      asgs: set<string>, ins: seq<NsgRule>, outs: seq<NsgRule>)
    requires Arranged(ins, Updated(rules, owner, TranslateAll(ingress, asgs), In), Tail(rules, owner, In), In)
    requires Arranged(outs, Updated(rules, owner, TranslateAll(egress, asgs), Out), Tail(rules, owner, Out), Out)
    ensures |TranslateAll(ingress, asgs)| <= CAPACITY ==>
              forall f :: OwnerAdmits(ins + outs, owner, In, f) <==> PermitsByName(ingress, asgs, f)
    ensures |TranslateAll(egress, asgs)| <= CAPACITY ==>
              forall f :: OwnerAdmits(ins + outs, owner, Out, f) <==> PermitsByName(egress, asgs, f)
  {
    hide Arranged, Updated, Tail, TranslateAll, OwnerAdmits, PermitsByName;
    forall f ensures |TranslateAll(ingress, asgs)| <= CAPACITY ==>
                       (OwnerAdmits(ins + outs, owner, In, f) <==> PermitsByName(ingress, asgs, f)) {
      if |TranslateAll(ingress, asgs)| <= CAPACITY {
        OwnerAdmitsConcat(ins, outs, owner, In, f);
        DirectionAdmits(rules, owner, ingress, asgs, ins, In, In, f);
        DirectionAdmits(rules, owner, egress, asgs, outs, Out, In, f);
      }
    }
    forall f ensures |TranslateAll(egress, asgs)| <= CAPACITY ==>
                       (OwnerAdmits(ins + outs, owner, Out, f) <==> PermitsByName(egress, asgs, f)) {
      if |TranslateAll(egress, asgs)| <= CAPACITY {
        OwnerAdmitsConcat(ins, outs, owner, Out, f);
        DirectionAdmits(rules, owner, ingress, asgs, ins, In, Out, f);
        DirectionAdmits(rules, owner, egress, asgs, outs, Out, Out, f);
      }
    }
  }

  /** The effective rules of one direction; None if a rule cannot be translated. */
  method BuildDirection(ghost rules: seq<NsgRule>, owner: string, compiled: seq<CloudRule>, asgs: set<string>,
                        kept: seq<NsgRule>, dir: Direction)
    returns (out: Option<seq<NsgRule>>)
    requires kept == KeptRules(rules, owner, dir)
    ensures out.Some? <==> forall r :: r in compiled ==> Supported(r.protocol)
    ensures var es := Updated(rules, owner, TranslateAll(compiled, asgs), dir);
            out.Some? ==> Arranged(out.value, es, Tail(rules, owner, dir), dir)
  {
    hide TranslateAll, Readable, Supported, Arranged, NumberAll, Defaults, Ordinary, Layout;
    var added := ConvertRules(owner, compiled, asgs, dir);
    if added.None? {
      return None;
    }
    KeptIn(rules, owner, dir);
    EndsInDeny(Owned(owner, TranslateAll(compiled, asgs)), dir);
    var all := Renumber(kept, added.value, dir);
    out := Some(all);
  }

  lemma ArrangedSize(rules: seq<NsgRule>, es: seq<Entry>, last: map<Name, NsgRule>, dir: Direction)
    requires Arranged(rules, es, last, dir)
    ensures |rules| == |es| + |last|
  {
  }

  /** With the deny rule alone at its priority, the arrangement is unique. */
  lemma ArrangedDeny(rules: seq<NsgRule>, es: seq<Entry>, dir: Direction)
    requires Arranged(rules, es, map[Generated(DENY_PRIORITY, dir) := DenyRule(dir)], dir)
    ensures rules == Layout(es, dir)
  {
    EnumeratesDeny(rules[|es|..], dir);
    assert rules == rules[..|es|] + rules[|es|..];
  }

  lemma EndsInDeny(es: seq<Entry>, dir: Direction)
    ensures var rules := Layout(es, dir);
            && Uniform(rules, dir) && Ordinary(rules) == Readable(es)
            && Defaults(rules) == map[Generated(DENY_PRIORITY, dir) := DenyRule(dir)]
  {
    OrdinaryLayout(es, dir);
    DefaultsNumbered(es, dir);
    assert Layout(es, dir)[..|es|] == NumberAll(es, dir);
  }

  /** Numbering never reaches the deny priority but under the deny rule's name. */
  lemma {:induction false} DefaultsNumbered(es: seq<Entry>, dir: Direction)
    ensures Defaults(NumberAll(es, dir)).Keys <= {Generated(DENY_PRIORITY, dir)}
  {
    if es != [] {
      var front := es[..|es| - 1];
      DefaultsNumbered(front, dir);
      assert NumberAll(es, dir)[..|front|] == NumberAll(front, dir);
    }
  }

  lemma ShapedTail(rules: seq<NsgRule>, owner: string, dir: Direction)
    requires Shaped(rules)
    ensures Tail(rules, owner, dir) == map[Generated(DENY_PRIORITY, dir) := DenyRule(dir)]
  {
    KeptIn(rules, owner, dir);
    DefaultsNamed(KeptRules(rules, owner, dir));
  }

  lemma EnumeratesDeny(list: seq<NsgRule>, dir: Direction)
    ensures Enumerates(list, map[Generated(DENY_PRIORITY, dir) := DenyRule(dir)]) ==> list == [DenyRule(dir)]
  {
    if Enumerates(list, map[Generated(DENY_PRIORITY, dir) := DenyRule(dir)]) {
      assert |list| == 1 && list[0] in list;
    }
  }

  // ---------------------------------------------------------------- runs of updates

  /** An update of one appliedTo group with translated rules. */
  datatype Update = Update(owner: string, ins: seq<Content>, outs: seq<Content>) {
    function Contents(dir: Direction): seq<Content> {
      if dir == In then ins else outs
    }
  }

  predicate IsOwner(owner: string) {
    Classify(owner).2
  }

  /** What UpdateRules makes of the rules. */
  function Step(rules: seq<NsgRule>, u: Update): seq<NsgRule> {
    Layout(Others(rules, u.owner, In) + Readable(Owned(u.owner, u.ins)), In) +
    Layout(Others(rules, u.owner, Out) + Readable(Owned(u.owner, u.outs)), Out)
  }

  function Run(rules: seq<NsgRule>, us: seq<Update>): seq<NsgRule> {
    if us == [] then rules else Step(Run(rules, us[..|us| - 1]), us[|us| - 1])
  }

  /** Entries of other owners, in order. */
  function Without(es: seq<Entry>, owner: string): seq<Entry> {
    if es == [] then []
    else Without(es[..|es| - 1], owner) + if es[|es| - 1].owner == owner then [] else [es[|es| - 1]]
  }

  /** The contents one owner has among entries, in order. */
  function Of(es: seq<Entry>, owner: string): seq<Content> {
    if es == [] then []
    else Of(es[..|es| - 1], owner) + if es[|es| - 1].owner == owner then [es[|es| - 1].content] else []
  }

  /** Reference: a list of entries in which each update replaces its owner's entries. */
  function Ideal(us: seq<Update>, dir: Direction): seq<Entry> {
    if us == [] then []
    else
      var u := us[|us| - 1];
      Without(Ideal(us[..|us| - 1], dir), u.owner) + Owned(u.owner, u.Contents(dir))
  }

  /** Reference: a map from owner to the rules of its latest update. */
  function Latest(us: seq<Update>, owner: string, dir: Direction): seq<Content> {
    if us == [] then []
    else if us[|us| - 1].owner == owner then us[|us| - 1].Contents(dir)
    else Latest(us[..|us| - 1], owner, dir)
  }

  /** Neither direction ever exceeds its priorities. */
  ghost predicate Fits(us: seq<Update>) {
    forall k, dir :: 0 <= k <= |us| ==> |Ideal(us[..k], dir)| <= CAPACITY
  }

  lemma OthersAppend(rules: seq<NsgRule>, r: NsgRule, owner: string, dir: Direction)
    ensures Others(rules + [r], owner, dir) == Others(rules, owner, dir) +
              if Keeps(r, owner) && r.direction == dir &&
                  r.priority != DENY_PRIORITY then [Entry(r.description.value, r.content)] else []
  {
    assert (rules + [r])[..|rules|] == rules;
    KeptIn(rules, owner, dir);
    if Keeps(r, owner) && r.direction == dir {
      OrdinaryAppend(KeptRules(rules, owner, dir), r);
    } else {
      assert KeptRules(rules + [r], owner, dir) == KeptRules(rules, owner, dir);
    }
  }

  lemma {:induction false} OthersConcat(a: seq<NsgRule>, b: seq<NsgRule>, owner: string, dir: Direction)
    ensures Others(a + b, owner, dir) == Others(a, owner, dir) + Others(b, owner, dir)
  {
    if b == [] {
      assert a + b == a;
    } else {
      var front, r := b[..|b| - 1], b[|b| - 1];
      assert a + b == (a + front) + [r] && b == front + [r];
      OthersConcat(a, front, owner, dir);
      OthersAppend(a + front, r, owner, dir);
      OthersAppend(front, r, owner, dir);
    }
  }

  lemma {:induction false} OthersNumbered(es: seq<Entry>, own: Direction, owner: string, dir: Direction)
    requires |es| <= CAPACITY && forall e :: e in es ==> IsOwner(e.owner)
    ensures Others(NumberAll(es, own), owner, dir) == if own == dir then Without(es, owner) else []
  {
    hide Others, Classify;
    if es == [] {
      OthersNone(owner, dir);
    } else {
      var n := |es| - 1;
      assert es[n] in es;
      OthersNumbered(es[..n], own, owner, dir);
      assert NumberAll(es, own) == NumberAll(es[..n], own) + [Numbered(es[n], own, n)];
      OthersAppend(NumberAll(es[..n], own), Numbered(es[n], own, n), owner, dir);
    }
  }

  lemma OthersNone(owner: string, dir: Direction)
    ensures Others([], owner, dir) == []
  {
  }

  lemma OthersLayout(ins: seq<Entry>, outs: seq<Entry>, owner: string, dir: Direction)
    requires |ins| <= CAPACITY && |outs| <= CAPACITY && forall e :: e in ins || e in outs ==> IsOwner(e.owner)
    ensures Others(Layout(ins, In) + Layout(outs, Out), owner, dir) == Without(if dir == In then ins else outs, owner)
  {
    hide Others, NumberAll, Classify;
    OthersConcat(Layout(ins, In), Layout(outs, Out), owner, dir);
    OthersAppend(NumberAll(ins, In), DenyRule(In), owner, dir);
    OthersAppend(NumberAll(outs, Out), DenyRule(Out), owner, dir);
    OthersNumbered(ins, In, owner, dir);
    OthersNumbered(outs, Out, owner, dir);
  }

  lemma {:induction false} OthersForeign(rules: seq<NsgRule>, owner: string, dir: Direction)
    requires forall r :: r in rules && r.description.Some? ==> !IsOwner(r.description.value)
    ensures Others(rules, owner, dir) == []
  {
    hide Others, Classify;
    if rules == [] {
      OthersNone(owner, dir);
    } else {
      var front, r := rules[..|rules| - 1], rules[|rules| - 1];
      assert rules == front + [r] && r in rules;
      OthersForeign(front, owner, dir);
      OthersAppend(front, r, owner, dir);
    }
  }

  lemma {:induction false} WithoutOwners(es: seq<Entry>, owner: string)
    ensures forall e :: e in Without(es, owner) ==> e in es
  {
    if es != [] {
      WithoutOwners(es[..|es| - 1], owner);
    }
  }

  lemma {:induction false} IdealOwners(us: seq<Update>, dir: Direction)
    requires forall i :: 0 <= i < |us| ==> IsOwner(us[i].owner)
    ensures forall e :: e in Ideal(us, dir) ==> IsOwner(e.owner)
  {
    hide Classify;
    if us != [] {
      IdealOwners(us[..|us| - 1], dir);
      WithoutOwners(Ideal(us[..|us| - 1], dir), us[|us| - 1].owner);
    }
  }

  lemma FitsFront(us: seq<Update>)
    requires Fits(us) && us != []
    ensures Fits(us[..|us| - 1]) && forall dir ::
              |Ideal(us[..|us| - 1], dir)| <= CAPACITY && |Ideal(us, dir)| <= CAPACITY
  {
    hide Ideal;
    var front := us[..|us| - 1];
    forall k, dir | 0 <= k <= |front| ensures |Ideal(front[..k], dir)| <= CAPACITY {
      assert front[..k] == us[..k];
    }
    assert us[..|us|] == us && us[..|us| - 1] == front;
  }

  /**
   After any run of updates that fits, started on a security group without rules of nephe, the rules are those of the
   reference list, numbered from 100 without gaps, with one deny rule per direction last.
   */
  lemma {:induction false} NsgIsIdeal(rules: seq<NsgRule>, us: seq<Update>)
    requires us != [] && Fits(us) && forall i :: 0 <= i < |us| ==> IsOwner(us[i].owner)
    requires forall r :: r in rules && r.description.Some? ==> !IsOwner(r.description.value)
    ensures Run(rules, us) == Layout(Ideal(us, In), In) + Layout(Ideal(us, Out), Out)
  {
    hide Others, Layout, Classify;
    var front, u := us[..|us| - 1], us[|us| - 1];
    FitsFront(us);
    forall dir ensures Others(Run(rules, front), u.owner, dir) == Without(Ideal(front, dir), u.owner) {
      if front == [] {
        OthersForeign(rules, u.owner, dir);
      } else {
        NsgIsIdeal(rules, front);
        IdealOwners(front, In);
        IdealOwners(front, Out);
        OthersLayout(Ideal(front, In), Ideal(front, Out), u.owner, dir);
      }
    }
    assert Readable(Owned(u.owner, u.ins)) == Owned(u.owner, u.ins) &&
        Readable(Owned(u.owner, u.outs)) == Owned(u.owner, u.outs) by {
      assert |Owned(u.owner, u.Contents(In))| <= |Ideal(us, In)| &&
          |Owned(u.owner, u.Contents(Out))| <= |Ideal(us, Out)|;
    }
  }

  lemma {:induction false} OfConcat(a: seq<Entry>, b: seq<Entry>, owner: string)
    ensures Of(a + b, owner) == Of(a, owner) + Of(b, owner)
  {
    if b == [] {
      assert a + b == a;
    } else {
      assert (a + b)[..|a + b| - 1] == a + b[..|b| - 1];
      OfConcat(a, b[..|b| - 1], owner);
    }
  }

  lemma {:induction false} OfWithout(es: seq<Entry>, owner: string, gone: string)
    ensures Of(Without(es, gone), owner) == if owner == gone then [] else Of(es, owner)
  {
    if es != [] {
      var front, e := es[..|es| - 1], es[|es| - 1];
      OfWithout(front, owner, gone);
      OfConcat(Without(front, gone), if e.owner == gone then [] else [e], owner);
    }
  }

  lemma {:induction false} OfOwned(owner: string, contents: seq<Content>, other: string)
    ensures Of(Owned(owner, contents), other) == if owner == other then contents else []
  {
    if contents != [] {
      var n := |contents| - 1;
      OfOwned(owner, contents[..n], other);
      assert Owned(owner, contents)[..n] == Owned(owner, contents[..n]);
    }
  }

  /** In the reference list every owner has exactly the rules of its latest update, in order. */
  lemma {:induction false} IdealIsLatest(us: seq<Update>, owner: string, dir: Direction)
    ensures Of(Ideal(us, dir), owner) == Latest(us, owner, dir)
  {
    if us != [] {
      var front, u := us[..|us| - 1], us[|us| - 1];
      IdealIsLatest(front, owner, dir);
      OfWithout(Ideal(front, dir), owner, u.owner);
      OfOwned(u.owner, u.Contents(dir), owner);
      OfConcat(Without(Ideal(front, dir), u.owner), Owned(u.owner, u.Contents(dir)), owner);
    }
  }

  lemma {:induction false} OfMembers(es: seq<Entry>, owner: string)
    ensures forall c :: c in Of(es, owner) <==> exists e :: e in es && e.owner == owner && e.content == c
  {
    if es != [] {
      var front, last := es[..|es| - 1], es[|es| - 1];
      assert es == front + [last];
      OfMembers(front, owner);
    }
  }

  lemma LayoutAdmits(es: seq<Entry>, owner: string, own: Direction, dir: Direction, f: Flow)
    ensures OwnerAdmits(Layout(es, own), owner, dir, f) <==> own == dir && SomeAdmits(Of(es, owner), f)
  {
    OfMembers(es, owner);
    hide Reaches, Matches, Of;
    var rules := Layout(es, own);
    if OwnerAdmits(rules, owner, dir, f) {
      var r :| r in rules && r.description == Some(owner) && r.direction == dir && Admits(r.content, f);
      var i :| 0 <= i < |rules| && rules[i] == r;
      assert es[i] in es;
    }
    if own == dir && SomeAdmits(Of(es, owner), f) {
      var c :| c in Of(es, owner) && Admits(c, f);
      var e :| e in es && e.owner == owner && e.content == c;
      var i :| 0 <= i < |es| && es[i] == e;
      assert rules[i] in rules;
    }
  }

  /** After any run that fits, what an owner's rules admit is what the contents of its latest update admit. */
  lemma RunAdmitsLatest(rules: seq<NsgRule>, us: seq<Update>, owner: string, dir: Direction, f: Flow)
    requires us != [] && Fits(us) && forall i :: 0 <= i < |us| ==> IsOwner(us[i].owner)
    requires forall r :: r in rules && r.description.Some? ==> !IsOwner(r.description.value)
    ensures OwnerAdmits(Run(rules, us), owner, dir, f) <==> SomeAdmits(Latest(us, owner, dir), f)
  {
    NsgIsIdeal(rules, us);
    IdealIsLatest(us, owner, In);
    IdealIsLatest(us, owner, Out);
    hide Layout, Ideal, Latest, Of, OwnerAdmits, SomeAdmits, Run, Fits;
    OwnerAdmitsConcat(Layout(Ideal(us, In), In), Layout(Ideal(us, Out), Out), owner, dir, f);
    LayoutAdmits(Ideal(us, In), owner, In, dir, f);
    LayoutAdmits(Ideal(us, Out), owner, Out, dir, f);
  }

  /** The bound is exact: priorities clash with the deny rule, and a rule gets lost, once there are more. */
  lemma CapacityIsExact(es: seq<Entry>, dir: Direction)
    ensures (forall i, j :: 0 <= i < j < |Layout(es, dir)| ==>
              Layout(es, dir)[i].priority != Layout(es, dir)[j].priority) <==> |es| <= CAPACITY
    ensures Ordinary(Layout(es, dir)) == es <==> |es| <= CAPACITY
  {
    OrdinaryLayout(es, dir);
    if |es| > CAPACITY {
      assert Layout(es, dir)[CAPACITY].priority == Layout(es, dir)[|es|].priority;
    }
  }

  /** The rules a run leaves are ones the next update can start from. */
  lemma LayoutShaped(ins: seq<Entry>, outs: seq<Entry>)
    ensures Shaped(Layout(ins, In) + Layout(outs, Out))
  {
    OrdinaryLayout(ins, In);
    OrdinaryLayout(outs, Out);
  }
}
