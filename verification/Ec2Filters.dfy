/** From virtual-machine selectors to the filters of EC2 instance queries. */
module Ec2Filters {
  import opened PolicyTypes
  import opened Basics

  /** EntityMatch: a field that is blank matches anything. */
  datatype Match = Match(id: string, name: string)

  /** VirtualMachineSelector. */
  datatype Selector = Selector(vpc: Option<Match>, vms: seq<Match>)

  datatype Instance = Instance(id: string, name: Option<string>, vpc: string, state: nat)

  /** The VPC ids known by name. */
  type VpcNames = map<string, string>

  const VALID_STATES: set<nat> := {16, 32, 64, 80}

  predicate IsSpace(c: char) {
    c in "\t\n\r \U{0B}\U{0C}\U{85}\U{A0}\U{1680}\U{2028}\U{2029}\U{202F}\U{205F}\U{3000}" ||
        '\U{2000}' <= c <= '\U{200A}'
  }

  /** TrimSpace leaves nothing. */
  predicate Blank(s: string) {
    forall c :: c in s ==> IsSpace(c)
  }

  predicate BlankMatch(m: Match) {
    Blank(m.id) && Blank(m.name)
  }

  function VpcId(s: Selector): string {
    if s.vpc.Some? then s.vpc.value.id else ""
  }

  function VpcName(s: Selector): string {
    if s.vpc.Some? then s.vpc.value.name else ""
  }

  predicate HasVpcId(s: Selector) {
    !Blank(VpcId(s))
  }

  predicate HasVpcName(s: Selector) {
    !Blank(VpcName(s))
  }

  // ---------------------------------------------------------------- what selectors mean

  predicate EntityMatches(m: Match, i: Instance) {
    (Blank(m.id) || m.id == i.id) && (Blank(m.name) || i.name == Some(m.name))
  }

  predicate VpcMatches(s: Selector, names: VpcNames, i: Instance) {
    && (HasVpcId(s) ==> VpcId(s) == i.vpc)
    && (HasVpcName(s) ==> VpcName(s) in names && names[VpcName(s)] == i.vpc)
  }

  predicate SelectorMatches(s: Selector, names: VpcNames, i: Instance) {
    VpcMatches(s, names, i) && (s.vms == [] || exists m :: m in s.vms && EntityMatches(m, i))
  }

  /** An instance is selected if any selector matches it. */
  ghost predicate Selected(selectors: seq<Selector>, names: VpcNames, i: Instance) {
    i.state in VALID_STATES && exists s :: s in selectors && SelectorMatches(s, names, i)
  }

  predicate SelectsAll(s: Selector) {
    !HasVpcId(s) && !HasVpcName(s) && s.vms == []
  }

  /** validateMatchSections for an AWS account: id or name, and no VPC name beside criteria for machines. */
  ghost predicate Admitted(s: Selector) {
    && !(HasVpcId(s) && HasVpcName(s))
    && (forall m :: m in s.vms ==> Blank(m.id) || Blank(m.name))
    && (HasVpcName(s) ==> forall m :: m in s.vms ==> BlankMatch(m))
  }

  // ---------------------------------------------------------------- filters

  /** A filter passes instances with one of its values. */
  datatype Filter = VpcIdIn(values: set<string>) | VmIdIn(values: set<string>) | VmNameIn(values: set<string>)
                  | VpcNameIn(values: set<string>) | ValidState

  /** What EC2 makes of a filter; it does not know VPC names. */
  predicate Passes(f: Filter, i: Instance) {
    match f
    case VpcIdIn(vs) => i.vpc in vs
    case VmIdIn(vs) => i.id in vs
    case VmNameIn(vs) => i.name.Some? && i.name.value in vs
    case VpcNameIn(vs) => false
    case ValidState => i.state in VALID_STATES
  }

  /** All filters of a query must pass. */
  predicate Query(fs: seq<Filter>, i: Instance) {
    forall f :: f in fs ==> Passes(f, i)
  }

  ghost predicate AnyQuery(queries: seq<seq<Filter>>, i: Instance) {
    exists fs :: fs in queries && Query(fs, i)
  }

  // ---------------------------------------------------------------- classification

  /** The five collections buildEc2Filters fills. */
  datatype Classes = Classes(vpcIds: set<string>, others: seq<Selector>, vmIds: seq<Match>, vmNames: seq<Match>,
                             vpcNames: seq<Selector>)

  predicate IdOnly(m: Match) {
    !Blank(m.id) && Blank(m.name)
  }

  predicate NameOnly(m: Match) {
    Blank(m.id) && !Blank(m.name)
  }

  predicate WholeVpc(s: Selector) {
    HasVpcId(s) && s.vms == []
  }

  predicate Specific(s: Selector) {
    HasVpcId(s) && exists m :: m in s.vms && !BlankMatch(m)
  }

  predicate NamedVpc(s: Selector) {
    !HasVpcId(s) && HasVpcName(s) && s.vms == []
  }

  /** Which selectors and matches have ended up where. */
  ghost predicate Classified(c: Classes, selectors: seq<Selector>) {
    && (forall v :: v in c.vpcIds <==> exists s :: s in selectors && WholeVpc(s) && VpcId(s) == v)
    && (forall s :: s in c.others ==> s in selectors && Specific(s))
    && (forall s :: s in selectors && Specific(s) ==> s in c.others || VpcId(s) in c.vpcIds)
    && (forall m :: m in c.vmIds <==> IdOnly(m) && exists s :: s in selectors && !HasVpcId(s) && m in s.vms)
    && (forall m :: m in c.vmNames <==> NameOnly(m) && exists s :: s in selectors && !HasVpcId(s) && m in s.vms)
    && (forall s :: s in c.vpcNames <==> s in selectors && NamedVpc(s))
  }

  /** The inner loop: the machine criteria of one selector. */
  method ClassifyVms(c: Classes, s: Selector) returns (c': Classes)
    ensures c'.vpcIds == c.vpcIds && c'.vpcNames == c.vpcNames
    ensures c'.others == c.others + if Specific(s) && VpcId(s) !in c.vpcIds then [s] else []
    ensures forall m :: m in c'.vmIds <==> m in c.vmIds || (!HasVpcId(s) && m in s.vms && IdOnly(m))
    ensures forall m :: m in c'.vmNames <==> m in c.vmNames || (!HasVpcId(s) && m in s.vms && NameOnly(m))
  {
    c' := c;
    for i := 0 to |s.vms|
      invariant c'.vpcIds == c.vpcIds && c'.vpcNames == c.vpcNames && c'.others == c.others
      invariant HasVpcId(s) ==> forall j :: 0 <= j < i ==> BlankMatch(s.vms[j])
      invariant forall m :: m in c'.vmIds <==> m in c.vmIds || (!HasVpcId(s) && m in s.vms[..i] && IdOnly(m))
      invariant forall m :: m in c'.vmNames <==> m in c.vmNames || (!HasVpcId(s) && m in s.vms[..i] && NameOnly(m))
    {
      var m := s.vms[i];
      if HasVpcId(s) && !BlankMatch(m) {
        assert Specific(s);
        if VpcId(s) !in c'.vpcIds {
          c' := c'.(others := c'.others + [s]);
        }
        break;
      }
      if IdOnly(m) && !HasVpcId(s) {
        c' := c'.(vmIds := c'.vmIds + [m]);
      }
      if NameOnly(m) && !HasVpcId(s) {
        c' := c'.(vmNames := c'.vmNames + [m]);
      }
    }
  }

  /** The classification loop; stops at a selector that selects everything. */
  method Classify(selectors: seq<Selector>) returns (all: bool, c: Classes)
    ensures all <==> exists s :: s in selectors && SelectsAll(s)
    ensures !all ==> Classified(c, selectors)
  {
    c := Classes({}, [], [], [], []);
    for i := 0 to |selectors|
      invariant forall s :: s in selectors[..i] ==> !SelectsAll(s)
      invariant Classified(c, selectors[..i])
    {
      var s := selectors[i];
      if SelectsAll(s) {
        return true, c;
      }
      ghost var before := c;
      if WholeVpc(s) {
        c := c.(vpcIds := c.vpcIds + {VpcId(s)});
      }
      if NamedVpc(s) {
        c := c.(vpcNames := c.vpcNames + [s]);
      }
      ghost var mid := c;
      c := ClassifyVms(c, s);
      assert selectors[..i + 1] == selectors[..i] + [s];
      ClassifiedNext(before, mid, c, selectors[..i], s);
    }
    assert selectors[..|selectors|] == selectors;
    return false, c;
  }

  lemma ClassifiedNext(c: Classes, mid: Classes, d: Classes, selectors: seq<Selector>, s: Selector)
    requires Classified(c, selectors)
    requires mid == c.(vpcIds := if WholeVpc(s) then c.vpcIds + {VpcId(s)} else c.vpcIds,
                       vpcNames := if NamedVpc(s) then c.vpcNames + [s] else c.vpcNames)
    requires d.vpcIds == mid.vpcIds && d.vpcNames == mid.vpcNames
    requires d.others == mid.others + if Specific(s) && VpcId(s) !in mid.vpcIds then [s] else []
    requires forall m :: m in d.vmIds <==> m in mid.vmIds || (!HasVpcId(s) && m in s.vms && IdOnly(m))
    requires forall m :: m in d.vmNames <==> m in mid.vmNames || (!HasVpcId(s) && m in s.vms && NameOnly(m))
    ensures Classified(d, selectors + [s])
  {
    hide HasVpcName, IdOnly, NameOnly;
    var all := selectors + [s];
    assert s in all && forall t :: t in selectors ==> t in all;
    forall v ensures v in d.vpcIds <==> exists t :: t in all && WholeVpc(t) && VpcId(t) == v {
      if v in d.vpcIds && v !in c.vpcIds {
        assert WholeVpc(s);
      }
    }
  }

  // ---------------------------------------------------------------- building queries

  /** What one selector contributes to the queries. */
  ghost predicate Effective(s: Selector, names: VpcNames, i: Instance) {
    || (WholeVpc(s) && VpcId(s) == i.vpc)
    || (Specific(s) && VpcId(s) == i.vpc && exists m :: m in s.vms && EntityMatches(m, i))
    || (!HasVpcId(s) && exists m :: m in s.vms && (IdOnly(m) || NameOnly(m)) && EntityMatches(m, i))
    || (NamedVpc(s) && VpcName(s) in names && names[VpcName(s)] == i.vpc)
  }

  /** Does a selector contribute to the queries at all? */
  ghost predicate Contributes(s: Selector) {
    WholeVpc(s) || Specific(s) || NamedVpc(s) || (!HasVpcId(s) && exists m :: m in s.vms && (IdOnly(m) || NameOnly(m)))
  }

  function MatchQuery(vpc: string, m: Match): seq<Filter> {
    [VpcIdIn({vpc})] + (if Blank(m.id) then [] else [VmIdIn({m.id})]) +
    (if Blank(m.name) then [] else [VmNameIn({m.name})]) + [ValidState]
  }

  lemma MatchQueryExact(vpc: string, m: Match, i: Instance)
    ensures Query(MatchQuery(vpc, m), i) <==> i.vpc == vpc && EntityMatches(m, i) && i.state in VALID_STATES
  {
    var q := MatchQuery(vpc, m);
    assert VpcIdIn({vpc}) in q && ValidState in q;
    assert !Blank(m.id) ==> VmIdIn({m.id}) in q;
    assert !Blank(m.name) ==> VmNameIn({m.name}) in q;
  }

  lemma PairExact(f: Filter, i: Instance)
    ensures Query([f, ValidState], i) <==> Passes(f, i) && i.state in VALID_STATES
  {
    assert f in [f, ValidState] && ValidState in [f, ValidState];
  }

  /** buildAwsEc2FilterForVpcIDWithOtherMatches: one query per selector and machine criterion. */
  method BuildOthers(others: seq<Selector>, vpcIds: set<string>) returns (queries: seq<seq<Filter>>)
    requires forall s :: s in others ==> Specific(s)
    ensures forall fs :: fs in queries <==>
              exists s, m :: s in others && VpcId(s) !in vpcIds && m in s.vms && fs == MatchQuery(VpcId(s), m)
    ensures queries == [] <==> forall s :: s in others ==> VpcId(s) in vpcIds
  {
    hide MatchQuery;
    queries := [];
    for k := 0 to |others|
      invariant forall fs :: fs in queries <==>
                  exists s, m :: s in others[..k] && VpcId(s) !in vpcIds && m in s.vms && fs == MatchQuery(VpcId(s), m)
      invariant queries == [] <==> forall s :: s in others[..k] ==> VpcId(s) in vpcIds
    {
      assert others[..k + 1] == others[..k] + [others[k]];
      var s := others[k];
      assert s in others;
      var vpc := VpcId(s);
      if vpc !in vpcIds {
        var more := BuildSelector(vpc, s.vms);
        queries := queries + more;
      }
    }
    assert others[..|others|] == others;
  }

  method BuildSelector(vpc: string, vms: seq<Match>) returns (queries: seq<seq<Filter>>)
    ensures |queries| == |vms| && forall fs :: fs in queries <==> exists m :: m in vms && fs == MatchQuery(vpc, m)
  {
    queries := [];
    for j := 0 to |vms|
      invariant |queries| == j && forall fs :: fs in queries <==> exists m :: m in vms[..j] && fs == MatchQuery(vpc, m)
    {
      var m := vms[j];
      var fs := [VpcIdIn({vpc})];
      if !Blank(m.id) {
        fs := fs + [VmIdIn({m.id})];
      }
      if !Blank(m.name) {
        fs := fs + [VmNameIn({m.name})];
      }
      fs := fs + [ValidState];
      assert fs == MatchQuery(vpc, m);
      assert vms[..j + 1] == vms[..j] + [m];
      queries := queries + [fs];
    }
    assert vms[..|vms|] == vms;
  }

  method MatchIds(ms: seq<Match>) returns (ids: set<string>)
    ensures ids == set m | m in ms :: m.id
  {
    ids := {};
    for i := 0 to |ms|
      invariant ids == set m | m in ms[..i] :: m.id
    {
      assert ms[..i + 1] == ms[..i] + [ms[i]];
      ids := ids + {ms[i].id};
    }
    assert ms[..|ms|] == ms;
  }

  method MatchNames(ms: seq<Match>) returns (names: set<string>)
    ensures names == set m | m in ms :: m.name
  {
    names := {};
    for i := 0 to |ms|
      invariant names == set m | m in ms[..i] :: m.name
    {
      assert ms[..i + 1] == ms[..i] + [ms[i]];
      names := names + {ms[i].name};
    }
    assert ms[..|ms|] == ms;
  }

  method SelectorVpcNames(ss: seq<Selector>) returns (names: set<string>)
    requires forall s :: s in ss ==> HasVpcName(s)
    ensures names == set s | s in ss :: VpcName(s)
  {
    names := {};
    for i := 0 to |ss|
      invariant names == set s | s in ss[..i] :: VpcName(s)
    {
      assert ss[..i + 1] == ss[..i] + [ss[i]];
      assert ss[i] in ss;
      names := names + {VpcName(ss[i])};
    }
    assert ss[..|ss|] == ss;
  }

  /** The queries of a classification, VPC names still unresolved. */
  ghost predicate Built(c: Classes, queries: seq<seq<Filter>>) {
    && (forall s :: s in c.others ==> Specific(s)) && (forall s :: s in c.vpcNames ==> HasVpcName(s))
    && (forall fs :: fs in queries <==>
        || (c.vpcIds != {} && fs == [VpcIdIn(c.vpcIds), ValidState])
        || (exists s, m :: s in c.others && VpcId(s) !in c.vpcIds && m in s.vms && fs == MatchQuery(VpcId(s), m))
        || (c.vmIds != [] && fs == [VmIdIn(set m | m in c.vmIds :: m.id), ValidState])
        || (c.vmNames != [] && fs == [VmNameIn(set m | m in c.vmNames :: m.name), ValidState])
        || (c.vpcNames != [] && fs == [VpcNameIn(set s | s in c.vpcNames :: VpcName(s)), ValidState]))
  }

  /** A query for instances in a valid state, if there is anything to ask for. */
  function OnlyIf(wanted: bool, f: Filter): seq<seq<Filter>> {
    if wanted then [[f, ValidState]] else []
  }

  /** The second half of buildEc2Filters. */
  method BuildQueries(c: Classes) returns (queries: seq<seq<Filter>>)
    requires forall s :: s in c.others ==> Specific(s)
    requires forall s :: s in c.vpcNames ==> HasVpcName(s)
    ensures Built(c, queries)
    ensures queries == [] <==> c.vpcIds == {} && c.others == [] && c.vmIds == [] && c.vmNames == [] && c.vpcNames == []
  {
    hide MatchQuery;
    var others := BuildOthers(c.others, c.vpcIds);
    var ids := MatchIds(c.vmIds);
    var names := MatchNames(c.vmNames);
    var vpcNames := SelectorVpcNames(c.vpcNames);
    queries := OnlyIf(c.vpcIds != {}, VpcIdIn(c.vpcIds)) + others + OnlyIf(c.vmIds != [], VmIdIn(ids)) +
               OnlyIf(c.vmNames != [], VmNameIn(names)) + OnlyIf(c.vpcNames != [], VpcNameIn(vpcNames));
    assert c.others != [] && c.vpcIds == {} ==> others != [] by {
      if c.others != [] && c.vpcIds == {} {
        assert c.others[0] in c.others;
      }
    }
  }

  /** buildFilterForVPCIDFromFilterForVPCName, which a query for VPC names goes through; an unknown name becomes "". */
  function ResolveNames(fs: seq<Filter>, names: VpcNames): seq<Filter> {
    if fs != [] && fs[0].VpcNameIn?
    then [VpcIdIn(set n | n in fs[0].values :: if n in names then names[n] else ""), ValidState]
    else fs
  }

  /** buildEc2Filters and getInstances: the queries put to EC2. */
  method InstanceQueries(selectors: seq<Selector>, names: VpcNames) returns (queries: seq<seq<Filter>>)
    ensures forall i: Instance :: i.vpc != "" ==> (AnyQuery(queries, i) <==> Answered(selectors, names, i))
  {
    hide Classified, Built, AnyQuery, Answered;
    var all, c := Classify(selectors);
    var built := [];
    if !all {
      ClassifiedWell(c, selectors);
      built := BuildQueries(c);
    }
    if built == [] {
      forall i: Instance | i.vpc != "" ensures AnyQuery([[ValidState]], i) <==> Answered(selectors, names, i) {
        if !all {
          NothingBuilt(c, selectors);
        }
        AllAnswered(selectors, names, i);
      }
      return [[ValidState]];
    }
    queries := [];
    for k := 0 to |built|
      invariant |queries| == k && forall j :: 0 <= j < k ==> queries[j] == ResolveNames(built[j], names)
    {
      queries := queries + [ResolveNames(built[k], names)];
    }
    forall i: Instance | i.vpc != "" ensures AnyQuery(queries, i) <==> Answered(selectors, names, i) {
      QueriesExact(c, selectors, built, queries, names, i);
    }
  }

  /** Everything that is selected in the end, for all lists of selectors. */
  ghost predicate Answered(selectors: seq<Selector>, names: VpcNames, i: Instance) {
    i.state in VALID_STATES &&
    (|| (exists s :: s in selectors && SelectsAll(s))
     || (forall s :: s in selectors ==> !Contributes(s))
     || (exists s :: s in selectors && Effective(s, names, i)))
  }

  lemma ClassifiedWell(c: Classes, selectors: seq<Selector>)
    requires Classified(c, selectors)
    ensures (forall s :: s in c.others ==> Specific(s)) && forall s :: s in c.vpcNames ==> HasVpcName(s)
  {
  }

  lemma NothingBuilt(c: Classes, selectors: seq<Selector>)
    requires Classified(c, selectors) && c.vpcIds == {} && c.others == [] && c.vmIds == [] && c.vmNames == []
    requires c.vpcNames == []
    ensures forall s :: s in selectors ==> !Contributes(s)
  {
    forall s | s in selectors ensures !Contributes(s) {
      assert !HasVpcId(s) ==> forall m :: m in s.vms ==>
          (IdOnly(m) ==> m in c.vmIds) && (NameOnly(m) ==> m in c.vmNames);
      assert WholeVpc(s) ==> VpcId(s) in c.vpcIds;
    }
  }

  lemma SomethingBuilt(c: Classes, selectors: seq<Selector>)
    requires Classified(c, selectors) && !(c.vpcIds == {} && c.others == [] && c.vmIds == [] && c.vmNames == [] &&
               c.vpcNames == [])
    ensures exists s :: s in selectors && Contributes(s)
  {
    if c.vpcIds != {} {
      var v :| v in c.vpcIds;
    } else if c.others != [] {
      assert c.others[0] in c.others;
    } else if c.vmIds != [] {
      assert c.vmIds[0] in c.vmIds;
    } else if c.vmNames != [] {
      assert c.vmNames[0] in c.vmNames;
    } else {
      assert c.vpcNames[0] in c.vpcNames;
    }
  }

  lemma AllAnswered(selectors: seq<Selector>, names: VpcNames, i: Instance)
    requires (exists s :: s in selectors && SelectsAll(s)) || (forall s :: s in selectors ==> !Contributes(s))
    ensures AnyQuery([[ValidState]], i) <==> Answered(selectors, names, i)
  {
    assert [ValidState] in [[ValidState]] && ValidState in [ValidState];
    assert Query([ValidState], i) <==> i.state in VALID_STATES;
  }

  /** One query finds what its part of the classification asks for. */
  ghost predicate Wanted(c: Classes, names: VpcNames, i: Instance) {
    || i.vpc in c.vpcIds
    || (exists s, m :: s in c.others && VpcId(s) !in c.vpcIds && m in s.vms && VpcId(s) == i.vpc && EntityMatches(m, i))
    || (exists m :: m in c.vmIds && m.id == i.id)
    || (exists m :: m in c.vmNames && i.name == Some(m.name))
    || (exists s :: s in c.vpcNames && VpcName(s) in names && names[VpcName(s)] == i.vpc)
  }

  lemma WantedEffective(c: Classes, selectors: seq<Selector>, names: VpcNames, i: Instance)
    requires Classified(c, selectors) && Wanted(c, names, i)
    ensures exists s :: s in selectors && Effective(s, names, i)
  {
    hide Blank, HasVpcName, VpcId, VpcName;
    if i.vpc in c.vpcIds {
      var s :| s in selectors && WholeVpc(s) && VpcId(s) == i.vpc;
      assert Effective(s, names, i);
    } else if s, m :| s in c.others && VpcId(s) !in c.vpcIds && m in s.vms && VpcId(s) == i.vpc && EntityMatches(m, i) {
      assert Effective(s, names, i);
    } else if m :| m in c.vmIds && m.id == i.id {
      var s :| s in selectors && !HasVpcId(s) && m in s.vms;
      assert EntityMatches(m, i) && Effective(s, names, i);
    } else if m :| m in c.vmNames && i.name == Some(m.name) {
      var s :| s in selectors && !HasVpcId(s) && m in s.vms;
      assert EntityMatches(m, i) && Effective(s, names, i);
    } else {
      var s :| s in c.vpcNames && VpcName(s) in names && names[VpcName(s)] == i.vpc;
      assert Effective(s, names, i);
    }
  }

  lemma EffectiveWanted(c: Classes, selectors: seq<Selector>, names: VpcNames, s: Selector, i: Instance)
    requires Classified(c, selectors) && s in selectors && Effective(s, names, i)
    ensures Wanted(c, names, i)
  {
    hide HasVpcName;
    if Specific(s) {
      var m :| m in s.vms && EntityMatches(m, i);
      assert s in c.others || VpcId(s) in c.vpcIds;
    } else if m :| m in s.vms && (IdOnly(m) || NameOnly(m)) && EntityMatches(m, i) && !HasVpcId(s) {
      assert m in c.vmIds || m in c.vmNames;
    }
  }

  lemma QueriesWanted(c: Classes, built: seq<seq<Filter>>, queries: seq<seq<Filter>>, names: VpcNames, i: Instance)
    requires Built(c, built) && |queries| == |built| && forall j :: 0 <= j < |built| ==>
               queries[j] == ResolveNames(built[j], names)
    requires i.vpc != "" && (forall m :: m in c.vmIds ==> IdOnly(m)) && (forall m :: m in c.vmNames ==> NameOnly(m))
    ensures AnyQuery(queries, i) <==> i.state in VALID_STATES && Wanted(c, names, i)
  {
    hide Built, MatchQuery, EntityMatches, Query;
    if AnyQuery(queries, i) {
      var q :| q in queries && Query(q, i);
      var j :| 0 <= j < |queries| && queries[j] == q;
      assert built[j] in built;
      BuiltSound(c, built, built[j], names, i);
    }
    if i.state in VALID_STATES && Wanted(c, names, i) {
      var fs := BuiltComplete(c, built, names, i);
      var j :| 0 <= j < |built| && built[j] == fs;
      assert queries[j] in queries;
    }
  }

  lemma BuiltSound(c: Classes, built: seq<seq<Filter>>, fs: seq<Filter>, names: VpcNames, i: Instance)
    requires Built(c, built) && fs in built && Query(ResolveNames(fs, names), i) && i.vpc != ""
    ensures i.state in VALID_STATES && Wanted(c, names, i)
  {
    hide Query, EntityMatches;
    if s, m :| s in c.others && VpcId(s) !in c.vpcIds && m in s.vms && fs == MatchQuery(VpcId(s), m) {
      MatchQueryExact(VpcId(s), m, i);
    } else {
      PairExact(ResolveNames(fs, names)[0], i);
    }
  }

  lemma BuiltComplete(c: Classes, built: seq<seq<Filter>>, names: VpcNames, i: Instance) returns (fs: seq<Filter>)
    requires Built(c, built) && i.state in VALID_STATES && Wanted(c, names, i)
    ensures fs in built && Query(ResolveNames(fs, names), i)
  {
    hide Query, EntityMatches;
    if i.vpc in c.vpcIds {
      fs := [VpcIdIn(c.vpcIds), ValidState];
      PairExact(fs[0], i);
    } else if s, m :| s in c.others && VpcId(s) !in c.vpcIds && m in s.vms && VpcId(s) == i.vpc && EntityMatches(m, i) {
      fs := MatchQuery(VpcId(s), m);
      MatchQueryExact(VpcId(s), m, i);
    } else if m :| m in c.vmIds && m.id == i.id {
      fs := [VmIdIn(set m | m in c.vmIds :: m.id), ValidState];
      PairExact(fs[0], i);
    } else if m :| m in c.vmNames && i.name == Some(m.name) {
      fs := [VmNameIn(set m | m in c.vmNames :: m.name), ValidState];
      PairExact(fs[0], i);
    } else {
      var s :| s in c.vpcNames && VpcName(s) in names && names[VpcName(s)] == i.vpc;
      fs := [VpcNameIn(set s | s in c.vpcNames :: VpcName(s)), ValidState];
      PairExact(ResolveNames(fs, names)[0], i);
    }
  }

  lemma QueriesExact(c: Classes, selectors: seq<Selector>, built: seq<seq<Filter>>, queries: seq<seq<Filter>>,
                     names: VpcNames, i: Instance)
    requires Classified(c, selectors) && Built(c, built) && built != []
    requires built == [] <==> c.vpcIds == {} && c.others == [] && c.vmIds == [] && c.vmNames == [] && c.vpcNames == []
    requires forall s :: s in selectors ==> !SelectsAll(s)
    requires |queries| == |built| && forall j :: 0 <= j < |built| ==> queries[j] == ResolveNames(built[j], names)
    requires i.vpc != ""
    ensures AnyQuery(queries, i) <==> Answered(selectors, names, i)
  {
    hide Built, AnyQuery, Effective, Wanted, Contributes;
    QueriesWanted(c, built, queries, names, i);
    if Wanted(c, names, i) {
      WantedEffective(c, selectors, names, i);
    }
    if s :| s in selectors && Effective(s, names, i) {
      EffectiveWanted(c, selectors, names, s, i);
    }
    SomethingBuilt(c, selectors);
  }

  // ---------------------------------------------------------------- selection is exact

  lemma EffectiveExact(s: Selector, names: VpcNames, i: Instance)
    requires Admitted(s) && !SelectsAll(s) && forall m :: m in s.vms ==> !BlankMatch(m)
    ensures Contributes(s) && (Effective(s, names, i) <==> SelectorMatches(s, names, i))
  {
    if s.vms != [] {
      assert s.vms[0] in s.vms;
    }
  }

  /**
   Selectors that pass validation and have no blank machine criterion select exactly the instances the queries find;
   without filters a query is only put for a selector that asks for everything.
   */
  lemma SelectionExact(selectors: seq<Selector>, names: VpcNames, i: Instance)
    requires selectors != [] && forall s :: s in selectors ==> Admitted(s) && forall m :: m in s.vms ==> !BlankMatch(m)
    ensures Answered(selectors, names, i) <==> Selected(selectors, names, i)
    ensures (forall s :: s in selectors ==> !Contributes(s)) ==> exists s :: s in selectors && SelectsAll(s)
  {
    hide Contributes, Effective, SelectorMatches, Admitted;
    if forall s :: s in selectors ==> !SelectsAll(s) {
      assert selectors[0] in selectors;
      forall s | s in selectors ensures Contributes(s) && (Effective(s, names, i) <==> SelectorMatches(s, names, i)) {
        EffectiveExact(s, names, i);
      }
    } else {
      var s :| s in selectors && SelectsAll(s);
      AllMatch(s, names, i);
    }
  }

  lemma AllMatch(s: Selector, names: VpcNames, i: Instance)
    requires SelectsAll(s)
    ensures SelectorMatches(s, names, i)
  {
  }

  // ---------------------------------------------------------------- blank machine criteria

  /** A VPC with nothing but blank machine criteria: it selects the VPC, but contributes no filter. */
  predicate Shadow(s: Selector) {
    (HasVpcId(s) || HasVpcName(s)) && s.vms != [] && forall m :: m in s.vms ==> BlankMatch(m)
  }

  /** A blank machine criterion without VPC selects everything, but contributes no filter. */
  predicate Open(s: Selector) {
    !HasVpcId(s) && !HasVpcName(s) && exists m :: m in s.vms && BlankMatch(m)
  }

  /** The VPC a selector is about, if it is known. */
  function Target(s: Selector, names: VpcNames): Option<string> {
    if HasVpcId(s) then Some(VpcId(s))
    else if HasVpcName(s) && VpcName(s) in names then Some(names[VpcName(s)])
    else None
  }

  /** Some selector contributes filters that pass all of a VPC. */
  predicate Covers(s: Selector, names: VpcNames, vpc: string) {
    Target(s, names) == Some(vpc) && (WholeVpc(s) || NamedVpc(s) ||
        (Specific(s) && exists m :: m in s.vms && BlankMatch(m)))
  }

  /** When the queries for a list of selectors find what it selects. */
  ghost predicate Faithful(selectors: seq<Selector>, names: VpcNames) {
    || (exists s :: s in selectors && SelectsAll(s))
    || ((forall s :: s in selectors ==> !Contributes(s)) && exists s ::
        s in selectors && !HasVpcId(s) && !HasVpcName(s))
    || (&& (exists s :: s in selectors && Contributes(s))
        && (forall s :: s in selectors ==> !Open(s))
        && forall s, v :: s in selectors && Shadow(s) && Target(s, names) == Some(v) && v != "" ==>
             exists c :: c in selectors && Covers(c, names, v))
  }

  /** Filters never pass what the selector does not select, and only blank criteria make them pass less. */
  lemma EffectiveMeans(s: Selector, names: VpcNames, i: Instance)
    requires Admitted(s) && !SelectsAll(s)
    ensures Effective(s, names, i) ==> SelectorMatches(s, names, i)
    ensures !Shadow(s) && !Open(s) ==> (Effective(s, names, i) <==> SelectorMatches(s, names, i))
  {
    if SelectorMatches(s, names, i) && !Shadow(s) && !Open(s) && s.vms != [] {
      var m :| m in s.vms && EntityMatches(m, i);
      if !HasVpcId(s) {
        assert s.vms[0] in s.vms;
        assert IdOnly(m) || NameOnly(m);
      }
    }
  }

  lemma ShadowMatches(s: Selector, names: VpcNames, i: Instance)
    requires Admitted(s) && Shadow(s)
    ensures SelectorMatches(s, names, i) <==> Target(s, names) == Some(i.vpc)
  {
    assert s.vms[0] in s.vms && EntityMatches(s.vms[0], i);
  }

  lemma CoversMatches(s: Selector, names: VpcNames, i: Instance)
    requires Covers(s, names, i.vpc)
    ensures Effective(s, names, i)
  {
    if Specific(s) {
      var m :| m in s.vms && BlankMatch(m);
      assert EntityMatches(m, i);
    }
  }

  /** A selector without VPC that contributes nothing selects everything. */
  lemma IdleMatches(s: Selector, names: VpcNames, i: Instance)
    requires Admitted(s) && !HasVpcId(s) && !HasVpcName(s) && !Contributes(s)
    ensures SelectorMatches(s, names, i)
  {
    if s.vms != [] {
      var m := s.vms[0];
      assert m in s.vms;
      assert !(IdOnly(m) || NameOnly(m));
      assert EntityMatches(m, i);
    }
  }

  lemma FaithfulAt(selectors: seq<Selector>, names: VpcNames, i: Instance)
    requires (forall s :: s in selectors ==> Admitted(s)) && Faithful(selectors, names) && i.vpc != ""
    ensures Answered(selectors, names, i) <==> Selected(selectors, names, i)
  {
    hide Contributes, Effective, SelectorMatches, Admitted, Shadow, Open, Covers, Target, SelectsAll;
    if s :| s in selectors && SelectsAll(s) {
      AllMatch(s, names, i);
    } else if forall s :: s in selectors ==> !Contributes(s) {
      var s :| s in selectors && !HasVpcId(s) && !HasVpcName(s);
      IdleMatches(s, names, i);
    } else {
      forall s | s in selectors ensures Effective(s, names, i) ==> SelectorMatches(s, names, i) {
        EffectiveMeans(s, names, i);
      }
      if s :| s in selectors && SelectorMatches(s, names, i) {
        SelectedAnswered(selectors, names, i, s);
      }
    }
  }

  lemma SelectedAnswered(selectors: seq<Selector>, names: VpcNames, i: Instance, s: Selector)
    requires (forall s :: s in selectors ==> Admitted(s) && !SelectsAll(s) && !Open(s)) && i.vpc != ""
    requires forall s, v :: s in selectors && Shadow(s) && Target(s, names) == Some(v) && v != "" ==>
               exists c :: c in selectors && Covers(c, names, v)
    requires s in selectors && SelectorMatches(s, names, i)
    ensures exists c :: c in selectors && Effective(c, names, i)
  {
    hide Effective, SelectorMatches, Admitted, Shadow, Open, Covers, Target, SelectsAll;
    if Shadow(s) {
      ShadowMatches(s, names, i);
      var c :| c in selectors && Covers(c, names, i.vpc);
      CoversMatches(c, names, i);
    } else {
      EffectiveMeans(s, names, i);
    }
  }

  /** A machine with no id and no name passes a filter only if the filter is about its whole VPC. */
  lemma NamelessEffective(s: Selector, names: VpcNames, i: Instance)
    requires i.id == "" && i.name == None && Effective(s, names, i)
    ensures Covers(s, names, i.vpc)
  {
    if !WholeVpc(s) && !NamedVpc(s) {
      assert Blank("");
      var m :| m in s.vms && EntityMatches(m, i) && (Specific(s) || IdOnly(m) || NameOnly(m));
      assert BlankMatch(m);
    }
  }

  /** A machine in a VPC nobody has heard of. */
  lemma Stranger(selectors: seq<Selector>, names: VpcNames) returns (i: Instance)
    ensures i.id == "" && i.name == None && i.vpc != "" && i.state in VALID_STATES
    ensures forall s :: s in selectors ==> Target(s, names) != Some(i.vpc)
  {
    var vpc := FreshText((set s | s in selectors :: VpcId(s)) + names.Values);
    forall s | s in selectors ensures Target(s, names) != Some(vpc) {
      assert VpcId(s) in set s | s in selectors :: VpcId(s);
      if VpcName(s) in names {
        assert names[VpcName(s)] in names.Values;
      }
    }
    i := Instance("", None, vpc, 16);
  }

  /** A machine with no id and no name, in a VPC no selector covers, is not found once there is any filter. */
  lemma Unanswered(selectors: seq<Selector>, names: VpcNames, i: Instance)
    requires forall s :: s in selectors ==> !SelectsAll(s) && !Covers(s, names, i.vpc)
    requires (exists s :: s in selectors && Contributes(s)) && i.id == "" && i.name == None
    ensures !Answered(selectors, names, i)
  {
    hide Contributes, Effective, Covers, SelectsAll;
    forall s | s in selectors ensures !Effective(s, names, i) {
      if Effective(s, names, i) {
        NamelessEffective(s, names, i);
      }
    }
  }

  lemma Unfaithful(selectors: seq<Selector>, names: VpcNames) returns (i: Instance)
    requires selectors != [] && (forall s :: s in selectors ==> Admitted(s)) && !Faithful(selectors, names)
    ensures i.vpc != "" && Answered(selectors, names, i) != Selected(selectors, names, i)
  {
    i := Stranger(selectors, names);
    if forall s :: s in selectors ==> !Contributes(s) {
      assert forall s :: s in selectors ==> !SelectorMatches(s, names, i);
    } else if s :| s in selectors && Open(s) {
      assert SelectorMatches(s, names, i) by {
        var m :| m in s.vms && BlankMatch(m);
        assert EntityMatches(m, i);
      }
      assert forall c :: c in selectors ==> !Covers(c, names, i.vpc);
      Unanswered(selectors, names, i);
    } else {
      var s, v :| s in selectors && Shadow(s) && Target(s, names) == Some(v) && v != "" &&
                  !exists c :: c in selectors && Covers(c, names, v);
      i := Instance("", None, v, 16);
      ShadowMatches(s, names, i);
      Unanswered(selectors, names, i);
    }
  }

  /**
   For every admitted list: the queries find what it selects exactly if some selector asks for everything; or no filter
   is built and some selector has no VPC; or some filter is built, no selector without VPC has a blank machine
   criterion, and every known VPC with nothing but blank machine criteria is passed as a whole by another filter.
   */
  lemma FaithfulExact(selectors: seq<Selector>, names: VpcNames)
    requires selectors != [] && forall s :: s in selectors ==> Admitted(s)
    ensures (forall i: Instance :: i.vpc != "" ==>
              (Answered(selectors, names, i) <==> Selected(selectors, names, i))) <==>
            Faithful(selectors, names)
  {
    hide Answered, Selected, Faithful, Admitted;
    if Faithful(selectors, names) {
      forall i: Instance | i.vpc != "" ensures Answered(selectors, names, i) <==> Selected(selectors, names, i) {
        FaithfulAt(selectors, names, i);
      }
    } else {
      var i := Unfaithful(selectors, names);
    }
  }

  /** A list whose filters miss what its first selector selects: everything. */
  lemma BlankMissed(names: VpcNames)
    ensures var selectors := [Selector(None, [Match("", "")]), Selector(Some(Match("v", "")), [])];
            (forall s :: s in selectors ==> Admitted(s)) && !Faithful(selectors, names)
  {
    var a, b := Selector(None, [Match("", "")]), Selector(Some(Match("v", "")), []);
    assert 'v' in "v" && !IsSpace('v');
    assert WholeVpc(b) && Contributes(b);
    assert BlankMatch(Match("", "")) && Open(a);
    assert a in [a, b] && b in [a, b];
  }
}
