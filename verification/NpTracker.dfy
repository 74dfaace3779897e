/** Which policies apply to a cloud resource, and how far they have been realized. */
module NpTracker {
  import opened Basics
  import opened PolicyTypes
  import opened GroupMachine
  import opened Indexers
  import opened Keys

  const APPLIED := "applied"
  const IN_PROGRESS := "in-progress"
  const INTERNAL_ERROR := "internal error"

  /** The text of an operation's error; failures carry the cloud's own words. */
  function StatusText(status: Status, words: string): string {
    if status == InProgress then IN_PROGRESS else words
  }

  /** The reconciler, and the cloud's words for failures, by object. */
  datatype Context = Context(state: State, words: map<Ref, string>) {
    function Words(g: Ref): string {
      if g in words then words[g] else ""
    }

    ghost predicate Linked() {
      forall id :: id in state.index ==> state.index[id] in state.groups
    }
  }

  // ---------------------------------------------------------------- what "applied" stands for

  /** Every address group the policy names is known, and all its security groups are ready without error. */
  ghost predicate GroupsFine(s: State, p: Policy) {
    forall g :: g in NamedAddressGroups(p.rules) ==> GroupFine(s, GroupName(Addr, g))
  }

  ghost predicate GroupFine(s: State, g: GroupName) {
    && Members(s.index, g) != {}
    && forall id :: id in Members(s.index, g) ==>
         s.index[id] in s.groups && s.groups[s.index[id]].status == Fine && IsReady(s.groups[s.index[id]])
  }

  /** The appliedTo group has been created and has acknowledged rules and no error. */
  ghost predicate RulesFine(s: State, id: Id) {
    && id in s.index && s.index[id] in s.groups
    && s.groups[s.index[id]].status == Fine && s.groups[s.index[id]].state == Created && s.groups[s.index[id]].hasRules
  }

  ghost predicate Applied(c: Context, p: string, id: Id) {
    && p in c.state.policies && c.state.policies[p].compiled && GroupsFine(c.state, c.state.policies[p])
    && RulesFine(c.state, id)
  }

  // ---------------------------------------------------------------- status of one policy

  /** getStatus of an address group: None is no error. */
  function AddrStatus(o: SecurityGroup, words: string): Option<string> {
    if o.status != Fine then Some(StatusText(o.status, words))
    else if o.state == Created || o.id.IpBlocks() then None
    else Some(IN_PROGRESS)
  }

  /** getStatus of an appliedTo group. */
  function AppliedToStatus(o: SecurityGroup, words: string): Option<string> {
    if o.status != Fine then Some(StatusText(o.status, words))
    else if o.state == Created && o.hasRules then None
    else Some(IN_PROGRESS)
  }

  /** Texts that name a group are not the text of success. */
  lemma NamedTextDiffers(id: Id, rest: string)
    ensures KeyString(id) + "=" + rest != APPLIED
  {
    var text := KeyString(id) + "=" + rest;
    assert text[|id.name|] == '/';
  }

  method GroupStatus(c: Context, g: GroupName) returns (error: Option<string>)
    requires c.Linked()
    ensures error.None? <==> GroupFine(c.state, g)
    ensures error != Some(APPLIED)
  {
    var index, groups := c.state.index, c.state.groups;
    var todo := Members(index, g);
    if todo == {} {
      return Some(INTERNAL_ERROR);
    }
    while todo != {}
      invariant todo <= Members(index, g)
      invariant forall id :: id in Members(index, g) - todo ==>
                  groups[index[id]].status == Fine && IsReady(groups[index[id]])
      decreases todo
    {
      var id :| id in todo;
      var status := AddrStatus(groups[index[id]], c.Words(index[id]));
      if status.Some? {
        NamedTextDiffers(id, status.value);
        return Some(KeyString(id) + "=" + status.value);
      }
      todo := todo - {id};
    }
    return None;
  }

  /** getStatus of a policy, which goes through computeRulesReady(true). */
  method PolicyStatus(c: Context, p: string) returns (error: Option<string>)
    requires c.Linked() && p in c.state.policies
    ensures error.None? <==> c.state.policies[p].compiled && GroupsFine(c.state, c.state.policies[p])
    ensures error != Some(APPLIED)
  {
    if !c.state.policies[p].compiled {
      return Some(IN_PROGRESS);
    }
    var names := NamedAddressGroups(c.state.policies[p].rules);
    var todo := names;
    while todo != {}
      invariant todo <= names
      invariant forall g :: g in names - todo ==> GroupFine(c.state, GroupName(Addr, g))
      decreases todo
    {
      var g :| g in todo;
      error := GroupStatus(c, GroupName(Addr, g));
      if error.Some? {
        return;
      }
      todo := todo - {g};
    }
    return None;
  }

  /** The status text of a policy on a resource that belongs to an appliedTo group. */
  method Verdict(c: Context, p: string, id: Id) returns (text: string)
    requires c.Linked() && p in c.state.policies
    ensures text == APPLIED <==> Applied(c, p, id)
  {
    var error := PolicyStatus(c, p);
    if error.Some? {
      return error.value;
    }
    if id !in c.state.index {
      NamedTextDiffers(id, "Internal Error ");
      return KeyString(id) + "=" + "Internal Error ";
    }
    var g := c.state.index[id];
    var status := AppliedToStatus(c.state.groups[g], c.Words(g));
    if status.Some? {
      NamedTextDiffers(id, status.value);
      return KeyString(id) + "=" + status.value;
    }
    return APPLIED;
  }

  // ---------------------------------------------------------------- trackers

  /** A group is either current or former. */
  ghost predicate Disjoint(c: Content) {
    c.TrackerContent? && c.current.Keys !! c.previous.Keys
  }

  /** The tracker has nothing left to track. */
  predicate Empty(c: Content) {
    c.TrackerContent? && c.current == map[] && c.previous == map[]
  }

  /** update: the resource joins or leaves an appliedTo group. */
  method UpdateTracker(trackers: Indexer, o: Item, id: Id, sg: Ref, isDelete: bool)
    requires trackers.Agrees() && o.key in trackers.items && trackers.items[o.key] == o && Disjoint(o.content)
    modifies trackers, o
    ensures trackers.Agrees() && trackers.items == old(trackers.items) && Disjoint(o.content)
    ensures isDelete ==> id !in o.content.current
    ensures isDelete && id in old(o.content.current) ==> id in o.content.previous && o.content.previous[id] == sg
    ensures !isDelete ==> id in o.content.current && id !in o.content.previous
    ensures if (id in old(o.content.current)) == isDelete then o.content.dirty == Some(true)
              else o.content == old(o.content)
    ensures forall x :: x in o.content.previous ==>
              o.content.previous[x] == sg || (x in old(o.content.previous) &&
                  o.content.previous[x] == old(o.content.previous)[x])
    ensures o.content.current.Keys + o.content.previous.Keys +
              {id} == old(o.content.current.Keys + o.content.previous.Keys + {id})
  {
    var c := o.content;
    if (id in c.current) != isDelete {
      return;
    }
    if isDelete {
      trackers.Change(o, TrackerContent(c.current - {id}, c.previous[id := sg], Some(true)));
    } else {
      trackers.Change(o, TrackerContent(c.current[id := sg], c.previous - {id}, Some(true)));
    }
  }

  // ---------------------------------------------------------------- the report

  /** A line of the report: a policy, or a former group no policy names any more. */
  datatype Line = OfPolicy(policy: string) | Dangling(id: Id)

  /** Former groups with an error speak for the policies naming them. */
  ghost predicate Overridden(c: Context, previous: map<Id, Ref>, p: string) {
    exists id :: id in previous && previous[id] in c.state.groups && c.state.groups[previous[id]].status != Fine &&
        p in Namers(c.state.policies, id.Group())
  }

  /** Former groups whose last operation has an error. */
  function Objecting(c: Context, previous: map<Id, Ref>): map<Id, Ref> {
    map id | id in previous && previous[id] in c.state.groups &&
        c.state.groups[previous[id]].status != Fine :: previous[id]
  }

  /** The policies of the resource's groups, each with one of its groups; which one is up to map iteration. */
  method RelatedPolicies(c: Context, current: map<Id, Ref>) returns (chosen: map<string, Id>)
    ensures forall p :: p in chosen <==> exists id :: id in current && p in Namers(c.state.policies, id.Group())
    ensures forall p :: p in chosen ==> chosen[p] in current && p in Namers(c.state.policies, chosen[p].Group())
  {
    chosen := map[];
    var todo := current.Keys;
    while todo != {}
      invariant todo <= current.Keys
      invariant forall p :: p in chosen <==> exists id ::
                id in current.Keys - todo && p in Namers(c.state.policies, id.Group())
      invariant forall p :: p in chosen ==> chosen[p] in current && p in Namers(c.state.policies, chosen[p].Group())
      decreases todo
    {
      var id :| id in todo;
      chosen := chosen + map p | p in Namers(c.state.policies, id.Group()) :: id;
      todo := todo - {id};
    }
  }

  method ReportPolicies(c: Context, chosen: map<string, Id>) returns (report: map<Line, string>)
    requires c.Linked() && forall p :: p in chosen ==> p in c.state.policies
    ensures report.Keys == set p | p in chosen :: OfPolicy(p)
    ensures forall p :: p in chosen ==> (report[OfPolicy(p)] == APPLIED <==> Applied(c, p, chosen[p]))
  {
    report := map[];
    var todo := chosen.Keys;
    while todo != {}
      invariant todo <= chosen.Keys
      invariant report.Keys == set p | p in chosen.Keys - todo :: OfPolicy(p)
      invariant forall p :: p in chosen.Keys - todo ==> (report[OfPolicy(p)] == APPLIED <==> Applied(c, p, chosen[p]))
      decreases todo
    {
      var p :| p in todo;
      var text := Verdict(c, p, chosen[p]);
      report := report[OfPolicy(p) := text];
      todo := todo - {p};
    }
  }

  lemma DeletingDiffers(rest: string)
    ensures "Deleting/Detaching " + rest != APPLIED
  {
    assert ("Deleting/Detaching " + rest)[0] == 'D';
  }

  /** The report speaks of failure for the policies in `failed`, and is otherwise the old one. */
  ghost predicate Amended(report: map<Line, string>, report0: map<Line, string>, failed: iset<string>) {
    forall p ::
      if p in failed then OfPolicy(p) in report && report[OfPolicy(p)] != APPLIED
      else
        && (OfPolicy(p) in report <==> OfPolicy(p) in report0)
        && (OfPolicy(p) in report ==> report[OfPolicy(p)] == report0[OfPolicy(p)])
  }

  ghost predicate Tells(c: Context, report: map<Line, string>, ids: set<Id>) {
    forall id :: id in ids && Namers(c.state.policies, id.Group()) == {} ==>
        Dangling(id) in report && report[Dangling(id)] != APPLIED
  }

  /** The lines of one former group with an error. */
  method ReportFormer(c: Context, report0: map<Line, string>, id: Id, status: Status, words: string,
                      ghost told: set<Id>)
    returns (report: map<Line, string>)
    requires Tells(c, report0, told)
    ensures Amended(report, report0, iset p | p in Namers(c.state.policies, id.Group()))
    ensures Tells(c, report, told + {id})
  {
    hide KeyString, StatusText, Namers;
    var namers := Namers(c.state.policies, id.Group());
    var rest := KeyString(id) + ": " + StatusText(status, words);
    DeletingDiffers(rest);
    var message := "Deleting/Detaching " + rest;
    report := report0 + map p | p in namers :: OfPolicy(p) := message;
    if namers == {} {
      report := report[Dangling(id) := message];
    }
  }

  ghost function Failing(c: Context, previous: map<Id, Ref>): iset<string> {
    iset p | Overridden(c, previous, p)
  }

  lemma AmendedTrans(r: map<Line, string>, s: map<Line, string>, t: map<Line, string>, a: iset<string>, b: iset<string>)
    requires Amended(s, r, a) && Amended(t, s, b)
    ensures Amended(t, r, a + b)
  {
  }

  /** Lines for former groups with an error; groups without error are dropped. */
  method ReportPrevious(c: Context, report0: map<Line, string>, previous: map<Id, Ref>)
    returns (report: map<Line, string>, kept: map<Id, Ref>)
    requires forall id :: id in previous ==> previous[id] in c.state.groups
    ensures kept == Objecting(c, previous)
    ensures Amended(report, report0, Failing(c, previous)) && Tells(c, report, kept.Keys)
  {
    hide Amended, Overridden, Tells, KeyString;
    report, kept := report0, previous;
    NothingFails(c, report0);
    var todo := previous.Keys;
    assert previous - todo == map[] && kept.Keys - todo == {};
    while todo != {}
      invariant todo <= previous.Keys
      invariant kept == map id | id in previous && (id in todo || c.state.groups[previous[id]].status != Fine) ::
                  previous[id]
      invariant Amended(report, report0, Failing(c, previous - todo)) && Tells(c, report, kept.Keys - todo)
      decreases todo
    {
      var id :| id in todo;
      var o := c.state.groups[previous[id]];
      FailingNext(c, previous, todo, id);
      ghost var before, told := report, kept.Keys - todo;
      if o.status == Fine {
        kept := kept - {id};
        assert kept.Keys - (todo - {id}) == told;
        assert Failing(c, previous - (todo - {id})) == Failing(c, previous - todo);
      } else {
        report := ReportFormer(c, report, id, o.status, c.Words(previous[id]), told);
        assert kept.Keys - (todo - {id}) == told + {id};
        AmendedTrans(report0, before, report, Failing(c, previous - todo),
            iset p | p in Namers(c.state.policies, id.Group()));
      }
      todo := todo - {id};
    }
    assert previous - {} == previous && kept.Keys - {} == kept.Keys;
  }

  lemma NothingFails(c: Context, report: map<Line, string>)
    ensures Amended(report, report, Failing(c, map[])) && Tells(c, report, {})
  {
  }

  lemma FailingNext(c: Context, previous: map<Id, Ref>, todo: set<Id>, id: Id)
    requires id in todo && todo <= previous.Keys && previous[id] in c.state.groups
    ensures Failing(c, previous - (todo - {id})) ==
            Failing(c, previous - todo) + if c.state.groups[previous[id]].status == Fine then iset{}
                else iset p | p in Namers(c.state.policies, id.Group())
  {
    hide Overridden;
    forall p ensures Overridden(c, previous - (todo - {id}), p) <==>
                     Overridden(c, previous - todo, p) ||
                         (c.state.groups[previous[id]].status != Fine && p in Namers(c.state.policies, id.Group())) {
      OverriddenNext(c, previous, todo, id, p);
    }
  }

  lemma OverriddenNext(c: Context, previous: map<Id, Ref>, todo: set<Id>, id: Id, p: string)
    requires id in todo && todo <= previous.Keys && previous[id] in c.state.groups
    ensures Overridden(c, previous - (todo - {id}), p) <==>
            Overridden(c, previous - todo, p) ||
                (c.state.groups[previous[id]].status != Fine && p in Namers(c.state.policies, id.Group()))
  {
    var m, n := previous - todo, previous - (todo - {id});
    assert id in n && n[id] == previous[id];
    forall x | x in m ensures x in n && n[x] == m[x] {}
  }

  /**
   computeNPStatus: the report for one resource. A policy is reported as applied exactly if the appliedTo group
   chosen for it carries its rules, all address groups it names are fine, and no former group objects.
   */
  method ComputeNpStatus(c: Context, trackers: Indexer, o: Item)
    returns (report: map<Line, string>, ghost chosen: map<string, Id>)
    requires c.Linked() && trackers.Agrees() && o.key in trackers.items && trackers.items[o.key] == o
    requires Disjoint(o.content)
    requires forall id :: id in o.content.previous ==> o.content.previous[id] in c.state.groups
    modifies trackers, o
    ensures forall p :: p in chosen <==> exists id ::
              id in old(o.content.current) && p in Namers(c.state.policies, id.Group())
    ensures forall p :: p in chosen ==>
              chosen[p] in old(o.content.current) && p in Namers(c.state.policies, chosen[p].Group())
    ensures forall p :: OfPolicy(p) in report && report[OfPolicy(p)] == APPLIED <==>
              p in chosen && Applied(c, p, chosen[p]) && !Overridden(c, old(o.content.previous), p)
    ensures forall p :: p in chosen ==> OfPolicy(p) in report
    ensures trackers.Agrees() && trackers.items == old(trackers.items) && Disjoint(o.content)
    ensures o.content.current == old(o.content.current)
    ensures o.content.previous == Objecting(c, old(o.content.previous)) && o.content.dirty == old(o.content.dirty)
  {
    hide Applied;
    var previous := o.content.previous;
    var related := RelatedPolicies(c, o.content.current);
    chosen := related;
    report := ReportPolicies(c, related);
    var kept;
    ghost var before := report;
    report, kept := ReportPrevious(c, report, previous);
    ReportExact(c, chosen, before, report, previous);
    hide Amended, Tells, Failing, Overridden;
    if |kept| != |previous| {
      trackers.Change(o, TrackerContent(o.content.current, kept, o.content.dirty));
    } else {
      SameSize(kept, previous);
    }
  }

  lemma ReportExact(c: Context, chosen: map<string, Id>, before: map<Line, string>, report: map<Line, string>,
                    previous: map<Id, Ref>)
    requires before.Keys == set p | p in chosen :: OfPolicy(p)
    requires forall p :: p in chosen ==> (before[OfPolicy(p)] == APPLIED <==> Applied(c, p, chosen[p]))
    requires Amended(report, before, Failing(c, previous))
    ensures forall p :: OfPolicy(p) in report && report[OfPolicy(p)] == APPLIED <==>
              p in chosen && Applied(c, p, chosen[p]) && !Overridden(c, previous, p)
    ensures forall p :: p in chosen ==> OfPolicy(p) in report
  {
    hide Applied, Overridden;
  }

  lemma SameSize<K, V>(m: map<K, V>, n: map<K, V>)
    requires |m| == |n| && forall k :: k in m ==> k in n && m[k] == n[k]
    ensures m == n
  {
    SubsetSize(m.Keys, n.Keys);
  }

  /** A policy reported as applied really is, whatever the map order. */
  lemma AppliedMeans(c: Context, p: string, id: Id)
    requires Applied(c, p, id)
    ensures forall g, x ::
              g in NamedAddressGroups(c.state.policies[p].rules) && x in Members(c.state.index, GroupName(Addr, g)) ==>
              c.state.index[x] in c.state.groups && c.state.groups[c.state.index[x]].status == Fine
    ensures AllReady(c.state.index, c.state.groups, c.state.policies[p].rules)
  {
    forall g | g in NamedAddressGroups(c.state.policies[p].rules)
      ensures GroupReady(c.state.index, c.state.groups, GroupName(Addr, g))
    {
      assert GroupFine(c.state, GroupName(Addr, g));
    }
  }

  // ---------------------------------------------------------------- the life of trackers

  /**
   Every tracker has disjoint present and former groups, former ones that still are objects, and a dirty flag; the
   index is right.
   */
  ghost predicate Sound(trackers: Indexer, refs: set<Ref>)
    reads trackers, trackers.items.Values
  {
    trackers.Agrees() && forall k :: k in trackers.items ==> Tracks(trackers.items[k].content, refs)
  }

  ghost predicate Tracks(c: Content, refs: set<Ref>) {
    Disjoint(c) && c.dirty.Some? && forall id :: id in c.previous ==> c.previous[id] in refs
  }

  /** A resource joins a group; its tracker is created if there is none. */
  method Join(trackers: Indexer, key: string, id: Id, sg: Ref, ghost refs: set<Ref>)
    requires Sound(trackers, refs) && sg in refs
    modifies trackers, trackers.items.Values
    ensures Sound(trackers, refs) && fresh(trackers.items.Values - old(trackers.items.Values))
    ensures trackers.items.Keys == old(trackers.items).Keys + {key}
    ensures id in trackers.items[key].content.current && id !in trackers.items[key].content.previous
    ensures forall k :: k in old(trackers.items) && k != key ==>
              trackers.items[k] == old(trackers.items)[k] && trackers.items[k].content == old(trackers.items[k].content)
  {
    if key !in trackers.items {
      var o := new Item(key, TrackerContent(map[], map[], None));
      trackers.Add(o);
    }
    UpdateTracker(trackers, trackers.items[key], id, sg, false);
  }

  /** A resource leaves a group; without a tracker there is nothing to do. */
  method Leave(trackers: Indexer, key: string, id: Id, sg: Ref, ghost refs: set<Ref>)
    requires Sound(trackers, refs) && sg in refs
    modifies trackers, trackers.items.Values
    ensures Sound(trackers, refs) && trackers.items == old(trackers.items)
    ensures key in trackers.items ==> id !in trackers.items[key].content.current
    ensures forall k :: k in old(trackers.items) && k != key ==>
              trackers.items[k].content == old(trackers.items[k].content)
  {
    if key in trackers.items {
      UpdateTracker(trackers, trackers.items[key], id, sg, true);
    }
  }

  /** The flag of a stored tracker changes in place. */
  method SetDirty(trackers: Indexer, o: Item, dirty: bool, ghost refs: set<Ref>)
    requires Sound(trackers, refs) && o.key in trackers.items && trackers.items[o.key] == o
    modifies o
    ensures Sound(trackers, refs) && o.content == old(o.content).(dirty := Some(dirty))
  {
    trackers.ChangeInPlace(o, TrackerContent(o.content.current, o.content.previous, Some(dirty)));
  }

  /** Every tracker of a group's members is marked. */
  method MarkGroup(trackers: Indexer, id: Id, ghost refs: set<Ref>)
    requires Sound(trackers, refs)
    modifies trackers.items.Values
    ensures Sound(trackers, refs)
    ensures forall k :: k in trackers.items && BySecurityGroup(id) in Values(old(trackers.items[k].content)) ==>
              trackers.items[k].content.dirty == Some(true)
    ensures forall k :: k in trackers.items ==>
              trackers.items[k].content.current == old(trackers.items[k].content).current
    ensures forall k :: k in trackers.items ==>
              trackers.items[k].content.previous == old(trackers.items[k].content).previous
  {
    var found := trackers.ByIndex(BySecurityGroup(id));
    var todo := found;
    while todo != {}
      invariant Sound(trackers, refs) && todo <= found
      invariant forall o :: o in found - todo ==> o.content.dirty == Some(true)
      invariant forall k :: k in trackers.items ==>
                  trackers.items[k].content.current == old(trackers.items[k].content).current
      invariant forall k :: k in trackers.items ==>
                  trackers.items[k].content.previous == old(trackers.items[k].content).previous
      decreases todo
    {
      var o :| o in todo;
      SetDirty(trackers, o, true, refs);
      todo := todo - {o};
    }
    forall k | k in trackers.items && BySecurityGroup(id) in Values(old(trackers.items[k].content))
      ensures trackers.items[k].content.dirty == Some(true)
    {
      assert trackers.items[k] in found;
    }
  }

  /** One tracker is processed, unless it is clean or its status cannot be stored. */
  method ProcessTracker(c: Context, trackers: Indexer, key: string, fails: bool, ghost refs: set<Ref>)
    requires c.Linked() && Sound(trackers, refs) && refs <= c.state.groups.Keys && key in trackers.items
    modifies trackers, trackers.items.Values
    ensures Sound(trackers, refs) && forall k :: k in trackers.items ==>
              k in old(trackers.items) && trackers.items[k] == old(trackers.items)[k]
    ensures forall k :: k in old(trackers.items) && k != key ==>
              k in trackers.items && trackers.items[k].content == old(trackers.items[k].content)
    ensures Processed(c, old(trackers.items[key].content),
              if key in trackers.items then Some(trackers.items[key].content) else None, fails)
  {
    var o := trackers.items[key];
    if o.content.dirty == Some(false) {
      return;
    }
    var report;
    ghost var chosen;
    report, chosen := ComputeNpStatus(c, trackers, o);
    if fails {
      return;
    }
    if Empty(o.content) {
      trackers.Delete(o);
    } else {
      SetDirty(trackers, o, false, refs);
    }
  }

  /**
   A clean tracker stays as it is; a dirty one drops former groups without error, and then is clean, or gone if
   nothing is left.
   */
  ghost predicate Processed(c: Context, was: Content, now: Option<Content>, fails: bool) {
    was.TrackerContent? &&
    var rest := was.(previous := Objecting(c, was.previous));
    if was.dirty == Some(false) then now == Some(was)
    else if fails then now == Some(rest)
    else if Empty(rest) then now == None
    else now == Some(rest.(dirty := Some(false)))
  }

  /** processCloudResourceNPTrackers; the status of the resources in `failing` cannot be stored. */
  method ProcessTrackers(c: Context, trackers: Indexer, failing: set<string>, ghost refs: set<Ref>)
    requires c.Linked() && Sound(trackers, refs) && refs <= c.state.groups.Keys
    modifies trackers, trackers.items.Values
    ensures Sound(trackers, refs) && forall k :: k in trackers.items ==>
              k in old(trackers.items) && trackers.items[k] == old(trackers.items)[k]
    ensures trackers.items.Values <= old(trackers.items.Values)
    ensures forall k :: k in old(trackers.items) ==>
              Processed(c, old(trackers.items[k].content), if k in trackers.items then Some(trackers.items[k].content)
                  else None, k in failing)
  {
    hide Processed, Tracks;
    var todo := trackers.items.Keys;
    while todo != {}
      invariant Sound(trackers, refs) && todo <= trackers.items.Keys
      invariant forall k :: k in trackers.items ==>
                  k in old(trackers.items) && trackers.items[k] == old(trackers.items)[k]
      invariant forall k :: k in todo ==> trackers.items[k].content == old(trackers.items[k].content)
      invariant forall k :: k in old(trackers.items) && k !in todo ==>
                  Processed(c, old(trackers.items[k].content),
                      if k in trackers.items then Some(trackers.items[k].content) else None, k in failing)
      decreases todo
    {
      var key :| key in todo;
      ProcessTracker(c, trackers, key, key in failing, refs);
      todo := todo - {key};
    }
    forall o | o in trackers.items.Values ensures o in old(trackers.items.Values) {
      var k :| k in trackers.items && trackers.items[k] == o;
      assert old(trackers.items)[k] == o;
    }
  }

  /** What happens to trackers. */
  datatype TrackerOp =
    | Joins(key: string, id: Id, sg: Ref)
    | Leaves(key: string, id: Id, sg: Ref)
    | Marks(id: Id)
    | Processes(c: Context, failing: set<string>)

  /** The group objects trackers have been told of. */
  function Told(ops: seq<TrackerOp>): set<Ref> {
    set op | op in ops && (op.Joins? || op.Leaves?) :: op.sg
  }

  /** Group objects never go away: wherever trackers are processed, those they have been told of are there. */
  ghost predicate Consistent(ops: seq<TrackerOp>) {
    forall i :: 0 <= i < |ops| && ops[i].Processes? ==>
        ops[i].c.Linked() && Told(ops[..i]) <= ops[i].c.state.groups.Keys
  }

  lemma SoundWider(trackers: Indexer, refs: set<Ref>, more: set<Ref>)
    requires Sound(trackers, refs) && refs <= more
    ensures Sound(trackers, more)
  {
  }

  /** Any history of the trackers, from none: the index is right, and every tracker is sound, after every operation. */
  method RunTrackers(ops: seq<TrackerOp>) returns (trackers: Indexer)
    requires Consistent(ops)
    ensures fresh(trackers) && fresh(trackers.items.Values) && Sound(trackers, Told(ops))
  {
    hide Sound, Processed;
    trackers := new Indexer();
    NoTrackers(trackers);
    assert Told(ops[..0]) == {};
    for i := 0 to |ops|
      invariant fresh(trackers) && fresh(trackers.items.Values) && Sound(trackers, Told(ops[..i]))
    {
      ghost var refs := Told(ops[..i + 1]);
      assert ops[..i + 1] == ops[..i] + [ops[i]];
      assert ops[i].Joins? || ops[i].Leaves? ==> ops[i] in ops[..i + 1];
      if ops[i].Processes? {
        ProcessTrackers(ops[i].c, trackers, ops[i].failing, Told(ops[..i]));
      }
      SoundWider(trackers, Told(ops[..i]), refs);
      match ops[i]
      case Joins(key, id, sg) => Join(trackers, key, id, sg, refs);
      case Leaves(key, id, sg) => Leave(trackers, key, id, sg, refs);
      case Marks(id) => MarkGroup(trackers, id, refs);
      case Processes(_, _) =>
    }
    assert ops[..|ops|] == ops;
  }

  lemma NoTrackers(trackers: Indexer)
    requires trackers.Agrees() && trackers.items == map[]
    ensures Sound(trackers, {})
  {
  }
}
