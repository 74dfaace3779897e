/** Antrea's internal NetworkPolicy objects, as the controller receives them. */
module PolicyTypes {

  datatype Option<+T> = None | Some(value: T)

  /** An IPv4 prefix as written: `ip` need not have its host bits cleared. */
  datatype Prefix = Prefix(ip: nat, len: nat)

  datatype Direction = In | Out

  datatype Protocol = TCP | UDP | SCTP | OtherProtocol(name: string)

  datatype Service = Service(protocol: Option<Protocol>, port: Option<nat>)

  datatype Peer = Peer(ipBlocks: seq<Prefix>, addressGroups: seq<string>)

  /** `services == None` is Go's nil slice: the rule is not restricted by service. */
  datatype PolicyRule = PolicyRule(direction: Direction, from: Peer, to: Peer, services: Option<seq<Service>>)
  {
    /** The peer the rule compiler looks at. */
    function Remote(): Peer {
      if direction == In then from else to
    }

    /** Every address group the rule names, on either side. */
    function AddressGroups(): set<string> {
      (set g | g in from.addressGroups) + (set g | g in to.addressGroups)
    }
  }

  /** The address groups a list of rules names: the key set of the policy index by address group. */
  function NamedAddressGroups(rules: seq<PolicyRule>): set<string> {
    set r, g | r in rules && g in r.AddressGroups() :: g
  }

  /** The address groups whose members end up in compiled rules. */
  function RemoteAddressGroups(rules: seq<PolicyRule>): set<string> {
    set r, g | r in rules && g in r.Remote().addressGroups :: g
  }

  /** All occurrences of address groups in a list of rules. */
  function AddressGroupList(rules: seq<PolicyRule>): seq<string> {
    if rules == [] then []
    else
      var last := rules[|rules| - 1];
      AddressGroupList(rules[..|rules| - 1]) + last.to.addressGroups + last.from.addressGroups
  }

  lemma {:induction false} ListedIsNamed(rules: seq<PolicyRule>)
    ensures NamedAddressGroups(rules) == set g | g in AddressGroupList(rules)
  {
    if rules != [] {
      var front, last := rules[..|rules| - 1], rules[|rules| - 1];
      assert rules == front + [last];
      ListedIsNamed(front);
      assert NamedAddressGroups(rules) == NamedAddressGroups(front) + last.AddressGroups();
    }
  }

  /** The counting map after all of a and all of b. */
  ghost predicate Tally(temp: map<string, int>, a: seq<string>, b: seq<string>) {
    && (forall s :: s in temp <==> s in a || s in b)
    && forall s :: s in temp ==> temp[s] == multiset(a)[s] as int - multiset(b)[s] as int
  }

  lemma NoTally()
    ensures Tally(map[], [], [])
  {
  }

  lemma TallyUp(temp: map<string, int>, a: seq<string>, s: string)
    requires Tally(temp, a, [])
    ensures Tally(temp[s := (if s in temp then temp[s] else 0) + 1], a + [s], [])
  {
  }

  lemma TallyDown(temp: map<string, int>, a: seq<string>, b: seq<string>, s: string)
    requires Tally(temp, a, b)
    ensures Tally(temp[s := (if s in temp then temp[s] else 0) - 1], a, b + [s])
  {
  }

  method CountGroups(a: seq<string>, b: seq<string>) returns (temp: map<string, int>)
    ensures Tally(temp, a, b)
  {
    hide Tally;
    temp := map[];
    NoTally();
    for i := 0 to |a|
      invariant Tally(temp, a[..i], [])
    {
      assert a[..i + 1] == a[..i] + [a[i]];
      TallyUp(temp, a[..i], a[i]);
      temp := temp[a[i] := (if a[i] in temp then temp[a[i]] else 0) + 1];
    }
    assert a[..|a|] == a;
    for i := 0 to |b|
      invariant Tally(temp, a, b[..i])
    {
      assert b[..i + 1] == b[..i] + [b[i]];
      TallyDown(temp, a, b[..i], b[i]);
      temp := temp[b[i] := (if b[i] in temp then temp[b[i]] else 0) - 1];
    }
    assert b[..|b|] == b;
  }

  /** diffAppliedToGrp and diffAddressGrp: which groups lost occurrences from a to b, and which gained some. */
  method DiffGroups(a: seq<string>, b: seq<string>) returns (added: seq<string>, removed: seq<string>)
    ensures forall s :: s in removed <==> multiset(a)[s] > multiset(b)[s]
    ensures forall s :: s in added <==> multiset(a)[s] < multiset(b)[s]
  {
    var temp := CountGroups(a, b);
    added, removed := [], [];
    var todo := temp.Keys;
    while todo != {}
      invariant todo <= temp.Keys
      invariant forall s :: s in removed <==> s in temp.Keys - todo && temp[s] > 0
      invariant forall s :: s in added <==> s in temp.Keys - todo && temp[s] < 0
      decreases todo
    {
      var s :| s in todo;
      if temp[s] > 0 {
        removed := removed + [s];
      } else if temp[s] < 0 {
        added := added + [s];
      }
      todo := todo - {s};
    }
  }
}
