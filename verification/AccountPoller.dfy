/** The account poller: it makes the VirtualMachine objects of an account match what the cloud reports. */
module AccountPoller {
  import opened Basics
  import opened GroupNames

  datatype Address = Address(kind: string, ip: string)

  datatype NetworkInterface = NetworkInterface(name: string, mac: string, addresses: seq<Address>)

  /** The fields of a status that come from the cloud. */
  datatype Status = Status(provider: string, state: string, vpc: string, tags: map<string, string>,
                           interfaces: seq<NetworkInterface>)

  /** A VirtualMachine object; `owned` by the selector the poller works for, `rest` is everything not discovered. */
  datatype VirtualMachine = VirtualMachine(owned: bool, status: Status, rest: string)

  // ---------------------------------------------------------------- comparison of statuses

  /** Keys of addresses are written kind:ip. */
  function AddressKey(a: Address): string {
    a.kind + ":" + a.ip
  }

  function AddressKeys(as_: seq<Address>): set<string> {
    set a | a in as_ :: AddressKey(a)
  }

  function ByName(nics: seq<NetworkInterface>): map<string, NetworkInterface> {
    if nics == [] then map[] else ByName(nics[..|nics| - 1])[nics[|nics| - 1].name := nics[|nics| - 1]]
  }

  ghost predicate TagsAgree(s: map<string, string>, t: map<string, string>) {
    forall k :: k in s ==> k in t && Lower(s[k]) == Lower(t[k])
  }

  ghost predicate NicAgrees(m: NetworkInterface, n: NetworkInterface) {
    Lower(m.name) == Lower(n.name) && Lower(m.mac) == Lower(n.mac) && |m.addresses| == |n.addresses| &&
        AddressKeys(m.addresses) <= AddressKeys(n.addresses)
  }

  ghost predicate NicsAgree(s: seq<NetworkInterface>, t: seq<NetworkInterface>) {
    |s| == |t| && forall k :: k in ByName(s) ==> k in ByName(t) && NicAgrees(ByName(s)[k], ByName(t)[k])
  }

  /** What the comparison computes. */
  ghost predicate Agree(s: Status, t: Status) {
    s.provider == t.provider && s.state == t.state && s.vpc == t.vpc && |s.tags| == |t.tags| &&
        TagsAgree(s.tags, t.tags) && NicsAgree(s.interfaces, t.interfaces)
  }

  method TagsSame(s: map<string, string>, t: map<string, string>) returns (same: bool)
    ensures same <==> TagsAgree(s, t)
  {
    var todo := s.Keys;
    while todo != {}
      invariant todo <= s.Keys && forall k :: k in s.Keys - todo ==> k in t && Lower(s[k]) == Lower(t[k])
      decreases todo
    {
      var k :| k in todo;
      if k !in t || Lower(s[k]) != Lower(t[k]) {
        return false;
      }
      todo := todo - {k};
    }
    return true;
  }

  method AddressMap(as_: seq<Address>) returns (keys: set<string>)
    ensures keys == AddressKeys(as_)
  {
    keys := {};
    for i := 0 to |as_|
      invariant keys == AddressKeys(as_[..i])
    {
      assert as_[..i + 1] == as_[..i] + [as_[i]];
      keys := keys + {AddressKey(as_[i])};
    }
    assert as_[..|as_|] == as_;
  }

  method AddressesSame(s: seq<Address>, t: seq<Address>) returns (same: bool)
    ensures same <==> AddressKeys(s) <= AddressKeys(t)
  {
    var sKeys := AddressMap(s);
    var tKeys := AddressMap(t);
    var todo := sKeys;
    while todo != {}
      invariant todo <= sKeys && sKeys - todo <= tKeys
      decreases todo
    {
      var k :| k in todo;
      if k !in tKeys {
        return false;
      }
      todo := todo - {k};
    }
    return true;
  }

  method NicMap(nics: seq<NetworkInterface>) returns (m: map<string, NetworkInterface>)
    ensures m == ByName(nics)
  {
    m := map[];
    for i := 0 to |nics|
      invariant m == ByName(nics[..i])
    {
      assert nics[..i + 1][..i] == nics[..i];
      m := m[nics[i].name := nics[i]];
    }
    assert nics[..|nics|] == nics;
  }

  method NicSame(m: NetworkInterface, n: NetworkInterface) returns (same: bool)
    ensures same <==> NicAgrees(m, n)
  {
    if Lower(m.name) != Lower(n.name) || Lower(m.mac) != Lower(n.mac) || |m.addresses| != |n.addresses| {
      return false;
    }
    same := AddressesSame(m.addresses, n.addresses);
  }

  method NicsSame(s: seq<NetworkInterface>, t: seq<NetworkInterface>) returns (same: bool)
    ensures same <==> NicsAgree(s, t)
  {
    if |s| != |t| {
      return false;
    }
    hide NicAgrees;
    var sMap := NicMap(s);
    var tMap := NicMap(t);
    var todo := sMap.Keys;
    while todo != {}
      invariant todo <= sMap.Keys && forall k :: k in sMap.Keys - todo ==> k in tMap && NicAgrees(sMap[k], tMap[k])
      decreases todo
    {
      var k :| k in todo;
      if k !in tMap {
        return false;
      }
      var ok := NicSame(sMap[k], tMap[k]);
      if !ok {
        return false;
      }
      todo := todo - {k};
    }
    return true;
  }

  /** areDiscoveredFieldsSameVirtualMachineStatus. */
  method StatusSame(s: Status, t: Status) returns (same: bool)
    ensures same <==> Agree(s, t)
  {
    if s.provider != t.provider || s.state != t.state || s.vpc != t.vpc || |s.tags| != |t.tags| ||
        |s.interfaces| != |t.interfaces| {
      return false;
    }
    var tags := TagsSame(s.tags, t.tags);
    if !tags {
      return false;
    }
    same := NicsSame(s.interfaces, t.interfaces);
  }

  // ---------------------------------------------------------------- what the comparison means

  ghost predicate DistinctNames(nics: seq<NetworkInterface>) {
    forall i, j :: 0 <= i < j < |nics| ==> nics[i].name != nics[j].name
  }

  /** The kinds of addresses are fixed words without a colon. */
  ghost predicate Worded(as_: seq<Address>) {
    forall a :: a in as_ ==> ':' !in a.kind
  }

  ghost predicate AllWorded(nics: seq<NetworkInterface>) {
    forall n :: n in nics ==> Worded(n.addresses)
  }

  /** Interfaces have names of their own, and none lists an address twice. */
  ghost predicate Plain(nics: seq<NetworkInterface>) {
    DistinctNames(nics) && forall n :: n in nics ==> Distinct(n.addresses)
  }

  /** An interface up to the order of its addresses and the letter case of its MAC. */
  datatype Card = Card(name: string, mac: string, addresses: multiset<Address>)

  function CardOf(n: NetworkInterface): Card {
    Card(n.name, Lower(n.mac), multiset(n.addresses))
  }

  function Cards(nics: seq<NetworkInterface>): (cards: seq<Card>)
    ensures |cards| == |nics| && forall i :: 0 <= i < |nics| ==> cards[i] == CardOf(nics[i])
  {
    seq(|nics|, i requires 0 <= i < |nics| => CardOf(nics[i]))
  }

  /** Reference: equality up to the order of lists and the letter case of tag values and MACs. */
  ghost predicate Equivalent(s: Status, t: Status) {
    && s.provider == t.provider && s.state == t.state && s.vpc == t.vpc
    && s.tags.Keys == t.tags.Keys && (forall k :: k in s.tags ==> Lower(s.tags[k]) == Lower(t.tags[k]))
    && multiset(Cards(s.interfaces)) == multiset(Cards(t.interfaces))
  }

  // ---------------------------------------------------------------- addresses

  lemma KeysDecide(a: Address, b: Address)
    requires ':' !in a.kind && ':' !in b.kind && AddressKey(a) == AddressKey(b)
    ensures a == b
  {
    SplitAtSeparator(':', a.kind, a.ip, b.kind, b.ip);
  }

  /** There are at most as many keys as addresses, and as many only if none is listed twice. */
  lemma {:induction false} KeysSize(as_: seq<Address>)
    requires Worded(as_)
    ensures |AddressKeys(as_)| <= |as_| && (|AddressKeys(as_)| == |as_| <==> Distinct(as_))
  {
    if as_ != [] {
      var front, last := as_[..|as_| - 1], as_[|as_| - 1];
      assert as_ == front + [last];
      KeysSize(front);
      assert AddressKeys(as_) == AddressKeys(front) + {AddressKey(last)};
      assert AddressKey(last) in AddressKeys(front) <==> last in front by {
        if a :| a in front && AddressKey(a) == AddressKey(last) {
          KeysDecide(a, last);
        }
      }
      DistinctNext(front, last);
    }
  }

  lemma SameKeysSameAddresses(s: seq<Address>, t: seq<Address>)
    requires Worded(s) && Worded(t) && AddressKeys(s) <= AddressKeys(t)
    ensures forall a :: a in s ==> a in t
  {
    forall a | a in s ensures a in t {
      assert AddressKey(a) in AddressKeys(t);
      var b :| b in t && AddressKey(b) == AddressKey(a);
      KeysDecide(a, b);
    }
  }

  /** Without repetitions on one side, a passing comparison means the same addresses. */
  lemma AddressesDecide(s: seq<Address>, t: seq<Address>)
    requires Distinct(s) && Worded(s) && Worded(t)
    ensures |s| == |t| && AddressKeys(s) <= AddressKeys(t) <==> multiset(s) == multiset(t)
  {
    KeysSize(s);
    KeysSize(t);
    if |s| == |t| && AddressKeys(s) <= AddressKeys(t) {
      SubsetSize(AddressKeys(s), AddressKeys(t));
      SameKeysSameAddresses(s, t);
      SameKeysSameAddresses(t, s);
      DistinctPermutation(s, t);
    }
    if multiset(s) == multiset(t) {
      SameMembers(s, t);
    }
  }

  /** With a repetition, some other list passes: a copy gives way to an address not listed. */
  lemma RepetitionConfuses(s: seq<Address>) returns (t: seq<Address>)
    requires !Distinct(s) && Worded(s)
    ensures Worded(t) && |s| == |t| && AddressKeys(s) <= AddressKeys(t) && multiset(s) != multiset(t)
  {
    var i, j :| 0 <= i < j < |s| && s[i] == s[j];
    var ip := FreshText(set a | a in s :: a.ip);
    var other := Address(s[i].kind, ip);
    assert other !in s;
    t := s[i := other];
    assert forall a :: a in t ==> a == other || a in s;
    forall a | a in s ensures a in t {
      var k :| 0 <= k < |s| && s[k] == a;
      assert k != i ==> t[k] == a;
      assert t[j] == s[j];
    }
    assert t[i] == other;
    StrangeMember(s, t, other);
  }

  /** A list of addresses is compared correctly with every other exactly if it repeats none. */
  lemma AddressesExact(s: seq<Address>)
    requires Worded(s)
    ensures (forall t :: Worded(t) ==> (|s| == |t| && AddressKeys(s) <= AddressKeys(t) <==>
              multiset(s) == multiset(t))) <==> Distinct(s)
  {
    if Distinct(s) {
      forall t | Worded(t) ensures |s| == |t| && AddressKeys(s) <= AddressKeys(t) <==> multiset(s) == multiset(t) {
        AddressesDecide(s, t);
      }
    } else {
      var t := RepetitionConfuses(s);
    }
  }

  // ---------------------------------------------------------------- interfaces

  /** The map by name holds the last interface of each name. */
  lemma {:induction false} ByNameLast(nics: seq<NetworkInterface>, i: nat)
    requires i < |nics| && forall j :: i < j < |nics| ==> nics[j].name != nics[i].name
    ensures nics[i].name in ByName(nics) && ByName(nics)[nics[i].name] == nics[i]
  {
    var front := nics[..|nics| - 1];
    if i < |front| {
      assert front[i] == nics[i] && nics[|nics| - 1].name != nics[i].name;
      ByNameLast(front, i);
    }
  }

  lemma {:induction false} LastNamed(nics: seq<NetworkInterface>, name: string) returns (i: nat)
    requires name in ByName(nics)
    ensures i < |nics| && nics[i].name == name && forall j :: i < j < |nics| ==> nics[j].name != name
  {
    i := |nics| - 1;
    if nics[i].name != name {
      i := LastNamed(nics[..|nics| - 1], name);
    }
  }

  /** There are at most as many names as interfaces, and as many only if names are not shared. */
  lemma {:induction false} ByNameSize(nics: seq<NetworkInterface>)
    ensures |ByName(nics)| <= |nics| && (|ByName(nics)| == |nics| ==> DistinctNames(nics))
    ensures forall n :: n in nics ==> n.name in ByName(nics)
  {
    if nics != [] {
      var front, last := nics[..|nics| - 1], nics[|nics| - 1];
      assert nics == front + [last];
      ByNameSize(front);
      if |ByName(nics)| == |nics| {
        assert last.name !in ByName(front);
        forall i, j | 0 <= i < j < |nics| ensures nics[i].name != nics[j].name {
          assert nics[i] == front[i] && nics[i] in front;
        }
      }
    }
  }

  lemma {:induction false} ByNameIs(nics: seq<NetworkInterface>)
    requires DistinctNames(nics)
    ensures |ByName(nics)| == |nics|
    ensures forall k :: k in ByName(nics) ==> ByName(nics)[k] in nics && ByName(nics)[k].name == k
    ensures forall n :: n in nics ==> n.name in ByName(nics) && ByName(nics)[n.name] == n
  {
    if nics != [] {
      var front, last := nics[..|nics| - 1], nics[|nics| - 1];
      ByNameIs(front);
      assert nics == front + [last];
      assert last.name !in ByName(front);
    }
  }

  lemma NicDecides(m: NetworkInterface, n: NetworkInterface)
    requires m.name == n.name && Distinct(m.addresses) && Worded(m.addresses) && Worded(n.addresses)
    ensures NicAgrees(m, n) <==> CardOf(m) == CardOf(n)
  {
    AddressesDecide(m.addresses, n.addresses);
  }

  lemma CardsMembers(nics: seq<NetworkInterface>)
    ensures forall c :: c in Cards(nics) <==> exists n :: n in nics && CardOf(n) == c
  {
    forall c ensures c in Cards(nics) <==> exists n :: n in nics && CardOf(n) == c {
      if c in Cards(nics) {
        var i :| 0 <= i < |nics| && Cards(nics)[i] == c;
        assert nics[i] in nics;
      }
      if n :| n in nics && CardOf(n) == c {
        var i :| 0 <= i < |nics| && nics[i] == n;
        assert Cards(nics)[i] == c;
      }
    }
  }

  lemma CardsDistinct(nics: seq<NetworkInterface>)
    requires DistinctNames(nics)
    ensures Distinct(Cards(nics))
  {
    forall i, j | 0 <= i < j < |nics| ensures Cards(nics)[i] != Cards(nics)[j] {
      assert nics[i].name != nics[j].name;
    }
  }

  /** One name: the interfaces found under it are the same card. */
  lemma AgreeAtName(s: seq<NetworkInterface>, t: seq<NetworkInterface>, m: NetworkInterface, n: NetworkInterface)
    requires Plain(s) && AllWorded(s) && AllWorded(t) && DistinctNames(t) && NicsAgree(s, t)
    requires m in s && n in t && m.name == n.name
    ensures CardOf(m) == CardOf(n)
  {
    ByNameIs(s);
    ByNameIs(t);
    hide ByName;
    assert m.name in ByName(s) && NicAgrees(ByName(s)[m.name], ByName(t)[m.name]);
    NicDecides(m, n);
  }

  lemma AgreeNicsEqual(s: seq<NetworkInterface>, t: seq<NetworkInterface>)
    requires Plain(s) && AllWorded(s) && AllWorded(t) && NicsAgree(s, t)
    ensures multiset(Cards(s)) == multiset(Cards(t))
  {
    ByNameIs(s);
    ByNameSize(t);
    SubsetSize(ByName(s).Keys, ByName(t).Keys);
    ByNameIs(t);
    hide ByName, CardOf, Cards, Worded, Distinct, NicAgrees;
    forall m | m in s ensures exists n :: n in t && CardOf(n) == CardOf(m) {
      AgreeAtName(s, t, m, ByName(t)[m.name]);
    }
    forall n | n in t ensures exists m :: m in s && CardOf(m) == CardOf(n) {
      AgreeAtName(s, t, ByName(s)[n.name], n);
    }
    CardsMembers(s);
    CardsMembers(t);
    CardsDistinct(s);
    CardsDistinct(t);
    DistinctPermutation(Cards(s), Cards(t));
  }

  lemma CardsDiffer(s: seq<NetworkInterface>, t: seq<NetworkInterface>, i: nat, j: nat)
    requires DistinctNames(s) && i < j < |t| && Cards(t)[i] != Cards(t)[j] && Cards(t)[i] in Cards(s)
    requires Cards(t)[j] in Cards(s)
    ensures t[i].name != t[j].name
  {
    var x :| 0 <= x < |s| && Cards(s)[x] == Cards(t)[i];
    var y :| 0 <= y < |s| && Cards(s)[y] == Cards(t)[j];
    assert x != y;
  }

  /** Names are not shared on either side if the cards are the same. */
  lemma EqualNames(s: seq<NetworkInterface>, t: seq<NetworkInterface>)
    requires DistinctNames(s) && multiset(Cards(s)) == multiset(Cards(t))
    ensures DistinctNames(t)
  {
    CardsDistinct(s);
    PermutationDistinct(Cards(s), Cards(t));
    SameMembers(Cards(s), Cards(t));
    hide CardOf, Cards;
    forall i, j | 0 <= i < j < |t| ensures t[i].name != t[j].name {
      CardsDiffer(s, t, i, j);
    }
  }

  lemma EqualAtName(s: seq<NetworkInterface>, t: seq<NetworkInterface>, m: NetworkInterface)
    requires Plain(s) && AllWorded(s) && AllWorded(t) && DistinctNames(t) && m in s && CardOf(m) in Cards(t)
    ensures m.name in ByName(t) && NicAgrees(m, ByName(t)[m.name])
  {
    CardsMembers(t);
    var n :| n in t && CardOf(n) == CardOf(m);
    ByNameIs(t);
    NicDecides(m, n);
  }

  lemma EqualNicsAgree(s: seq<NetworkInterface>, t: seq<NetworkInterface>)
    requires Plain(s) && AllWorded(s) && AllWorded(t) && multiset(Cards(s)) == multiset(Cards(t))
    ensures NicsAgree(s, t)
  {
    EqualNames(s, t);
    SameMembers(Cards(s), Cards(t));
    CardsMembers(s);
    ByNameIs(s);
    hide ByName, CardOf, Worded, Distinct, NicAgrees;
    forall k | k in ByName(s) ensures k in ByName(t) && NicAgrees(ByName(s)[k], ByName(t)[k]) {
      EqualAtName(s, t, ByName(s)[k]);
    }
  }

  lemma NicAgreesSelf(n: NetworkInterface)
    ensures NicAgrees(n, n)
  {
  }

  /** A shared name: the interface that is not looked at may be renamed. */
  lemma SharedNameConfuses(s: seq<NetworkInterface>) returns (t: seq<NetworkInterface>)
    requires !DistinctNames(s) && AllWorded(s)
    ensures AllWorded(t) && NicsAgree(s, t) && multiset(Cards(s)) != multiset(Cards(t))
  {
    var i, j :| 0 <= i < j < |s| && s[i].name == s[j].name;
    var name := FreshText(set n | n in s :: n.name);
    var other := s[i].(name := name);
    t := s[i := other];
    assert forall n :: n in t ==> n == other || n in s;
    assert s[i] in s;
    forall k | k in ByName(s) ensures k in ByName(t) && NicAgrees(ByName(s)[k], ByName(t)[k]) {
      var l := LastNamed(s, k);
      assert s[l] in s && k != name;
      assert l != i;
      ByNameLast(s, l);
      ByNameLast(t, l);
      NicAgreesSelf(s[l]);
    }
    CardsMembers(s);
    assert Cards(t)[i] == CardOf(other);
    StrangeMember(Cards(s), Cards(t), CardOf(other));
  }

  /** A repeated address: a copy may give way to another. */
  lemma SharedAddressConfuses(s: seq<NetworkInterface>, i: nat) returns (t: seq<NetworkInterface>)
    requires DistinctNames(s) && AllWorded(s) && i < |s| && !Distinct(s[i].addresses)
    ensures AllWorded(t) && NicsAgree(s, t) && multiset(Cards(s)) != multiset(Cards(t))
  {
    assert s[i] in s;
    var as_ := RepetitionConfuses(s[i].addresses);
    var other := s[i].(addresses := as_);
    t := s[i := other];
    assert forall n :: n in t ==> n == other || n in s;
    forall k | k in ByName(s) ensures k in ByName(t) && NicAgrees(ByName(s)[k], ByName(t)[k]) {
      var l := LastNamed(s, k);
      ByNameLast(s, l);
      ByNameLast(t, l);
      NicAgreesSelf(s[l]);
    }
    forall x | 0 <= x < |s| ensures Cards(s)[x] != CardOf(other) {
      assert x == i || s[x].name != s[i].name;
    }
    assert Cards(t)[i] == CardOf(other);
    StrangeMember(Cards(s), Cards(t), CardOf(other));
  }

  // ---------------------------------------------------------------- statuses

  /** On a status without repetitions the comparison is the reference equality. */
  lemma AgreeIsEquivalent(s: Status, t: Status)
    requires Plain(s.interfaces) && AllWorded(s.interfaces) && AllWorded(t.interfaces)
    ensures Agree(s, t) <==> Equivalent(s, t)
  {
    hide NicsAgree, Plain, Cards, AllWorded;
    if NicsAgree(s.interfaces, t.interfaces) {
      AgreeNicsEqual(s.interfaces, t.interfaces);
    }
    if multiset(Cards(s.interfaces)) == multiset(Cards(t.interfaces)) {
      EqualNicsAgree(s.interfaces, t.interfaces);
    }
    if TagsAgree(s.tags, t.tags) {
      SubsetSize(s.tags.Keys, t.tags.Keys);
    }
  }

  /** With a repetition, a status that differs passes. */
  lemma RepetitionsConfuse(s: Status) returns (t: Status)
    requires !Plain(s.interfaces) && AllWorded(s.interfaces)
    ensures AllWorded(t.interfaces) && Agree(s, t) && !Equivalent(s, t)
  {
    var nics;
    if !DistinctNames(s.interfaces) {
      nics := SharedNameConfuses(s.interfaces);
    } else {
      var n :| n in s.interfaces && !Distinct(n.addresses);
      var i :| 0 <= i < |s.interfaces| && s.interfaces[i] == n;
      nics := SharedAddressConfuses(s.interfaces, i);
    }
    t := s.(interfaces := nics);
  }

  /**
   A status is compared correctly with every other exactly if no two interfaces share a name and none repeats an
   address.
   */
  lemma AgreeExact(s: Status)
    requires AllWorded(s.interfaces)
    ensures (forall t: Status :: AllWorded(t.interfaces) ==> (Agree(s, t) <==> Equivalent(s, t))) <==>
              Plain(s.interfaces)
  {
    hide Agree, Equivalent, Plain, AllWorded;
    if Plain(s.interfaces) {
      forall t: Status | AllWorded(t.interfaces) ensures Agree(s, t) <==> Equivalent(s, t) {
        AgreeIsEquivalent(s, t);
      }
    } else {
      var t := RepetitionsConfuse(s);
    }
  }

  lemma AgreeWithSelf(s: Status)
    ensures Agree(s, s)
  {
  }

  // ---------------------------------------------------------------- polling

  datatype Discovered = Discovered(name: string, status: Status)

  ghost predicate DistinctDiscovered(ds: seq<Discovered>) {
    forall i, j :: 0 <= i < j < |ds| ==> ds[i].name != ds[j].name
  }

  function Names(ds: seq<Discovered>): set<string> {
    set d | d in ds :: d.name
  }

  function Owned(etcd: map<string, VirtualMachine>): map<string, VirtualMachine> {
    map n | n in etcd && etcd[n].owned :: etcd[n]
  }

  /** Three ways a discovered or stored machine can stand. */
  ghost predicate Partition(owned: map<string, VirtualMachine>, ds: seq<Discovered>, create: seq<Discovered>,
                            delete: set<string>, update: seq<Discovered>) {
    && (forall d :: d in create <==> d in ds && d.name !in owned)
    && (forall d :: d in update <==> d in ds && d.name in owned && !Agree(owned[d.name].status, d.status))
    && (create == [] <==> Names(ds) <= owned.Keys)
    && (update == [] <==> forall d :: d in ds && d.name in owned ==> Agree(owned[d.name].status, d.status))
    && delete == owned.Keys - Names(ds)
  }

  /** A name is taken by an object of another owner. */
  predicate Taken(etcd: map<string, VirtualMachine>, name: string) {
    name in etcd && !etcd[name].owned
  }

  /** The owned objects match what was discovered, apart from names that are taken. */
  ghost predicate Matches(etcd: map<string, VirtualMachine>, ds: seq<Discovered>) {
    && (forall n :: n in Owned(etcd) <==> n in Names(ds) && !Taken(etcd, n))
    && forall d :: d in ds && !Taken(etcd, d.name) ==> d.name in etcd && Agree(etcd[d.name].status, d.status)
  }

  class Poller {
    var etcd: map<string, VirtualMachine>

    constructor (etcd: map<string, VirtualMachine>)
      ensures this.etcd == etcd
    {
      this.etcd := etcd;
    }

    /** getCurrentVirtualMachinesByName. */
    method CurrentByName() returns (current: map<string, VirtualMachine>)
      ensures current == Owned(etcd)
    {
      current := map[];
      var todo := etcd.Keys;
      while todo != {}
        invariant todo <= etcd.Keys
        invariant current == map n | n in etcd && n !in todo && etcd[n].owned :: etcd[n]
        decreases todo
      {
        var n :| n in todo;
        if etcd[n].owned {
          current := current[n := etcd[n]];
        }
        todo := todo - {n};
      }
    }

    /** findVirtualMachinesByOperation. */
    method FindByOperation(ds: seq<Discovered>)
      returns (create: seq<Discovered>, delete: set<string>, update: seq<Discovered>)
      ensures DistinctDiscovered(ds) ==> Partition(Owned(etcd), ds, create, delete, update)
      ensures DistinctDiscovered(ds) ==> DistinctDiscovered(create) && DistinctDiscovered(update)
    {
      hide Agree, Partition, DistinctDiscovered;
      AllNew(ds);
      NoneFound(Owned(etcd));
      var current := CurrentByName();
      if current == map[] {
        return ds, {}, [];
      }
      ghost var owned := current;
      create, update := [], [];
      for i := 0 to |ds|
        invariant DistinctDiscovered(ds) ==>
                    Partition(owned, ds[..i], create, current.Keys, update) && forall n :: n in current ==>
                        n in owned && current[n] == owned[n]
        invariant DistinctDiscovered(ds) ==> DistinctDiscovered(create) && DistinctDiscovered(update)
      {
        var d := ds[i];
        assert ds[..i + 1] == ds[..i] + [d];
        ghost var create0, update0, rest0 := create, update, current.Keys;
        if d.name !in current {
          create := create + [d];
        } else {
          var same := StatusSame(current[d.name].status, d.status);
          current := current - {d.name};
          if !same {
            update := update + [d];
          }
        }
        if DistinctDiscovered(ds) {
          NewName(ds, i);
          PartitionNext(owned, ds[..i], d, create0, rest0, update0);
        }
      }
      assert ds[..|ds|] == ds;
      delete := current.Keys;
    }

    method CreateAll(ds: seq<Discovered>, failing: set<string>)
      modifies this
      ensures forall n :: n in etcd <==> n in old(etcd) || (n in Names(ds) && n !in failing)
      ensures forall n :: n in old(etcd) ==> etcd[n] == old(etcd)[n]
      ensures DistinctDiscovered(ds) ==> forall d :: d in ds && d.name !in old(etcd) && d.name !in failing ==>
                d.name in etcd && etcd[d.name] == VirtualMachine(true, d.status, "")
    {
      for i := 0 to |ds|
        invariant forall n :: n in etcd <==> n in old(etcd) || (n in Names(ds[..i]) && n !in failing)
        invariant forall n :: n in old(etcd) ==> etcd[n] == old(etcd)[n]
        invariant DistinctDiscovered(ds) ==>
                    forall d :: d in ds[..i] && d.name !in old(etcd) && d.name !in failing ==>
                        d.name in etcd && etcd[d.name] == VirtualMachine(true, d.status, "")
      {
        var d := ds[i];
        assert ds[..i + 1] == ds[..i] + [d];
        if d.name !in etcd && d.name !in failing {
          etcd := etcd[d.name := VirtualMachine(true, d.status, "")];
        }
        if DistinctDiscovered(ds) {
          NewName(ds, i);
        }
      }
      assert ds[..|ds|] == ds;
    }

    method UpdateAll(ds: seq<Discovered>, failing: set<string>)
      requires Names(ds) <= etcd.Keys
      modifies this
      ensures etcd.Keys == old(etcd).Keys
      ensures forall n :: n in etcd && (n !in Names(ds) || n in failing) ==> etcd[n] == old(etcd)[n]
      ensures DistinctDiscovered(ds) ==> forall d :: d in ds && d.name !in failing ==>
                etcd[d.name] == old(etcd)[d.name].(status := d.status)
    {
      for i := 0 to |ds|
        invariant etcd.Keys == old(etcd).Keys
        invariant forall n :: n in etcd && (n !in Names(ds[..i]) || n in failing) ==> etcd[n] == old(etcd)[n]
        invariant DistinctDiscovered(ds) ==>
                    forall d :: d in ds[..i] && d.name !in failing ==>
                        etcd[d.name] == old(etcd)[d.name].(status := d.status)
      {
        var d := ds[i];
        assert d in ds && d.name in Names(ds);
        assert ds[..i + 1] == ds[..i] + [d];
        if DistinctDiscovered(ds) {
          NewName(ds, i);
        }
        if d.name !in failing {
          etcd := etcd[d.name := etcd[d.name].(status := d.status)];
        }
      }
      assert ds[..|ds|] == ds;
    }

    /**
     doVirtualMachineOperations; the operations on the names in `failing` fail, and so do creations under a taken
     name.
     */
    method DoOperations(ds: seq<Discovered>, failing: set<string>)
      returns (create: seq<Discovered>, delete: set<string>, update: seq<Discovered>)
      requires DistinctDiscovered(ds)
      modifies this
      ensures Partition(old(Owned(etcd)), ds, create, delete, update)
      ensures forall n :: n !in failing ==> (n in etcd && etcd[n].owned <==> n in Names(ds) && !Taken(old(etcd), n))
      ensures forall d :: d in ds && d.name !in failing && !Taken(old(etcd), d.name) ==>
                d.name in etcd && Agree(etcd[d.name].status, d.status)
      ensures forall n :: n in old(etcd) && (n in failing || !old(etcd)[n].owned) ==>
                n in etcd && etcd[n] == old(etcd)[n]
      ensures forall n :: n in old(etcd) && n in etcd ==> etcd[n].rest == old(etcd)[n].rest
    {
      hide Agree;
      create, delete, update := FindByOperation(ds);
      CreateAll(create, failing);
      ghost var created := etcd;
      etcd := etcd - (delete - failing);
      UpdateAll(update, failing);
      forall d | d in ds && d.name !in failing && !Taken(old(etcd), d.name)
        ensures d.name in etcd && etcd[d.name].owned && Agree(etcd[d.name].status, d.status)
      {
        AgreeWithSelf(d.status);
        if d.name in Names(update) {
          assert d in update by {
            var e :| e in update && e.name == d.name;
            SameNameSame(ds, d, e);
          }
        }
      }
    }

    /**
     Two polls in a row: the objects match the inventory, and the second poll only tries again to create under taken
     names.
     */
    method PollTwice(ds: seq<Discovered>)
      returns (create: seq<Discovered>, delete: set<string>, update: seq<Discovered>)
      requires DistinctDiscovered(ds)
      modifies this
      ensures Matches(etcd, ds) && delete == {} && update == []
      ensures forall d :: d in create <==> d in ds && Taken(etcd, d.name)
      ensures create == [] <==> forall d :: d in ds ==> !Taken(old(etcd), d.name)
    {
      hide Agree;
      create, delete, update := DoOperations(ds, {});
      create, delete, update := FindByOperation(ds);
    }
  }

  lemma AllNew(ds: seq<Discovered>)
    ensures DistinctDiscovered(ds) ==> Partition(map[], ds, ds, {}, [])
    ensures DistinctDiscovered([])
  {
    hide Agree;
    if ds != [] {
      assert ds[0] in ds && ds[0].name in Names(ds);
    }
  }

  lemma NoneFound(owned: map<string, VirtualMachine>)
    ensures Partition(owned, [], [], owned.Keys, [])
  {
    hide Agree;
  }

  /** The next discovered machine falls into exactly one class. */
  lemma PartitionNext(owned: map<string, VirtualMachine>, ds: seq<Discovered>, d: Discovered, create: seq<Discovered>,
                      rest: set<string>, update: seq<Discovered>)
    requires Partition(owned, ds, create, rest, update) && d.name !in Names(ds) && DistinctDiscovered(create)
    requires DistinctDiscovered(update)
    ensures d.name in rest <==> d.name in owned
    ensures d.name !in owned ==>
              Partition(owned, ds + [d], create + [d], rest, update) && DistinctDiscovered(create + [d])
    ensures d.name in owned && Agree(owned[d.name].status, d.status) ==>
              Partition(owned, ds + [d], create, rest - {d.name}, update)
    ensures d.name in owned && !Agree(owned[d.name].status, d.status) ==>
              Partition(owned, ds + [d], create, rest - {d.name}, update + [d]) && DistinctDiscovered(update + [d])
  {
    hide Agree;
    assert Names(ds + [d]) == Names(ds) + {d.name};
    assert d in ds + [d] && forall e :: e in ds ==> e in ds + [d];
    assert forall e :: e in create || e in update ==> e.name in Names(ds);
  }

  lemma NewName(ds: seq<Discovered>, i: nat)
    requires DistinctDiscovered(ds) && i < |ds|
    ensures ds[i].name !in Names(ds[..i])
  {
  }

  lemma SameNameSame(ds: seq<Discovered>, d: Discovered, e: Discovered)
    requires DistinctDiscovered(ds) && d in ds && e in ds && d.name == e.name
    ensures d == e
  {
  }
}
