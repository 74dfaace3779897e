/**
 The client-go indexers that hold network policies and resource trackers: objects are stored by pointer and changed
 in place, while the index remembers the values the objects had when they were added.
 */
module Indexers {
  import opened PolicyTypes
  import opened GroupMachine

  /**
   What the reconciler keeps in the object: a policy's rules and groups, or a tracker's present and former groups and
   its dirty flag, None until it is first stored.
   */
  datatype Content =
    | PolicyContent(rules: seq<PolicyRule>, appliedTo: seq<string>)
    | TrackerContent(current: map<Id, Ref>, previous: map<Id, Ref>, dirty: Option<bool>)

  datatype IndexValue = ByAddrGroup(group: string) | ByAppliedToGroup(group: string) | BySecurityGroup(id: Id)

  /** The index functions. */
  function Values(c: Content): set<IndexValue> {
    match c
    case PolicyContent(rules, appliedTo) =>
      (set g | g in NamedAddressGroups(rules) :: ByAddrGroup(g)) + (set g | g in appliedTo :: ByAppliedToGroup(g))
    case TrackerContent(current, previous, _) =>
      set id | id in current.Keys + previous.Keys :: BySecurityGroup(id)
  }

  /** A stored object. */
  class Item {
    const key: string
    var content: Content

    constructor (key: string, content: Content)
      ensures this.key == key && this.content == content
    {
      this.key, this.content := key, content;
    }
  }

  class Indexer {
    var items: map<string, Item>
    var index: map<IndexValue, set<string>>

    constructor ()
      ensures items == map[] && index == map[] && Agrees()
    {
      items, index := map[], map[];
    }

    ghost predicate Valid()
      reads this
    {
      forall k :: k in items ==> items[k].key == k
    }

    function At(v: IndexValue): set<string>
      reads this
    {
      if v in index then index[v] else {}
    }

    /** What is stored, by key. */
    ghost function Contents(): map<string, Content>
      reads this, items.Values
    {
      map k | k in items :: items[k].content
    }

    /** The index is what a full scan with the index function would give. */
    ghost predicate Agrees()
      reads this, items.Values
    {
      Valid() && forall v, k :: k in At(v) <==> k in items && v in Values(items[k].content)
    }

    method AddKey(k: string, values: set<IndexValue>)
      modifies this`index
      ensures forall v :: At(v) == if v in values then old(At(v)) + {k} else old(At(v))
    {
      var todo := values;
      while todo != {}
        invariant todo <= values
        invariant forall v :: At(v) == if v in values - todo then old(At(v)) + {k} else old(At(v))
        decreases todo
      {
        var v :| v in todo;
        index := index[v := At(v) + {k}];
        todo := todo - {v};
      }
    }

    method RemoveKey(k: string, values: set<IndexValue>)
      modifies this`index
      ensures forall v :: At(v) == if v in values then old(At(v)) - {k} else old(At(v))
    {
      var todo := values;
      while todo != {}
        invariant todo <= values
        invariant forall v :: At(v) == if v in values - todo then old(At(v)) - {k} else old(At(v))
        decreases todo
      {
        var v :| v in todo;
        index := index[v := At(v) - {k}];
        todo := todo - {v};
      }
    }

    /** Add: unindexes the object stored before by its content of today, then indexes the new one. */
    method Add(o: Item)
      requires Valid()
      modifies this
      ensures Valid() && items == old(items)[o.key := o]
      ensures forall v :: At(v) ==
                old(At(v)) - (if o.key in old(items) && v in Values(old(items)[o.key].content) then {o.key} else {})
                + (if v in Values(o.content) then {o.key} else {})
      ensures old(Agrees()) ==> Agrees()
    {
      if o.key in items {
        RemoveKey(o.key, Values(items[o.key].content));
      }
      items := items[o.key := o];
      AddKey(o.key, Values(o.content));
    }

    /** Delete: unindexes the stored object by its content of today. */
    method Delete(o: Item)
      requires Valid()
      modifies this
      ensures Valid() && items == old(items) - {o.key}
      ensures forall v :: At(v) ==
                old(At(v)) - (if o.key in old(items) && v in Values(old(items)[o.key].content) then {o.key} else {})
      ensures old(Agrees()) ==> Agrees()
    {
      if o.key in items {
        RemoveKey(o.key, Values(items[o.key].content));
        items := items - {o.key};
      }
    }

    /** ByIndex. */
    method ByIndex(v: IndexValue) returns (found: set<Item>)
      requires Agrees()
      ensures found == set k | k in items && v in Values(items[k].content) :: items[k]
    {
      found := set k | k in At(v) && k in items :: items[k];
    }

    /** Delete, change, add: the way objects are meant to be changed. */
    method Change(o: Item, content: Content)
      requires Agrees() && o.key in items && items[o.key] == o
      modifies this, o
      ensures Agrees() && items == old(items) && o.content == content
    {
      Delete(o);
      o.content := content;
      Add(o);
      assert items == old(items);
    }

    /** Changing a stored object in place keeps the index right exactly if the index values stay the same. */
    method ChangeInPlace(o: Item, content: Content)
      requires Agrees() && o.key in items && items[o.key] == o
      modifies o
      ensures o.content == content
      ensures Agrees() <==> Values(content) == old(Values(o.content))
    {
      ghost var was := Values(o.content);
      o.content := content;
      if Values(content) != was {
        ghost var v :| (v in Values(content)) != (v in was);
        assert (o.key in At(v)) != (v in Values(items[o.key].content));
      }
    }

    /** One thing that happens to the store. */
    method Do(op: StoreOp)
      requires Agrees()
      modifies this, items.Values
      ensures Agrees() && fresh(items.Values - old(items.Values))
      ensures Contents() == Stored(old(Contents()), op)
    {
      match op
      case Store(key, content) =>
        var o := new Item(key, content);
        Add(o);
      case Alter(key, content) =>
        if key in items {
          Change(items[key], content);
        }
      case Discard(key) =>
        if key in items {
          Delete(items[key]);
        }
    }

    /** Any history of the store: the index is right throughout, and what is stored is what the operations say. */
    method Run(ops: seq<StoreOp>)
      requires Agrees()
      modifies this, items.Values
      ensures Agrees() && fresh(items.Values - old(items.Values))
      ensures Contents() == AllStored(old(Contents()), ops)
    {
      for i := 0 to |ops|
        invariant Agrees() && fresh(items.Values - old(items.Values))
        invariant Contents() == AllStored(old(Contents()), ops[..i])
      {
        assert ops[..i + 1][..i] == ops[..i];
        Do(ops[i]);
      }
      assert ops[..|ops|] == ops;
    }

    /** The policies naming a group, by index lookup: those a full scan of the reconciler's policies finds. */
    method LookUpNamers(g: GroupName, ghost policies: map<string, Policy>) returns (names: set<string>)
      requires Agrees() && Mirrors(Contents(), policies)
      ensures names == Namers(policies, g)
    {
      var found := ByIndex(if g.kind == Addr then ByAddrGroup(g.name) else ByAppliedToGroup(g.name));
      names := set o | o in found :: o.key;
      NamersIndexed(Contents(), policies, g);
      forall k | k in names ensures k in Namers(policies, g) {
        assert k in Contents();
      }
      forall k | k in Namers(policies, g) ensures k in names {
        assert items[k] in found;
      }
    }
  }

  /** What happens to a store of objects. */
  datatype StoreOp = Store(key: string, content: Content) | Alter(key: string, content: Content) | Discard(key: string)

  function Stored(m: map<string, Content>, op: StoreOp): map<string, Content> {
    match op
    case Store(key, content) => m[key := content]
    case Alter(key, content) => if key in m then m[key := content] else m
    case Discard(key) => m - {key}
  }

  function AllStored(m: map<string, Content>, ops: seq<StoreOp>): map<string, Content> {
    if ops == [] then m else Stored(AllStored(m, ops[..|ops| - 1]), ops[|ops| - 1])
  }

  /** The store holds the reconciler's policies. */
  ghost predicate Mirrors(m: map<string, Content>, policies: map<string, Policy>) {
    m.Keys == policies.Keys && forall p :: p in m ==> m[p] == PolicyContent(policies[p].rules, policies[p].appliedTo)
  }

  lemma NamersIndexed(m: map<string, Content>, policies: map<string, Policy>, g: GroupName)
    requires Mirrors(m, policies)
    ensures forall p :: p in Namers(policies, g) <==>
              p in m && (if g.kind == Addr then ByAddrGroup(g.name) else ByAppliedToGroup(g.name)) in Values(m[p])
  {
  }
}
