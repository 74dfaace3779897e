/** The strings the reconciler uses as keys, and when they identify what they stand for. */
module Keys {
  import opened Basics
  import opened GroupMachine

  const MEMBER_PREFIX := "mm_"

  /** CloudResourceID.String. */
  function KeyString(id: Id): string {
    id.name + "/" + id.vpc
  }

  /** getGroupUniqueName. */
  function UniqueName(name: string, memberOnly: bool): string {
    if memberOnly then MEMBER_PREFIX + name else name
  }

  /** getGroupIDFromUniqueName. */
  function GroupOf(unique: string): (string, bool) {
    if MEMBER_PREFIX <= unique then (unique[|MEMBER_PREFIX|..], true) else (unique, false)
  }

  /** A unique name is read back exactly if it is not an appliedTo name that looks like an address group's. */
  lemma UniqueNameRoundTrip(name: string, memberOnly: bool)
    ensures GroupOf(UniqueName(name, memberOnly)) == (name, memberOnly) <==> memberOnly || !(MEMBER_PREFIX <= name)
  {
    if memberOnly {
      assert (MEMBER_PREFIX + name)[|MEMBER_PREFIX|..] == name;
    }
  }

  /** The key of an item in the retry queue, or of an entry in the pending-delete queue. */
  function QueueString(k: QueueKey): string {
    match k
    case SgKey(id) => UniqueName(KeyString(id), id.kind == Addr)
    case GroupKey(g) => UniqueName(g.name, g.kind == Addr)
  }

  function NameOf(k: QueueKey): GroupName {
    match k case SgKey(id) => id.Group() case GroupKey(g) => g
  }

  /** A group name without slash that is not mistaken for an address group's. */
  predicate Plain(g: GroupName) {
    '/' !in g.name && (g.kind == AppliedTo ==> !(MEMBER_PREFIX <= g.name))
  }

  /** Two security groups of one indexer have different keys. */
  lemma KeyStringsDiffer(a: Id, b: Id)
    requires a.kind == b.kind && '/' !in a.name && '/' !in b.name && KeyString(a) == KeyString(b)
    ensures a == b
  {
    SplitAtSeparator('/', a.name, a.vpc, b.name, b.vpc);
  }

  lemma PrefixBeforeSlash(p: string, x: string, y: string)
    requires '/' !in p
    ensures p <= x + "/" + y <==> p <= x
  {
    var s := x + "/" + y;
    assert s[|x|] == '/' && s[..|x|] == x;
    if p <= s {
      assert forall i :: 0 <= i < |p| ==> p[i] == s[i] && p[i] in p;
      assert p == s[..|p|] == x[..|p|];
    }
  }

  /** The kind of group a queue key belongs to can be told from the string. */
  lemma KindShows(k: QueueKey)
    requires Plain(NameOf(k))
    ensures MEMBER_PREFIX <= QueueString(k) <==> NameOf(k).kind == Addr
  {
    if k.SgKey? {
      PrefixBeforeSlash(MEMBER_PREFIX, k.id.name, k.id.vpc);
    }
  }

  /** No two keys of the retry queue share a string. */
  lemma QueueStringsDiffer(k: QueueKey, l: QueueKey)
    requires Plain(NameOf(k)) && Plain(NameOf(l)) && QueueString(k) == QueueString(l)
    ensures k == l
  {
    KindShows(k);
    KindShows(l);
    var cut := if NameOf(k).kind == Addr then |MEMBER_PREFIX| else 0;
    var s := QueueString(k)[cut..];
    assert s == if k.SgKey? then KeyString(k.id) else k.group.name;
    assert s == if l.SgKey? then KeyString(l.id) else l.group.name;
    assert k.SgKey? ==> s[|k.id.name|] == '/';
    assert l.SgKey? ==> s[|l.id.name|] == '/';
    if k.SgKey? && l.SgKey? {
      KeyStringsDiffer(k.id, l.id);
    }
  }
}
