/**
 Group events that arrive while an earlier incarnation of the group is still being
 deleted (or could not be resolved) are folded into one pendingGroup and replayed later.
 */
module PendingGroups {
  import opened PolicyTypes

  datatype EventType = Added | Modified | Deleted | Bookmark

  datatype MemberKey = MemberKey(namespace: string, name: string)

  /** A group member: its external entity, and whatever else the message carries about it. */
  datatype Member = Member(key: MemberKey, detail: string)

  /** `refCnt == None` marks an entry of the retry queue, `Some` one of the pending-delete queue. */
  datatype PendingGroup = PendingGroup(refCnt: Option<int>, runOnClear: bool, event: Option<EventType>,
                                       added: map<MemberKey, Member>, removed: map<MemberKey, Member>)

  const PENDING_DELETE := PendingGroup(Some(0), false, None, map[], map[])
  const PENDING_RETRY := PendingGroup(None, false, None, map[], map[])

  datatype GroupEvent = GroupEvent(kind: EventType, added: seq<Member>, removed: seq<Member>)

  function RemoveOne(p: PendingGroup, m: Member): PendingGroup {
    if m.key in p.added
    then p.(added := p.added - {m.key})
    else p.(removed := p.removed[m.key := m])
  }

  function AddOne(p: PendingGroup, m: Member): PendingGroup {
    p.(removed := p.removed - {m.key}, added := p.added[m.key := m])
  }

  function RemoveAll(p: PendingGroup, ms: seq<Member>): PendingGroup {
    if ms == [] then p else RemoveOne(RemoveAll(p, ms[..|ms| - 1]), ms[|ms| - 1])
  }

  function AddAll(p: PendingGroup, ms: seq<Member>): PendingGroup {
    if ms == [] then p else AddOne(AddAll(p, ms[..|ms| - 1]), ms[|ms| - 1])
  }

  /** What one event makes of a pending group. */
  function Coalesce(p: PendingGroup, e: GroupEvent): PendingGroup {
    var named := if p.event.None? then p.(event := Some(e.kind)) else p;
    match e.kind
    case Deleted => named.(added := map[], removed := map[], event := None)
    case Added => AddAll(RemoveAll(named, e.removed), e.added)
    case Modified => AddAll(RemoveAll(named, e.removed), e.added)
    case Bookmark => named
  }

  method UpdatePendingItem(p: PendingGroup, e: GroupEvent) returns (q: PendingGroup)
    ensures q == Coalesce(p, e)
  {
    q := p;
    if q.event.None? {
      q := q.(event := Some(e.kind));
    }
    if e.kind == Deleted {
      q := q.(added := map[], removed := map[], event := None);
    } else if e.kind == Added || e.kind == Modified {
      ghost var start := q;
      for i := 0 to |e.removed|
        invariant q == RemoveAll(start, e.removed[..i])
      {
        assert e.removed[..i + 1][..i] == e.removed[..i];
        var m := e.removed[i];
        if m.key in q.added {
          q := q.(added := q.added - {m.key});
        } else {
          q := q.(removed := q.removed[m.key := m]);
        }
      }
      assert e.removed[..|e.removed|] == e.removed;
      ghost var middle := q;
      for i := 0 to |e.added|
        invariant q == AddAll(middle, e.added[..i])
      {
        assert e.added[..i + 1][..i] == e.added[..i];
        var m := e.added[i];
        q := q.(removed := q.removed - {m.key}, added := q.added[m.key := m]);
      }
      assert e.added[..|e.added|] == e.added;
    }
  }

  /** The members of all keys but those to do have been collected, once each. */
  ghost predicate Collected(added: map<MemberKey, Member>, members: seq<Member>, todo: set<MemberKey>) {
    && todo <= added.Keys && |members| + |todo| == |added.Keys|
    && (forall m :: m in members <==> m.key in added && m.key !in todo && added[m.key] == m)
    && Upsert(map[], members) == added - todo
  }

  lemma UpsertNext(added: map<MemberKey, Member>, members: seq<Member>, todo: set<MemberKey>, k: MemberKey)
    requires Keyed(added) && Upsert(map[], members) == added - todo && k in todo && k in added
    ensures Upsert(map[], members + [added[k]]) == added - (todo - {k})
  {
    assert (members + [added[k]])[..|members|] == members;
    hide Upsert;
    assert (added - todo)[k := added[k]] == added - (todo - {k});
  }

  lemma CollectedNext(added: map<MemberKey, Member>, members: seq<Member>, todo: set<MemberKey>, k: MemberKey)
    requires Keyed(added) && Collected(added, members, todo) && k in todo
    ensures Collected(added, members + [added[k]], todo - {k})
  {
    UpsertNext(added, members, todo, k);
    hide Upsert;
    forall m ensures m in members + [added[k]] <==> m.key in added && m.key !in todo - {k} && added[m.key] == m {
      assert m in members + [added[k]] <==> m in members || m == added[k];
    }
  }

  /** The members a replay passes on, in some order. */
  method ReplayedMembers(p: PendingGroup) returns (members: seq<Member>)
    requires Keyed(p.added)
    ensures |members| == |p.added|
    ensures forall m :: m in members <==> m.key in p.added && p.added[m.key] == m
    ensures Upsert(map[], members) == p.added
  {
    members := [];
    var todo := p.added.Keys;
    assert p.added - todo == map[];
    while todo != {}
      invariant todo <= p.added.Keys && Collected(p.added, members, todo)
      decreases todo
    {
      hide Collected;
      var k :| k in todo;
      CollectedNext(p.added, members, todo, k);
      members := members + [p.added[k]];
      todo := todo - {k};
    }
    assert p.added - {} == p.added;
  }

  // ---------------------------------------------------------------- reference: events one by one

  ghost predicate Keyed(m: map<MemberKey, Member>) {
    forall k :: k in m ==> m[k].key == k
  }

  function Upsert(m: map<MemberKey, Member>, ms: seq<Member>): map<MemberKey, Member> {
    if ms == [] then m else Upsert(m, ms[..|ms| - 1])[ms[|ms| - 1].key := ms[|ms| - 1]]
  }

  function Keys(ms: seq<Member>): set<MemberKey> {
    set m | m in ms :: m.key
  }

  /** The group after one event; None is a group that does not exist. */
  function Apply(group: Option<map<MemberKey, Member>>, e: GroupEvent): Option<map<MemberKey, Member>> {
    match e.kind
    case Added => Some(Upsert(map[], e.added))
    case Modified => if group.Some? then Some(Upsert(group.value - Keys(e.removed), e.added)) else None
    case Deleted => None
    case Bookmark => group
  }

  /** What Antrea may send next: a creation of an absent group, a patch or deletion of a present one. */
  ghost predicate Follows(group: Option<map<MemberKey, Member>>, e: GroupEvent) {
    match e.kind
    case Added => group.None? && e.removed == []
    case Modified => group.Some? && Keys(e.removed) <= group.value.Keys && DistinctKeys(e.removed)
    case Deleted => group.Some?
    case Bookmark => false
  }

  ghost predicate DistinctKeys(ms: seq<Member>) {
    forall i, j :: 0 <= i < j < |ms| ==> ms[i].key != ms[j].key
  }

  function ApplyAll(es: seq<GroupEvent>): Option<map<MemberKey, Member>> {
    if es == [] then None else Apply(ApplyAll(es[..|es| - 1]), es[|es| - 1])
  }

  ghost predicate WellFormed(es: seq<GroupEvent>) {
    forall i :: 0 <= i < |es| ==> Follows(ApplyAll(es[..i]), es[i])
  }

  function CoalesceAll(p: PendingGroup, es: seq<GroupEvent>): PendingGroup {
    if es == [] then p else Coalesce(CoalesceAll(p, es[..|es| - 1]), es[|es| - 1])
  }

  lemma {:induction false} AddAllIsUpsert(p: PendingGroup, ms: seq<Member>)
    requires p.removed == map[]
    ensures AddAll(p, ms) == p.(added := Upsert(p.added, ms))
  {
    if ms != [] {
      AddAllIsUpsert(p, ms[..|ms| - 1]);
      assert p.removed - {ms[|ms| - 1].key} == p.removed;
    }
  }

  lemma {:induction false} RemoveAllIsDifference(p: PendingGroup, ms: seq<Member>)
    requires p.removed == map[] && Keys(ms) <= p.added.Keys && DistinctKeys(ms)
    ensures RemoveAll(p, ms) == p.(added := p.added - Keys(ms))
  {
    if ms == [] {
      assert p.added - Keys(ms) == p.added;
    } else {
      var front, last := ms[..|ms| - 1], ms[|ms| - 1];
      assert ms == front + [last];
      assert Keys(ms) == Keys(front) + {last.key};
      RemoveAllIsDifference(p, front);
      assert RemoveAll(p, ms) == RemoveOne(RemoveAll(p, front), last);
      assert last.key !in Keys(front);
      hide RemoveAll, Keys;
      assert p.added - Keys(front) - {last.key} == p.added - Keys(ms);
    }
  }

  /**
   Folding the events of a well-formed history into a fresh entry gives the group the events
   describe, never a leftover removal, and an entry to be replayed as a creation.
   */
  lemma {:induction false} CoalescedIsApplied(start: PendingGroup, es: seq<GroupEvent>)
    requires start.event.None? && start.added == map[] && start.removed == map[]
    requires WellFormed(es)
    ensures CoalesceAll(start, es) == match ApplyAll(es)
                                      case None => start
                                      case Some(group) => start.(event := Some(Added), added := group)
  {
    if es != [] {
      var front, e := es[..|es| - 1], es[|es| - 1];
      assert WellFormed(front) by {
        forall i | 0 <= i < |front| ensures Follows(ApplyAll(front[..i]), front[i]) {
          assert front[..i] == es[..i];
        }
      }
      CoalescedIsApplied(start, front);
      assert es[..|es| - 1] == front;
      assert Follows(ApplyAll(front), e);
      var p := CoalesceAll(start, front);
      if e.kind == Added {
        AddAllIsUpsert(p.(event := Some(Added)), e.added);
      } else if e.kind == Modified {
        RemoveAllIsDifference(p, e.removed);
        AddAllIsUpsert(RemoveAll(p, e.removed), e.added);
      }
    }
  }

  lemma {:induction false} AddAllKeyed(p: PendingGroup, ms: seq<Member>)
    requires Keyed(p.added)
    ensures Keyed(AddAll(p, ms).added)
  {
    if ms != [] {
      AddAllKeyed(p, ms[..|ms| - 1]);
    }
  }

  lemma {:induction false} RemoveAllKeyed(p: PendingGroup, ms: seq<Member>)
    requires Keyed(p.added)
    ensures Keyed(RemoveAll(p, ms).added)
  {
    if ms != [] {
      RemoveAllKeyed(p, ms[..|ms| - 1]);
    }
  }

  /** An entry that can be replayed: members under their own key, as a creation or a patch. */
  ghost predicate Proper(p: PendingGroup) {
    Keyed(p.added) && (p.event == Some(Added) || p.event == Some(Modified) || (p.event == None && p.added == map[]))
  }

  /** Entries stay replayable whatever the events, and events do not touch the count of Deletes. */
  lemma CoalesceProper(p: PendingGroup, e: GroupEvent)
    requires Proper(p) && e.kind != Bookmark
    ensures Proper(Coalesce(p, e))
    ensures Coalesce(p, e).refCnt == p.refCnt && Coalesce(p, e).runOnClear == p.runOnClear
  {
    var named := if p.event.None? then p.(event := Some(e.kind)) else p;
    RemoveAllKeyed(named, e.removed);
    AddAllKeyed(RemoveAll(named, e.removed), e.added);
    FoldsKeepRest(named, e.removed);
    FoldsKeepRest(RemoveAll(named, e.removed), e.added);
  }

  lemma {:induction false} FoldsKeepRest(p: PendingGroup, ms: seq<Member>)
    ensures AddAll(p, ms) == p.(added := AddAll(p, ms).added, removed := AddAll(p, ms).removed)
    ensures RemoveAll(p, ms) == p.(added := RemoveAll(p, ms).added, removed := RemoveAll(p, ms).removed)
  {
    if ms != [] {
      FoldsKeepRest(p, ms[..|ms| - 1]);
    }
  }
}
