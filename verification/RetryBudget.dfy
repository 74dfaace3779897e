/** How long an item can stay in the retry queue, and how often it can run. */
module RetryBudget {
  import opened PolicyTypes
  import opened GroupMachine
  import opened GroupInvariants
  import opened GroupProgress

  /** The queue turns to an item, by the ticker or on an update; the item may ask to run, and may be done. */
  datatype Turn = Ticked(asks: bool, done: bool) | Updated(asks: bool, done: bool)

  /** An item as the queue counts it. */
  datatype Life = Queued(left: int, tickRuns: nat, runs: nat) | Gone(tickRuns: nat, runs: nat)

  /** CheckToRun and Update of PendingItemQueue, for one counted item. */
  function Take(life: Life, t: Turn): Life {
    match life
    case Gone(_, _) => life
    case Queued(left, tickRuns, runs) =>
      match t
      case Ticked(asks, done) =>
        if !asks then life
        else if left > 0 then
          if done then Gone(tickRuns + 1, runs + 1) else Queued(left - 1, tickRuns + 1, runs + 1)
        else Gone(tickRuns, runs)
      case Updated(asks, done) =>
        if asks then
          if done || left - 1 <= 0 then Gone(tickRuns, runs + 1) else Queued(left - 1, tickRuns, runs + 1)
        else if left <= 0 then Gone(tickRuns, runs) else life
  }

  function Lived(n: nat, turns: seq<Turn>): Life {
    if turns == [] then Queued(n, 0, 0) else Take(Lived(n, turns[..|turns| - 1]), turns[|turns| - 1])
  }

  /** Ticks on which the item asked to run. */
  function Asks(turns: seq<Turn>): nat {
    if turns == [] then 0
    else Asks(turns[..|turns| - 1]) + if turns[|turns| - 1].Ticked? && turns[|turns| - 1].asks then 1 else 0
  }

  /**
   With a budget of n: while queued, runs and remaining budget add up to n; at most n runs come from ticks and n + 1 in
   all; and after n + 1 ticks on which it asked to run, the item is gone.
   */
  lemma {:induction false} BudgetBounds(n: nat, turns: seq<Turn>)
    ensures Lived(n, turns).Queued? ==> 0 <= Lived(n, turns).left && Lived(n, turns).left + Lived(n, turns).runs == n
    ensures Lived(n, turns).tickRuns <= n && Lived(n, turns).tickRuns <= Lived(n, turns).runs <= n + 1
    ensures Lived(n, turns).Queued? ==> Asks(turns) <= n - Lived(n, turns).left
    ensures Asks(turns) > n ==> Lived(n, turns).Gone?
  {
    if turns != [] {
      BudgetBounds(n, turns[..|turns| - 1]);
    }
  }

  /** Both bounds are reached: n ticks and one update run an item n + 1 times. */
  lemma {:induction false} BudgetIsTight(n: nat)
    ensures Lived(n, seq(n, _ => Ticked(true, false)) + [Updated(true, false)]) == Gone(n, n + 1)
  {
    var ticks := seq(n, _ => Ticked(true, false));
    TicksSpend(n, n);
    assert (ticks + [Updated(true, false)])[..n] == ticks;
  }

  lemma {:induction false} TicksSpend(n: nat, k: nat)
    requires k <= n
    ensures Lived(n, seq(k, _ => Ticked(true, false))) == Queued(n - k, k, k)
  {
    if k > 0 {
      TicksSpend(n, k - 1);
      assert seq(k, _ => Ticked(true, false))[..k - 1] == seq(k - 1, _ => Ticked(true, false));
    }
  }

  /** What the queue holds under a key, seen as a life. */
  ghost predicate Shows(s: State, key: QueueKey, life: Life) {
    if key in s.retryQueue then life.Queued? && s.retryQueue[key].opCnt == life.left &&
        s.retryQueue[key].runs == life.runs else life.Gone?
  }

  /** A tick of the reconciler is a turn of the item. */
  lemma TickIsTurn(s: State, id: Id, tickRuns: nat)
    requires Inv(s) && SgKey(id) in s.retryQueue
    ensures var item := s.retryQueue[SgKey(id)];
            item.SgItem? && item.ref in s.groups &&
            var o := s.groups[item.ref];
            Shows(TickItem(s, item), SgKey(id), Take(Queued(item.opCnt, tickRuns, item.runs), Ticked(Runs(o), Done(o))))
  {
    hide Inv, Evolves, RunItem;
    QueuedLive(s, SgKey(id));
    var item := s.retryQueue[SgKey(id)];
    if Runs(s.groups[item.ref]) {
      RunItemKeeps(s, item.ref);
    }
  }

  /** An update of the reconciler that checks the item is a turn of the item. */
  lemma CheckIsTurn(s: State, id: Id, tickRuns: nat)
    requires Inv(s) && SgKey(id) in s.retryQueue
    ensures var item := s.retryQueue[SgKey(id)];
            item.SgItem? && item.ref in s.groups &&
            var o := s.groups[item.ref];
            Shows(CheckItem(s, item), SgKey(id),
                Take(Queued(item.opCnt, tickRuns, item.runs), Updated(Runs(o), Done(o))))
  {
    hide Inv, Evolves, RunItem;
    QueuedLive(s, SgKey(id));
    var item := s.retryQueue[SgKey(id)];
    if Runs(s.groups[item.ref]) {
      RunItemKeeps(s, item.ref);
    }
  }

  // ---------------------------------------------------------------- over runs of the reconciler

  /** The recorded runs of an item since it was last queued. */
  function Streak(ran: seq<Ran>, key: QueueKey): nat {
    if ran == [] then 0
    else
      var front, last := ran[..|ran| - 1], ran[|ran| - 1];
      if last.key != key then Streak(front, key) else if last.nth == 1 then 1 else Streak(front, key) + 1
  }

  lemma {:induction false} StreakIsLastRun(ran: seq<Ran>, key: QueueKey)
    requires forall i :: 0 <= i < |ran| ==> Numbered(ran, i)
    ensures Streak(ran, key) == LastRun(ran, key) <= if key.GroupKey? then OPERATION_COUNT else OPERATION_COUNT + 1
  {
    if ran != [] {
      var n := |ran| - 1;
      forall i | 0 <= i < n ensures Numbered(ran[..n], i) {
        assert Numbered(ran, i) && ran[..n][..i] == ran[..i];
      }
      StreakIsLastRun(ran[..n], key);
      assert Numbered(ran, n);
    }
  }

  /**
   After any run of events: since it was queued, a security group has run at most n + 1 times and a member group at most
   n times; one that is still queued has run exactly as often as the record says, at least once for each tick on which
   it asked to, and at most n times.
   */
  lemma RunsBounded(s: State, key: QueueKey)
    requires Settled(s)
    ensures Streak(s.past.ran, key) <= if key.GroupKey? then OPERATION_COUNT else OPERATION_COUNT + 1
    ensures key in s.retryQueue ==>
              && s.retryQueue[key].asks <= s.retryQueue[key].runs <= OPERATION_COUNT
              && (s.retryQueue[key].runs > 0 ==> Streak(s.past.ran, key) == s.retryQueue[key].runs)
  {
    hide Linked, Grounded, Lifecycle, PoliciesSound, Confirmed, Orderly, Traced, Numbered, LastRun, Streak;
    StreakIsLastRun(s.past.ran, key);
  }

  // ---------------------------------------------------------------- armed groups

  /** What the retry of an operation asks of the cloud, if anything. */
  function Asked(s: State, g: Ref, op: Op): Option<CallKind>
    requires g in s.groups
  {
    var o := s.groups[g];
    match op
    case CreateOp => if s.synced then Some(CreateCall) else None
    case UpdateMembersOp => if o.members != {} && o.state == Created then Some(MembersCall) else None
    case DeleteOp => Some(DeleteCall)
    case _ => if o.id.kind == AppliedTo then OwedRequest(s.policies, o.(retryOp := None)) else None
  }

  function Requests(s: State, g: Ref, op: Op): seq<Call>
    requires g in s.groups
  {
    match Asked(s, g, op)
    case None => []
    case Some(what) => [Call(g, s.groups[g].id, what)]
  }

  lemma ReissueAsks(s: State, g: Ref, op: Op)
    requires g in s.groups && s.groups[g].retryOp.None? && (s.groups[g].state == Garbage <==> op == DeleteOp)
    ensures Reissue(s, g, op).inflight == s.inflight + Requests(s, g, op)
  {
    hide RuleRefs, AddImpl, UpdateImpl, UpdateRules, OwedRequest, IssueDelete;
    assert s.groups[g].(retryOp := None) == s.groups[g];
    match op
    case CreateOp => AddAsks(s, g, Some(op));
    case UpdateMembersOp => UpdateAsks(s, g, Some(op));
    case DeleteOp => IssueDeleteAppends(Expect(s, s.groups[g].id.Group()), g, Some(op));
    case _ => UpdateRulesIssues(s, g, Some(op));
  }

  lemma AddAsks(s: State, g: Ref, retried: Option<Op>)
    requires g in s.groups && s.groups[g].retryOp.None?
    ensures AddImpl(s, g, retried).inflight ==
              s.inflight + if s.synced then [Call(g, s.groups[g].id, CreateCall)] else []
  {
  }

  lemma UpdateAsks(s: State, g: Ref, retried: Option<Op>)
    requires g in s.groups && s.groups[g].retryOp.None?
    ensures UpdateImpl(s, g, {}, {}, retried).inflight ==
              s.inflight + if s.groups[g].members != {} && s.groups[g].state == Created
                           then [Call(g, s.groups[g].id, MembersCall)] else []
  {
    hide Emit, RuleRefs;
    EmitAppends(Merge(s, g, {}, {}), g, MembersCall, retried);
  }

  lemma AskedFrame(s: State, g: Ref, op: Op)
    requires g in s.groups
    ensures Requests(Put(s, g, s.groups[g].(retryOp := None)), g, op) == Requests(s, g, op)
  {
    hide OwedRequest;
    assert s.groups[g].(retryOp := None) == s.groups[g].(retryOp := None).(retryOp := None);
  }

  /** A run of an armed item adds what it asks of the cloud, and leaves it waiting. */
  lemma ArmedAsks(s: State, g: Ref, op: Op)
    requires g in s.groups && s.groups[g].retryOp == Some(op) && (s.groups[g].state == Garbage <==> op == DeleteOp)
    ensures RunArmed(s, g, op).inflight == s.inflight + Requests(s, g, op)
    ensures !Runs(RunArmed(s, g, op).groups[g])
  {
    ReissueAsks(Put(s, g, s.groups[g].(retryOp := None)), g, op);
    AskedFrame(s, g, op);
    hide Reissue, Requests;
  }

  lemma AwaitedToo(inflight: seq<Call>, reporting: Option<Report>, c: Call, op: Op)
    ensures Awaited(inflight + [c], reporting, c.id, op) <==>
            Awaited(inflight, reporting, c.id, op) || Carries(c.what, op)
    ensures Quiet(inflight + [c], reporting, c.id) <==> Quiet(inflight, reporting, c.id) && c.what.DeleteCall?
  {
    var more := inflight + [c];
    assert more[|inflight|] == c && forall i :: 0 <= i < |inflight| ==> more[i] == inflight[i];
  }

  /**
   When the run of an armed item strands it. Nothing outstanding for the group, and nothing the run itself asks for, may
   be answered under the name of the operation. And if the item leaves the queue or has no budget left, nothing else
   is outstanding either.
   */
  lemma RunStrands(s: State, item: RetryItem, op: Op, tick: bool, drop: bool)
    requires Inv(s) && OnQueue(s, item) && s.groups[item.ref].retryOp == Some(op) && Runs(s.groups[item.ref])
    requires s.groups[item.ref].state != Garbage && !Panics(s.groups[item.ref])
    ensures var id, asked := s.groups[item.ref].id, Asked(s, item.ref, op);
            Stranded(RunAndCharge(s, item, tick, drop), item.ref) <==>
            && !Awaited(s.inflight, s.past.reporting, id, op) && (asked.Some? ==> !Carries(asked.value, op))
            && ((!drop && item.opCnt > 1) || (Quiet(s.inflight, s.past.reporting, id) && asked.None?))
  {
    var g, id := item.ref, s.groups[item.ref].id;
    ArmedOp(s, g);
    ArmedAsks(s, g, op);
    RunItemKeeps(s, g);
    hide Inv, RunArmed, Asked, Advances, Live, InRecord, Panics, Stranded, Conclude, Moves;
    KeptAdvances(s, RunArmed(s, g, op));
    var run := Ran(SgKey(id), Some(op), item.runs + 1, tick);
    LeftStranded(s, RunArmed(s, g, op), item, op, run, Panics(s.groups[g]), tick, drop);
  }

  lemma LeftStranded(s: State, t: State, item: RetryItem, op: Op, run: Ran, panics: bool, tick: bool, drop: bool)
    requires item.SgItem? && item.ref in s.groups && item.ref in t.groups && t.past.reporting == s.past.reporting
    requires t.groups[item.ref].id == s.groups[item.ref].id && t.groups[item.ref].state == s.groups[item.ref].state
    requires t.groups[item.ref].retryOp == s.groups[item.ref].retryOp
    requires t.inflight == s.inflight + Requests(s, item.ref, op) && !Runs(t.groups[item.ref])
    requires s.groups[item.ref].retryOp == Some(op) && s.groups[item.ref].state != Garbage && op != DeleteOp
    requires run.key == SgKey(s.groups[item.ref].id)
    ensures var id, asked := s.groups[item.ref].id, Asked(s, item.ref, op);
            Stranded(Conclude(t, run, panics, if drop then None else Some(Charged(item, tick))), item.ref) <==>
            && !Awaited(s.inflight, s.past.reporting, id, op) && (asked.Some? ==> !Carries(asked.value, op))
            && ((!drop && item.opCnt > 1) || (Quiet(s.inflight, s.past.reporting, id) && asked.None?))
  {
    var g, id := item.ref, s.groups[item.ref].id;
    NotDeleted(s, g, op);
    assert s.inflight + [] == s.inflight;
    if Asked(s, g, op).Some? {
      AwaitedToo(s.inflight, s.past.reporting, Call(g, id, Asked(s, g, op).value), op);
    }
    hide Asked, Awaited, Quiet, Carries;
    LeftAffords(t, item, run, panics, tick, drop);
    hide Affords, Charged;
  }

  lemma LeftAffords(t: State, item: RetryItem, run: Ran, panics: bool, tick: bool, drop: bool)
    requires item.SgItem? && run.key.SgKey?
    ensures var u := Conclude(t, run, panics, if drop then None else Some(Charged(item, tick)));
            Affords(u.retryQueue, run.key.id, item.ref) <==> !drop && item.opCnt > 1
  {
  }

  lemma ArmedOp(s: State, g: Ref)
    requires Inv(s) && g in s.groups && s.groups[g].retryOp.Some?
    ensures s.groups[g].state == Garbage <==> s.groups[g].retryOp.value == DeleteOp
  {
    hide Grounded, PoliciesSound, Confirmed, Housed, Orderly, Condemned;
  }

  /** A failure wakes the waiting item of its group exactly if it is reported as the operation being retried. */
  lemma FailureWakes(s: State, i: nat, op: Op, g: Ref)
    requires Linked(s) && MayAnswer(s, i, op) && SgKey(s.inflight[i].id) in s.retryQueue && Answerable(s, i)
    requires g == s.retryQueue[SgKey(s.inflight[i].id)].ref && !Runs(s.groups[g])
    ensures g in FailedAnswer(s, i, op).groups
    ensures Runs(FailedAnswer(s, i, op).groups[g]) <==> s.groups[g].retryOp == Some(op)
  {
    var c := s.inflight[i];
    var t := TakenUp(Answer(s, i, op), c.ref, op, true);
    assert t.retryQueue == s.retryQueue && t.groups[g].id == c.id && t.groups[c.ref].id == c.id;
    assert t.groups[g].retryOp == s.groups[g].retryOp && t.groups[g].retryInProgress == s.groups[g].retryInProgress;
    hide Linked, TakenUp, Answer, MayAnswer, SettleRetry;
    SettleWakes(t, c.ref, op, g);
  }

  lemma SettleWakes(s: State, r: Ref, op: Op, g: Ref)
    requires r in s.groups && SgKey(s.groups[r].id) in s.retryQueue && Held(s, SgKey(s.groups[r].id))
    requires g == s.retryQueue[SgKey(s.groups[r].id)].ref && !Runs(s.groups[g])
    ensures g in SettleRetry(s, r, op, true).groups
    ensures Runs(SettleRetry(s, r, op, true).groups[g]) <==> s.groups[g].retryOp == Some(op)
  {
  }

  lemma InflightAnswerable(s: State, i: nat)
    requires Inv(s) && i < |s.inflight|
    ensures Answerable(s, i)
  {
    hide Grounded, Lifecycle, PoliciesSound, Confirmed, Housed, Orderly, Condemned;
  }

  lemma FailureKeeps(s: State, g: Ref, op: Op)
    requires Inv(s) && Live(s, g) && Reported(s, g, op) && op != DeleteOp
    requires s.groups[g].state == Init && !s.past.overlapped ==>
               forall j :: 0 <= j < |s.inflight| ==> s.inflight[j].ref != g
    ensures Held(s, SgKey(s.groups[g].id))
    ensures Kept(s, SettleRetry(TakenUp(s, g, op, true), g, op, true))
  {
    var t := TakenUp(s, g, op, true);
    assert t == s || t == Put(s, g, s.groups[g].(status := Failed));
    hide Inv, Evolves, SettleRetry, TakenUp, Live, Reported;
    KeptSelf(s);
    FailedStatusKeeps(s, g, op);
    SettleRetryKeeps(t, g, op, true);
    KeptTrans(s, t, SettleRetry(t, g, op, true));
  }

  lemma FailedStatusKeeps(s: State, g: Ref, op: Op)
    requires Inv(s) && Live(s, g) && Reported(s, g, op)
    requires s.groups[g].state == Init && !s.past.overlapped ==>
               forall j :: 0 <= j < |s.inflight| ==> s.inflight[j].ref != g
    ensures var t := Put(s, g, s.groups[g].(status := Failed)); Kept(s, t) && Live(t, g) && Reported(t, g, op)
  {
    hide Inv, Evolves, Namers;
    PutKeeps(s, g, s.groups[g].(status := Failed));
    hide MayWake;
  }

  /** The failure of a request is a step like any other. */
  lemma FailedAnswerKeeps(s: State, i: nat, op: Op)
    requires Inv(s) && s.past.reporting.None? && MayAnswer(s, i, op)
    ensures Answerable(s, i) && Brought(s, FailedAnswer(s, i, op), {})
  {
    hide Inv, Kept, Carried, Calm, SettleRetry, Live, Reported;
    InflightAnswerable(s, i);
    var g, s1 := s.inflight[i].ref, Answer(s, i, op);
    assert op != DeleteOp && FailedAnswer(s, i, op) == Rest(SettleRetry(TakenUp(s1, g, op, true), g, op, true));
    hide FailedAnswer, MayAnswer, Answerable, TakenUp, Answer, Rest;
    AnswerReported(s, i, op);
    FailureKeeps(s1, g, op);
    AnsweredKeeps(s, i, op, SettleRetry(TakenUp(s1, g, op, true), g, op, true));
  }

  /**
   A queued retry that waits, with budget left, is stranded exactly if no failure still to come can wake it. (A
   success under the name of the operation would end it.)
   */
  lemma StrandedExact(s: State, g: Ref)
    requires Settled(s) && g in s.groups && !Runs(s.groups[g]) && s.groups[g].state != Garbage
    requires Affords(s.retryQueue, s.groups[g].id, g)
    ensures forall i: nat :: i < |s.inflight| ==> Answerable(s, i)
    ensures Stranded(s, g) <==>
            forall i: nat, op :: MayAnswer(s, i, op) && s.inflight[i].id == s.groups[g].id ==>
              g in FailedAnswer(s, i, op).groups && !Runs(FailedAnswer(s, i, op).groups[g])
  {
    var id, armed := s.groups[g].id, s.groups[g].retryOp.value;
    ArmedOp(s, g);
    assert Linked(s) && s.past.reporting.None?;
    assert forall i: nat :: i < |s.inflight| ==> Answerable(s, i);
    hide Settled, Linked, FailedAnswer, Answerable;
    forall i: nat, op | MayAnswer(s, i, op) && s.inflight[i].id == id
      ensures g in FailedAnswer(s, i, op).groups
      ensures Runs(FailedAnswer(s, i, op).groups[g]) <==> armed == op
    {
      FailureWakes(s, i, op, g);
    }
    if i :| 0 <= i < |s.inflight| && s.inflight[i].id == id && Carries(s.inflight[i].what, armed) {
      assert MayAnswer(s, i, armed);
    }
  }

  /** Only garbage asks for Deletes. */
  lemma NotDeleted(s: State, g: Ref, op: Op)
    requires g in s.groups
    ensures Asked(s, g, op) == Some(DeleteCall) <==> op == DeleteOp
  {
    hide Namers, RuleRefs;
  }

  lemma ReleaseDrops(s: State, g: Ref)
    requires g in s.groups && s.groups[g].id.Group() in s.pendingDelete
    ensures var t, id := Release(s, g, None), s.groups[g].id;
            && t.groups[g].retryOp.None? && SgKey(id) !in t.retryQueue && id !in t.index
            && (if s.groups[g].state == Init && s.groups[g].status != InProgress then t.groups[g].state == Init &&
                  t.inflight == s.inflight
                else t.groups[g].state == Garbage && t.inflight == s.inflight + [Call(g, id, DeleteCall)])
  {
    hide IssueDelete, Unfile;
    var init := s.groups[g].state == Init && s.groups[g].status != InProgress;
    UnfileDrops(s, g, if init then Init else Garbage);
    if !init {
      IssueDeleteAppends(Unfile(s, g, Garbage), g, None);
    }
  }

  lemma UnfileDrops(s: State, g: Ref, state: GroupState)
    requires g in s.groups
    ensures var t, id := Unfile(s, g, state), s.groups[g].id;
            && g in t.groups && t.groups[g].retryOp.None? && t.groups[g].state == state && t.groups[g].id == id
            && SgKey(id) !in t.retryQueue && id !in t.index && t.inflight == s.inflight
            && t.pendingDelete == s.pendingDelete
  {
  }

  lemma IssueDeleteAppends(s: State, g: Ref, retried: Option<Op>)
    requires g in s.groups && s.groups[g].id.Group() in s.pendingDelete
    ensures var t := IssueDelete(s, g, retried);
            && t.groups[g] == s.groups[g].(status := InProgress) && t.retryQueue == s.retryQueue && t.index == s.index
            && t.inflight == s.inflight + [Call(g, s.groups[g].id, DeleteCall)]
  {
  }

  /**
   A deletion no policy holds up supersedes the retry: disarmed, out of the queue and the index, one Delete issued at
   most.
   */
  lemma DeleteSupersedes(s: State, g: Ref)
    requires g in s.groups && s.groups[g].state != Garbage && Namers(s.policies, s.groups[g].id.Group()) == {}
    ensures var t, id := DeleteImpl(s, g, None), s.groups[g].id;
            && t.groups[g].retryOp.None? && SgKey(id) !in t.retryQueue && id !in t.index
            && (if s.groups[g].state == Init && s.groups[g].status != InProgress then t.groups[g].state == Init &&
                  t.inflight == s.inflight
                else t.groups[g].state == Garbage && t.inflight == s.inflight + [Call(g, id, DeleteCall)])
  {
    hide Release;
    ReleaseDrops(Expect(s, s.groups[g].id.Group()), g);
  }
}
