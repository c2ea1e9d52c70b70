/** Retry with exponential backoff, for a task that is alone in its session and always fails. */
module QueueRetries {
  import opened Wrappers
  import opened Queue
  import opened QueueOrder
  import opened QueueSlots
  import opened QueueLedger
  import opened QueueStranded
  import opened QueueRuns

  /** The items of one session in a list. */
  function Of(s: seq<Item>, sid: SessionId): seq<Item> {
    if s == [] then []
    else Of(s[..|s| - 1], sid) + (if s[|s| - 1].task.session == sid then [s[|s| - 1]] else [])
  }

  lemma {:induction false} OfConcat(a: seq<Item>, b: seq<Item>, sid: SessionId)
    ensures Of(a + b, sid) == Of(a, sid) + Of(b, sid)
  {
    if b == [] {
      assert a + b == a;
    } else {
      var n := |b| - 1;
      OfConcat(a, b[..n], sid);
      assert (a + b)[..|a| + n] == a + b[..n];
    }
  }

  lemma OfOne(x: Item, sid: SessionId)
    ensures Of([x], sid) == if x.task.session == sid then [x] else []
  {
    assert [x][..0] == [];
  }

  lemma {:induction false} OfInsert(s: seq<Item>, x: Item, sid: SessionId)
    ensures x.task.session != sid ==> Of(Insert(s, x), sid) == Of(s, sid)
    ensures x.task.session == sid && Of(s, sid) == [] ==> Of(Insert(s, x), sid) == [x]
  {
    OfOne(x, sid);
    if s == [] || s[|s| - 1].task.priority <= x.task.priority {
      OfConcat(s, [x], sid);
    } else {
      var n := |s| - 1;
      OfInsert(s[..n], x, sid);
      OfConcat(Insert(s[..n], x), [s[n]], sid);
      OfOne(s[n], sid);
    }
  }

  lemma OfAppend(s: seq<Item>, x: Item, sid: SessionId)
    requires Sorted(s)
    ensures x.task.session != sid ==> Of(SortByPriority(s + [x]), sid) == Of(s, sid)
    ensures x.task.session == sid && Of(s, sid) == [] ==> Of(SortByPriority(s + [x]), sid) == [x]
  {
    hide Insert, Of;
    SortSorted(s);
    assert (s + [x])[..|s|] == s;
    OfInsert(s, x, sid);
  }

  lemma OfRemove(s: seq<Item>, i: nat, sid: SessionId)
    requires i < |s|
    ensures s[i].task.session != sid ==> Of(s[..i] + s[i + 1..], sid) == Of(s, sid)
    ensures s[i].task.session == sid && |Of(s, sid)| <= 1 ==> Of(s[..i] + s[i + 1..], sid) == [] && Of(s, sid) == [s[i]]
  {
    hide Of;
    OfConcat(s[..i], s[i + 1..], sid);
    OfConcat(s[..i], [s[i]], sid);
    OfConcat(s[..i] + [s[i]], s[i + 1..], sid);
    OfOne(s[i], sid);
    assert s == s[..i] + [s[i]] + s[i + 1..];
  }

  // ---- Where a lone task is ---------------------------------------------------------------

  ghost predicate NoTimer(q: State, sid: SessionId) { forall t :: !TimerOf(q, t, sid) }

  /** The session is known, inactive, and has nothing anywhere; its retry count is n. */
  ghost predicate Absent(q: State, sid: SessionId, n: int) {
    && sid in q.sessions && !q.sessions[sid].active && q.sessions[sid].pending == []
    && q.sessions[sid].retryCount == n
    && Of(q.waiting, sid) == [] && NoTimer(q, sid)
  }

  ghost predicate LoneRunning(q: State, sid: SessionId, a: Accepted, n: int) {
    && sid in q.sessions && q.sessions[sid].active && q.sessions[sid].pending == []
    && q.sessions[sid].retryCount == n
    && Of(q.waiting, sid) == [] && NoTimer(q, sid)
    && sid in q.workers && q.workers[sid] in q.env.running && KeyOf(q.env.running[q.workers[sid]]) == a
  }

  ghost predicate LoneWaiting(q: State, sid: SessionId, a: Accepted, n: int) {
    && sid in q.sessions && !q.sessions[sid].active && q.sessions[sid].pending == []
    && q.sessions[sid].retryCount == n
    && |Of(q.waiting, sid)| == 1 && KeyOf(Of(q.waiting, sid)[0]) == a && NoTimer(q, sid)
  }

  /** In backoff after the n-th failure, for the delay that goes with it. */
  ghost predicate LoneBackoff(q: State, sid: SessionId, a: Accepted, n: int) {
    && n >= 1
    && sid in q.sessions && !q.sessions[sid].active && q.sessions[sid].pending == []
    && q.sessions[sid].retryCount == n
    && Of(q.waiting, sid) == []
    && (exists t :: TimerOf(q, t, sid))
    && (forall t | TimerOf(q, t, sid) :: KeyOf(q.env.timers[t].item) == a && q.env.timers[t].delay == RetryDelay(n))
    && (forall t, u :: TimerOf(q, t, sid) && TimerOf(q, u, sid) ==> t == u)
  }

  /** Task a, alone in its session, after f failures. */
  ghost predicate Alone(q: State, sid: SessionId, a: Accepted, f: nat) {
    || (f <= MAX_RETRIES && LoneRunning(q, sid, a, f))
    || (f <= MAX_RETRIES && LoneWaiting(q, sid, a, f))
    || (f <= MAX_RETRIES && LoneBackoff(q, sid, a, f))
    || (f == MAX_RETRIES + 1 && Absent(q, sid, 0) && a in q.env.abandoned)
  }

  /** A change that does not concern session sid. */
  ghost predicate SameFor(q: State, q': State, sid: SessionId) {
    && (sid in q.sessions ==>
          && sid in q'.sessions && q'.sessions[sid].active == q.sessions[sid].active
          && q'.sessions[sid].pending == q.sessions[sid].pending
          && q'.sessions[sid].retryCount == q.sessions[sid].retryCount)
    && Of(q'.waiting, sid) == Of(q.waiting, sid)
    && (sid in q.workers && q.workers[sid] in q.env.running ==>
          && sid in q'.workers && q'.workers[sid] == q.workers[sid]
          && q.workers[sid] in q'.env.running && q'.env.running[q.workers[sid]] == q.env.running[q.workers[sid]])
    && (forall t :: TimerOf(q', t, sid) <==> TimerOf(q, t, sid))
    && (forall t | TimerOf(q, t, sid) :: q'.env.timers[t] == q.env.timers[t])
    && q.env.abandoned <= q'.env.abandoned
  }

  lemma SameAlone(q: State, q': State, sid: SessionId, a: Accepted, f: nat)
    requires SameFor(q, q', sid) && Alone(q, sid, a, f)
    ensures Alone(q', sid, a, f)
  {
    if f <= MAX_RETRIES && LoneBackoff(q, sid, a, f) {
      var t :| TimerOf(q, t, sid);
      assert TimerOf(q', t, sid);
      assert LoneBackoff(q', sid, a, f);
    }
  }

  lemma SameAbsent(q: State, q': State, sid: SessionId, n: int)
    requires SameFor(q, q', sid) && Absent(q, sid, n)
    ensures Absent(q', sid, n)
  {}

  // ---- Starting from the waiting list -----------------------------------------------------

  lemma WaitingOther(q: State, q': State, sid: SessionId)
    requires q' == q.(waiting := q'.waiting) && Of(q'.waiting, sid) == Of(q.waiting, sid)
    ensures SameFor(q, q', sid)
  {
    hide Of;
    forall t ensures TimerOf(q', t, sid) <==> TimerOf(q, t, sid) {}
  }

  lemma StartOther(q: State, it: Item, sid: SessionId)
    requires q.env.clock !in q.env.running && it.task.session != sid
    ensures SameFor(q, Start(q, it), sid)
  {
    hide Of;
    forall t ensures TimerOf(Start(q, it), t, sid) <==> TimerOf(q, t, sid) {}
  }

  lemma SameForTrans(q: State, q1: State, q2: State, sid: SessionId)
    requires SameFor(q, q1, sid) && SameFor(q1, q2, sid)
    ensures SameFor(q, q2, sid)
  {
    hide Of;
  }

  lemma StartOneOther(q: State, sid: SessionId)
    requires Slots(q) && CanStart(q) && q.waiting[FirstIdle(q, q.waiting)].task.session != sid
    ensures SameFor(q, StartOne(q), sid)
  {
    hide Of, Slots, SameFor, Start;
    var i := FirstIdle(q, q.waiting);
    var q1 := q.(waiting := q.waiting[..i] + q.waiting[i + 1..]);
    OfRemove(q.waiting, i, sid);
    FreshRunner(q);
    WaitingOther(q, q1, sid);
    StartOther(q1, q.waiting[i], sid);
    SameForTrans(q, q1, StartOne(q), sid);
  }

  lemma {:induction false} NotInOf(s: seq<Item>, i: nat, sid: SessionId)
    requires i < |s| && s[i].task.session == sid
    ensures Of(s, sid) != []
  {
    hide Of;
    OfConcat(s[..i], [s[i]], sid);
    OfConcat(s[..i] + [s[i]], s[i + 1..], sid);
    OfOne(s[i], sid);
    assert s == s[..i] + [s[i]] + s[i + 1..];
  }

  lemma StartOneAlone(q: State, sid: SessionId, a: Accepted, f: nat)
    requires Slots(q) && CanStart(q) && Alone(q, sid, a, f)
    ensures Alone(StartOne(q), sid, a, f)
  {
    var i := FirstIdle(q, q.waiting);
    if q.waiting[i].task.session != sid {
      hide Alone, Slots, SameFor, StartOne;
      StartOneOther(q, sid);
      SameAlone(q, StartOne(q), sid, a, f);
    } else {
      NotInOf(q.waiting, i, sid);
      OfRemove(q.waiting, i, sid);
      assert f <= MAX_RETRIES && LoneWaiting(q, sid, a, f);
      hide Of, Slots;
      forall t ensures !TimerOf(StartOne(q), t, sid) { assert !TimerOf(q, t, sid); }
      assert LoneRunning(StartOne(q), sid, a, f);
    }
  }

  lemma {:induction false} StartFromWaitingAlone(q: State, sid: SessionId, a: Accepted, f: nat)
    requires Ordered(q) && Slots(q) && Alone(q, sid, a, f)
    ensures Alone(StartFromWaiting(q), sid, a, f)
    decreases |q.waiting|
  {
    hide Ordered, Slots, CanStart, StartOne, StartFromWaiting, Alone;
    StartsOneByOne(q);
    if CanStart(q) {
      StartOneOrdered(q);
      StartOneSlots(q);
      StartOneAlone(q, sid, a, f);
      StartFromWaitingAlone(StartOne(q), sid, a, f);
    }
  }

  lemma {:induction false} StartFromWaitingAbsent(q: State, sid: SessionId, n: int)
    requires Ordered(q) && Slots(q) && Absent(q, sid, n)
    ensures Absent(StartFromWaiting(q), sid, n)
    ensures StartFromWaiting(q).env.abandoned == q.env.abandoned && StartFromWaiting(q).env.timers == q.env.timers
    ensures StartFromWaiting(q).env.clock >= q.env.clock
    decreases |q.waiting|
  {
    StartsOneByOne(q);
    if CanStart(q) {
      var i := FirstIdle(q, q.waiting);
      if q.waiting[i].task.session == sid { NotInOf(q.waiting, i, sid); }
      StartOneOther(q, sid);
      SameAbsent(q, StartOne(q), sid, n);
      assert StartOne(q).env.abandoned == q.env.abandoned && StartOne(q).env.timers == q.env.timers
             && StartOne(q).env.clock >= q.env.clock;
      hide Ordered, Slots, CanStart, StartOne, StartFromWaiting, Absent;
      StartOneOrdered(q);
      StartOneSlots(q);
      StartFromWaitingAbsent(StartOne(q), sid, n);
    }
  }

  // ---- Steps of other sessions --------------------------------------------------------------

  /** What an admission leaves alone. */
  lemma AdmitShape(q: State, it: Item, sid: SessionId)
    requires it.task.session != sid
    ensures var q' := Admit(q, it);
      && (sid in q.sessions ==> sid in q'.sessions && q'.sessions[sid] == q.sessions[sid])
      && (q'.waiting == q.waiting || q'.waiting == SortByPriority(q.waiting + [it]))
      && (sid in q.workers ==> sid in q'.workers && q'.workers[sid] == q.workers[sid])
      && (forall r | r in q.env.running && r != q.env.clock :: r in q'.env.running && q'.env.running[r] == q.env.running[r])
      && q'.env.timers == q.env.timers && q'.env.abandoned == q.env.abandoned
  {
    hide SortByPriority, SomeTaskPreempts;
  }

  lemma AdmitOther(q: State, it: Item, sid: SessionId)
    requires Ordered(q) && q.env.clock !in q.env.running && it.task.session != sid
    ensures SameFor(q, Admit(q, it), sid)
  {
    hide Of, SortByPriority, Admit, Sorted, SessionOrdered;
    OfAppend(q.waiting, it, sid);
    AdmitShape(q, it, sid);
  }

  /** q' differs from q in the state of session s2 and in the ledger of settled tasks at most. */
  ghost predicate OtherTouched(q: State, q': State, s2: SessionId) {
    && s2 in q.sessions && s2 in q'.sessions && q'.sessions == q.sessions[s2 := q'.sessions[s2]]
    && q'.waiting == q.waiting && q'.workers == q.workers && q'.env.running == q.env.running
    && q'.env.timers == q.env.timers && q.env.abandoned <= q'.env.abandoned
  }

  lemma OtherTouchedSame(q: State, q': State, s2: SessionId, sid: SessionId)
    requires OtherTouched(q, q', s2) && s2 != sid
    ensures SameFor(q, q', sid)
  {
    forall t ensures TimerOf(q', t, sid) <==> TimerOf(q, t, sid) {}
  }

  lemma VacateOther(q: State, s2: SessionId, sid: SessionId)
    requires s2 in q.sessions && s2 != sid
    ensures SameFor(q, Vacate(q, s2), sid)
  {
    forall t ensures TimerOf(Vacate(q, s2), t, sid) <==> TimerOf(q, t, sid) {}
  }

  lemma AfterTaskOther(q: State, s2: SessionId, sid: SessionId, a: Accepted, f: nat)
    requires Ordered(q) && SlotsBut(q, Some(s2)) && s2 in q.sessions && s2 != sid && Alone(q, sid, a, f)
    ensures Alone(AfterTask(q, s2), sid, a, f)
  {
    var s := q.sessions[s2];
    if s.pending == [] {
      hide Ordered, SlotsBut, Alone, SameFor, Vacate, StartFromWaiting;
      VacateOther(q, s2, sid);
      SameAlone(q, Vacate(q, s2), sid, a, f);
      VacateOrdered(q, s2);
      VacateSlots(q, s2);
      StartFromWaitingAlone(Vacate(q, s2), sid, a, f);
    } else {
      hide SlotsBut, Alone, SameFor, AfterTask;
      RelaunchOther(q, s2, sid);
      SameAlone(q, AfterTask(q, s2), sid, a, f);
    }
  }

  lemma PendingOwned(q: State, sid: SessionId)
    requires Ordered(q) && sid in q.sessions && q.sessions[sid].pending != []
    ensures q.sessions[sid].pending[0].task.session == sid
  {
    assert q.sessions[sid].pending[0] in q.sessions[sid].pending;
  }

  lemma RelaunchShape(q: State, s2: SessionId, sid: SessionId)
    requires s2 in q.sessions && s2 != sid && q.sessions[s2].pending != [] && Ordered(q)
    ensures var q' := AfterTask(q, s2);
      && (sid in q.sessions ==> sid in q'.sessions && q'.sessions[sid] == q.sessions[sid])
      && q'.waiting == q.waiting
      && (sid in q.workers ==> sid in q'.workers && q'.workers[sid] == q.workers[sid])
      && (forall r | r in q.env.running && r != q.env.clock :: r in q'.env.running && q'.env.running[r] == q.env.running[r])
      && q'.env.timers == q.env.timers && q'.env.abandoned == q.env.abandoned
  {
    hide Ordered, SortByPriority;
    RestOrdered(q, s2);
    PendingOwned(q, s2);
  }

  lemma RelaunchOther(q: State, s2: SessionId, sid: SessionId)
    requires Ordered(q) && SlotsBut(q, Some(s2)) && s2 in q.sessions && s2 != sid && q.sessions[s2].pending != []
    ensures SameFor(q, AfterTask(q, s2), sid)
  {
    hide SlotsBut, Ordered, Of, AfterTask;
    FreshRunnerBut(q, s2);
    RelaunchShape(q, s2, sid);
  }

  lemma ArmTimerOther(q: State, it: Item, delay: int, sid: SessionId)
    requires Slots(q) && it.task.session != sid
    ensures SameFor(q, ArmTimer(q, it, delay), sid)
  {
    FreshTimer(q);
    hide Slots;
    forall t ensures TimerOf(ArmTimer(q, it, delay), t, sid) <==> TimerOf(q, t, sid) {}
  }

  lemma HandleFailureOther(q: State, it: Item, sid: SessionId, a: Accepted, f: nat)
    requires Ordered(q) && SlotsBut(q, Some(it.task.session)) && it.task.session in q.sessions
    requires q.sessions[it.task.session].retryCount >= 0
    requires it.task.session != sid && Alone(q, sid, a, f)
    ensures Alone(HandleFailure(q, it), sid, a, f)
  {
    hide Ordered, SlotsBut, Alone, SameFor, AfterTask, StartFromWaiting, Vacate;
    var s2 := it.task.session;
    var n := q.sessions[s2].retryCount + 1;
    if n > MAX_RETRIES {
      var q1 := SetRetryCount(Abandon(q, it), s2, 0);
      KeepsShape(q, Abandon(q, it), s2, 0);
      OtherTouchedSame(q, q1, s2, sid);
      SameAlone(q, q1, sid, a, f);
      AfterTaskOther(q1, s2, sid, a, f);
    } else {
      var q1 := SetRetryCount(q, s2, n);
      KeepsShape(q, q, s2, n);
      OtherTouchedSame(q, q1, s2, sid);
      SameAlone(q, q1, sid, a, f);
      VacateOther(q1, s2, sid);
      SameAlone(q1, Vacate(q1, s2), sid, a, f);
      VacateOrdered(q1, s2);
      VacateSlots(q1, s2);
      StartFromWaitingAlone(Vacate(q1, s2), sid, a, f);
      ReleaseSlotSlots(q1, s2);
      ArmTimerOther(ReleaseSlot(q1, s2), it, RetryDelay(n), sid);
      SameAlone(ReleaseSlot(q1, s2), HandleFailure(q, it), sid, a, f);
    }
  }

  lemma RemoveRunnerOther(q: State, r: RunnerId, sid: SessionId)
    requires Slots(q) && r in q.env.running && q.env.running[r].task.session != sid
    ensures SameFor(q, RemoveRunner(q, r), sid)
  {
    hide Of;
    forall t ensures TimerOf(RemoveRunner(q, r), t, sid) <==> TimerOf(q, t, sid) {}
    if sid in q.workers { assert Runs(q, q.workers[sid], sid); }
  }

  lemma FinishOther(q: State, r: RunnerId, ok: bool, sid: SessionId, a: Accepted, f: nat)
    requires Good(q) && Enabled(q, DoFinish(r, ok)) && q.env.running[r].task.session != sid && Alone(q, sid, a, f)
    ensures Alone(Finish(q, r, ok), sid, a, f)
  {
    hide Ordered, SlotsBut, RetryCounts, WorkConserving, Alone, SameFor, AfterTask, HandleFailure;
    var it := q.env.running[r];
    var s2 := it.task.session;
    var q1 := RemoveRunner(q, r);
    RemoveRunnerOther(q, r, sid);
    SameAlone(q, q1, sid, a, f);
    RemoveRunnerSlots(q, r);
    RemoveRunnerKeeps(q, r);
    if ok {
      var q2 := SetRetryCount(Succeed(q1, it), s2, 0);
      KeepsShape(q1, Succeed(q1, it), s2, 0);
      OtherTouchedSame(q1, q2, s2, sid);
      SameAlone(q1, q2, sid, a, f);
      AfterTaskOther(q2, s2, sid, a, f);
    } else {
      HandleFailureOther(q1, it, sid, a, f);
    }
  }

  lemma FireOther(q: State, t: TimerId, sid: SessionId, a: Accepted, f: nat)
    requires Good(q) && t in q.env.timers && q.env.timers[t].item.task.session != sid && Alone(q, sid, a, f)
    ensures Alone(Fire(q, t), sid, a, f)
  {
    hide Ordered, SlotsBut, RetryCounts, WorkConserving, Alone, SameFor, Admit;
    var it := q.env.timers[t].item;
    var q1 := RemoveTimer(q, t);
    var r := RetryRequest(it.task);
    if q.shuttingDown || r.None? {
      LedgerOther(q, Drop(q1, it), sid);
      SameAlone(q, Drop(q1, it), sid, a, f);
    } else {
      LedgerOther(q, Tick(q1), sid);
      SameAlone(q, Tick(q1), sid, a, f);
      QuietOrdered(q, Tick(q1));
      LaterFresh(q, Tick(q1));
      AdmitOther(Tick(q1), Item(it.origin, q1.env.clock, TaskOf(r.value)), sid);
      SameAlone(Tick(q1), Fire(q, t), sid, a, f);
    }
  }

  /** A change of the ledger, the clock and the timers of other sessions. */
  lemma LedgerOther(q: State, q': State, sid: SessionId)
    requires q'.(env := q.env) == q && q'.env.running == q.env.running && q'.env.abandoned == q.env.abandoned
    requires forall t | t in q'.env.timers :: t in q.env.timers && q'.env.timers[t] == q.env.timers[t]
    requires forall t | t in q.env.timers && t !in q'.env.timers :: !TimerOf(q, t, sid)
    ensures SameFor(q, q', sid)
  {
    forall t ensures TimerOf(q', t, sid) <==> TimerOf(q, t, sid) {}
  }

  lemma LaterFresh(q: State, q': State)
    requires Slots(q) && q'.env.running == q.env.running && q'.env.clock >= q.env.clock
    ensures q'.env.clock !in q'.env.running
  {}

  lemma EnqueueOther(q: State, r: Request, sid: SessionId, a: Accepted, f: nat)
    requires Good(q) && r.session != sid && Alone(q, sid, a, f)
    ensures Alone(Enqueue(q, r), sid, a, f)
  {
    hide Ordered, SlotsBut, RetryCounts, WorkConserving, Alone, SameFor, Admit;
    if !q.shuttingDown {
      var it := Item(q.env.clock, q.env.clock, TaskOf(r));
      var q1 := Accept(q, it);
      LedgerOther(q, q1, sid);
      SameAlone(q, q1, sid, a, f);
      QuietOrdered(q, q1);
      LaterFresh(q, q1);
      AdmitOther(q1, it, sid);
      SameAlone(q1, Admit(q1, it), sid, a, f);
    }
  }

  // ---- Steps of the task itself -------------------------------------------------------------

  lemma ArmTimerBackoff(q: State, it: Item, n: nat)
    requires 1 <= n && Slots(q) && Absent(q, it.task.session, n)
    ensures LoneBackoff(ArmTimer(q, it, RetryDelay(n)), it.task.session, KeyOf(it), n)
  {
    var sid := it.task.session;
    var q' := ArmTimer(q, it, RetryDelay(n));
    FreshTimer(q);
    hide Slots, Of;
    assert TimerOf(q', q.env.clock, sid);
    forall t | TimerOf(q', t, sid) ensures t == q.env.clock { assert t == q.env.clock || TimerOf(q, t, sid); }
  }

  /** The session gives up its slot for good after the attempt that was the last. */
  lemma GiveUpAlone(q: State, it: Item)
    requires Ordered(q) && SlotsBut(q, Some(it.task.session)) && it.task.session in q.sessions
    requires q.sessions[it.task.session].retryCount == MAX_RETRIES && q.sessions[it.task.session].pending == []
    requires Of(q.waiting, it.task.session) == [] && NoTimer(q, it.task.session)
    ensures Absent(HandleFailure(q, it), it.task.session, 0) && KeyOf(it) in HandleFailure(q, it).env.abandoned
  {
    hide Ordered, SlotsBut, Of, StartFromWaiting;
    var sid := it.task.session;
    var q2 := SetRetryCount(Abandon(q, it), sid, 0);
    KeepsShape(q, Abandon(q, it), sid, 0);
    assert Absent(Vacate(q2, sid), sid, 0) by {
      forall t ensures !TimerOf(Vacate(q2, sid), t, sid) { assert !TimerOf(q, t, sid); }
    }
    assert KeyOf(it) in Vacate(q2, sid).env.abandoned;
    hide Absent, Vacate;
    VacateOrdered(q2, sid);
    VacateSlots(q2, sid);
    StartFromWaitingAbsent(Vacate(q2, sid), sid, 0);
  }

  lemma BackOffAlone(q: State, it: Item, f: nat)
    requires Ordered(q) && SlotsBut(q, Some(it.task.session)) && it.task.session in q.sessions
    requires q.sessions[it.task.session].retryCount == f < MAX_RETRIES && q.sessions[it.task.session].pending == []
    requires Of(q.waiting, it.task.session) == [] && NoTimer(q, it.task.session)
    ensures LoneBackoff(HandleFailure(q, it), it.task.session, KeyOf(it), f + 1)
  {
    hide Ordered, SlotsBut, Of, StartFromWaiting, LoneBackoff;
    var sid := it.task.session;
    var q2 := SetRetryCount(q, sid, f + 1);
    KeepsShape(q, q, sid, f + 1);
    assert Absent(Vacate(q2, sid), sid, f + 1) by {
      forall t ensures !TimerOf(Vacate(q2, sid), t, sid) { assert !TimerOf(q, t, sid); }
    }
    hide Absent, Vacate;
    VacateOrdered(q2, sid);
    VacateSlots(q2, sid);
    StartFromWaitingAbsent(Vacate(q2, sid), sid, f + 1);
    ReleaseSlotSlots(q2, sid);
    ArmTimerBackoff(ReleaseSlot(q2, sid), it, f + 1);
  }

  /** The (f+1)-st failure: back to a timer for BASE * 2^f, or given up after the last attempt. */
  lemma FailAlone(q: State, r: RunnerId, sid: SessionId, a: Accepted, f: nat)
    requires Good(q) && r in q.env.running && q.env.running[r].task.session == sid
    requires Enabled(q, DoFinish(r, false)) && Alone(q, sid, a, f)
    ensures f <= MAX_RETRIES
    ensures Alone(Finish(q, r, false), sid, a, f + 1)
    ensures f < MAX_RETRIES ==> LoneBackoff(Finish(q, r, false), sid, a, f + 1)
    ensures f == MAX_RETRIES ==> Absent(Finish(q, r, false), sid, 0)
  {
    assert HoldsSlot(q, r, None);
    assert Active(q, sid);
    assert LoneRunning(q, sid, a, f) && f <= MAX_RETRIES;
    var it := q.env.running[r];
    var q1 := RemoveRunner(q, r);
    assert NoTimer(q1, sid) by { forall t ensures !TimerOf(q1, t, sid) { assert !TimerOf(q, t, sid); } }
    RemoveRunnerSlots(q, r);
    RemoveRunnerKeeps(q, r);
    hide Ordered, SlotsBut, RetryCounts, WorkConserving, Of, NoTimer, HandleFailure, Absent, LoneBackoff;
    if f == MAX_RETRIES { GiveUpAlone(q1, it); } else { BackOffAlone(q1, it, f); }
  }

  lemma BackoffOver(q: State, t: TimerId, sid: SessionId, a: Accepted, f: nat)
    requires TimerOf(q, t, sid) && LoneBackoff(q, sid, a, f)
    ensures Absent(Tick(RemoveTimer(q, t)), sid, f)
  {
    hide Of;
    var q1 := Tick(RemoveTimer(q, t));
    forall u ensures !TimerOf(q1, u, sid) { assert TimerOf(q1, u, sid) ==> TimerOf(q, u, sid); }
  }

  lemma GoodOrdered(q: State)
    requires Good(q)
    ensures Ordered(q) && Slots(q)
  {}

  /** A task of a session that has nothing in the queue starts, or waits for a slot. */
  lemma AdmitAlone(q: State, it: Item, f: nat)
    requires Ordered(q) && Absent(q, it.task.session, f) && f <= MAX_RETRIES
    ensures Alone(Admit(q, it), it.task.session, KeyOf(it), f)
  {
    hide Of, SortByPriority, SessionOrdered, Sorted;
    var sid := it.task.session;
    var q' := Admit(q, it);
    OfAppend(q.waiting, it, sid);
    hide Ordered;
    assert NoTimer(q', sid) by { forall u ensures !TimerOf(q', u, sid) { assert !TimerOf(q, u, sid); } }
    if q.activeCount >= q.cap {
      assert LoneWaiting(q', sid, KeyOf(it), f);
    } else {
      assert LoneRunning(q', sid, KeyOf(it), f);
    }
  }

  /** When its timer expires, the lone task starts or takes its place in the waiting list. */
  lemma FireAlone(q: State, t: TimerId, sid: SessionId, a: Accepted, f: nat)
    requires Good(q) && TimerOf(q, t, sid) && Alone(q, sid, a, f) && !q.shuttingDown
    requires FromApi(a.task) && !Unretryable(a.task)
    ensures Alone(Fire(q, t), sid, a, f)
  {
    hide Good, Ordered, SlotsBut, FromApi, RetryRequest, Admit, Unretryable, Of;
    var it := q.env.timers[t].item;
    assert LoneBackoff(q, sid, a, f) && f <= MAX_RETRIES;
    assert KeyOf(it) == a;
    RetryKeepsTask(a.task);
    var q1 := Tick(RemoveTimer(q, t));
    BackoffOver(q, t, sid, a, f);
    QuietOrdered(q, q1) by { GoodOrdered(q); }
    AdmitAlone(q1, Item(it.origin, q.env.clock, TaskOf(RetryRequest(it.task).value)), f);
  }

  // ---- Every run ----------------------------------------------------------------------------

  /** The step is a failure of session sid's running task. */
  predicate Fails(q: State, step: Step, sid: SessionId) {
    step.DoFinish? && step.runner in q.env.running && q.env.running[step.runner].task.session == sid
  }

  /** No client enqueues for sid, no task of sid succeeds, and no shutdown begins. */
  predicate OnlyFailures(q: State, step: Step, sid: SessionId) {
    match step
    case DoEnqueue(r) => r.session != sid
    case DoFinish(_, ok) => Fails(q, step, sid) ==> !ok
    case DoShutdown => false
    case _ => true
  }

  lemma StaysUp(q: State, step: Step, sid: SessionId)
    requires Good(q) && Enabled(q, step) && OnlyFailures(q, step, sid) && !q.shuttingDown
    ensures !Apply(q, step).shuttingDown
  {
    hide Good, Admit, Finish, FromApi, RetryRequest;
    if step.DoFinish? {
      FinishLive(q, step.runner, step.success);
    } else if step.DoFire? {
      if RetryRequest(q.env.timers[step.timer].item.task).Some? {
        var it := q.env.timers[step.timer].item;
        AdmitBooks(Tick(RemoveTimer(q, step.timer)), Item(it.origin, q.env.clock, TaskOf(RetryRequest(it.task).value)));
      }
    } else if step.DoEnqueue? {
      var it := Item(q.env.clock, q.env.clock, TaskOf(step.request));
      AdmitBooks(Accept(q, it), it);
    }
  }

  lemma OtherKindsSame(q: State, step: Step, sid: SessionId)
    requires step.DoNotifyIdle? || step.DoRegister? || step.DoUnregister?
    ensures SameFor(q, Apply(q, step), sid)
  {
    hide Of;
    forall t ensures TimerOf(Apply(q, step), t, sid) <==> TimerOf(q, t, sid) {}
  }

  lemma OtherKinds(q: State, step: Step, sid: SessionId, a: Accepted, f: nat)
    requires Alone(q, sid, a, f) && (step.DoNotifyIdle? || step.DoRegister? || step.DoUnregister?)
    ensures Alone(Apply(q, step), sid, a, f)
  {
    hide Alone, SameFor, Apply;
    OtherKindsSame(q, step, sid);
    SameAlone(q, Apply(q, step), sid, a, f);
  }

  lemma StepAlone(q: State, step: Step, sid: SessionId, a: Accepted, f: nat)
    requires Good(q) && Enabled(q, step) && OnlyFailures(q, step, sid) && !q.shuttingDown
    requires FromApi(a.task) && !Unretryable(a.task) && Alone(q, sid, a, f)
    ensures Alone(Apply(q, step), sid, a, if Fails(q, step, sid) then f + 1 else f)
    ensures Fails(q, step, sid) && f < MAX_RETRIES ==> LoneBackoff(Apply(q, step), sid, a, f + 1)
    ensures Fails(q, step, sid) ==> f <= MAX_RETRIES
    ensures Fails(q, step, sid) && f == MAX_RETRIES ==> Absent(Apply(q, step), sid, 0)
  {
    hide Good, Alone, LoneBackoff, Absent, Enqueue, Finish, Fire, FromApi, Unretryable;
    match step
    case DoEnqueue(r) => EnqueueOther(q, r, sid, a, f);
    case DoFinish(r, ok) =>
      if Fails(q, step, sid) { FailAlone(q, r, sid, a, f); } else { FinishOther(q, r, ok, sid, a, f); }
    case DoFire(t) =>
      if q.env.timers[t].item.task.session == sid { FireAlone(q, t, sid, a, f); } else { FireOther(q, t, sid, a, f); }
    case _ => OtherKinds(q, step, sid, a, f);
  }

  predicate AllOnlyFailures(q: State, steps: seq<Step>, sid: SessionId)
    requires IsRun(q, steps)
    decreases |steps|
  {
    steps == [] || (OnlyFailures(q, steps[0], sid) && AllOnlyFailures(Apply(q, steps[0]), steps[1..], sid))
  }

  /** How many times session sid's task ran to a failure. */
  function Failures(q: State, steps: seq<Step>, sid: SessionId): nat
    requires IsRun(q, steps)
    decreases |steps|
  {
    if steps == [] then 0
    else (if Fails(q, steps[0], sid) then 1 else 0) + Failures(Apply(q, steps[0]), steps[1..], sid)
  }

  /** The delay of the timer that the step, if it is a failure of session sid, leaves armed. */
  ghost function NewBackoff(q: State, step: Step, sid: SessionId): seq<int>
    requires Enabled(q, step)
  {
    var q1 := Apply(q, step);
    if Fails(q, step, sid) && exists t :: TimerOf(q1, t, sid) then
      var t :| TimerOf(q1, t, sid);
      [q1.env.timers[t].delay]
    else []
  }

  /** The delays of the timers that failures of session sid armed, in order. */
  ghost function Backoffs(q: State, steps: seq<Step>, sid: SessionId): seq<int>
    requires IsRun(q, steps)
    decreases |steps|
  {
    if steps == [] then [] else NewBackoff(q, steps[0], sid) + Backoffs(Apply(q, steps[0]), steps[1..], sid)
  }

  /** The delays after failures lo + 1, ..., hi. */
  function Schedule(lo: nat, hi: nat): seq<int>
    decreases hi - lo
  {
    if lo >= hi then [] else [RetryDelay(lo + 1)] + Schedule(lo + 1, hi)
  }

  function Least(a: nat, b: nat): nat { if a < b then a else b }

  /** The retry bound, over every run and whatever the other sessions do: a task alone in its
      session that always fails runs at most MAX_RETRIES + 1 times; between its runs it waits
      BASE, 2 BASE, 4 BASE, ...; and after the last one it is abandoned, with nothing of the
      session left in the queue and its retry count back at 0. */
  lemma {:induction false} RetryBound(q: State, steps: seq<Step>, sid: SessionId, a: Accepted, f: nat)
    requires Inv(q) && !q.shuttingDown && IsRun(q, steps) && AllOnlyFailures(q, steps, sid)
    requires FromApi(a.task) && !Unretryable(a.task) && Alone(q, sid, a, f)
    ensures var n := f + Failures(q, steps, sid);
            && n <= MAX_RETRIES + 1
            && Alone(After(q, steps), sid, a, n)
            && Backoffs(q, steps, sid) == Schedule(Least(f, MAX_RETRIES), Least(n, MAX_RETRIES))
    decreases |steps|
  {
    hide Inv, Alone, Apply, FromApi, Unretryable, OnlyFailures, Fails, RetryDelay, Schedule, IsRun, After,
         AllOnlyFailures, Failures, Backoffs, Enabled;
    AloneBound(q, sid, a, f);
    if steps == [] {
      EmptyRun(q, sid);
      ScheduleStep(Least(f, MAX_RETRIES), Least(f, MAX_RETRIES));
    } else {
      Unroll(q, steps, sid);
      var q1 := Apply(q, steps[0]);
      StepAloneInv(q, steps[0], sid, a, f);
      if Fails(q, steps[0], sid) {
        RetryBound(q1, steps[1..], sid, a, f + 1);
        ScheduleStep(Least(f, MAX_RETRIES), Least(f + Failures(q, steps, sid), MAX_RETRIES));
      } else {
        RetryBound(q1, steps[1..], sid, a, f);
      }
    }
  }

  /** One step of the run, as the definitions of the run's observations see it. */
  lemma Unroll(q: State, steps: seq<Step>, sid: SessionId)
    requires IsRun(q, steps) && AllOnlyFailures(q, steps, sid) && steps != []
    ensures Enabled(q, steps[0]) && OnlyFailures(q, steps[0], sid)
    ensures var q1 := Apply(q, steps[0]);
            && IsRun(q1, steps[1..]) && AllOnlyFailures(q1, steps[1..], sid)
            && After(q, steps) == After(q1, steps[1..])
            && Failures(q, steps, sid) == (if Fails(q, steps[0], sid) then 1 else 0) + Failures(q1, steps[1..], sid)
            && Backoffs(q, steps, sid) == NewBackoff(q, steps[0], sid) + Backoffs(q1, steps[1..], sid)
  {
    hide Apply, OnlyFailures, Fails, NewBackoff;
  }

  lemma EmptyRun(q: State, sid: SessionId)
    ensures IsRun(q, []) && After(q, []) == q && Failures(q, [], sid) == 0 && Backoffs(q, [], sid) == []
  {}

  lemma StepAloneInv(q: State, step: Step, sid: SessionId, a: Accepted, f: nat)
    requires Inv(q) && Enabled(q, step) && OnlyFailures(q, step, sid) && !q.shuttingDown
    requires FromApi(a.task) && !Unretryable(a.task) && Alone(q, sid, a, f)
    ensures Inv(Apply(q, step)) && !Apply(q, step).shuttingDown
    ensures Alone(Apply(q, step), sid, a, if Fails(q, step, sid) then f + 1 else f)
    ensures Fails(q, step, sid) ==> f <= MAX_RETRIES
    ensures NewBackoff(q, step, sid) == if Fails(q, step, sid) && f < MAX_RETRIES then [RetryDelay(f + 1)] else []
  {
    hide Inv, Good, Alone, Apply, FromApi, Unretryable, OnlyFailures, Fails, RetryDelay, Absent, LoneBackoff, TimerOf;
    InvGood(q);
    StepAlone(q, step, sid, a, f);
    StaysUp(q, step, sid);
    StepInv(q, step);
    if Fails(q, step, sid) {
      if f < MAX_RETRIES { BackoffTimer(Apply(q, step), sid, a, f + 1); } else { AbsentTimer(Apply(q, step), sid, 0); }
    }
  }

  lemma ScheduleStep(lo: nat, hi: nat)
    ensures Schedule(lo, hi) == if lo >= hi then [] else [RetryDelay(lo + 1)] + Schedule(lo + 1, hi)
  {}

  lemma InvGood(q: State)
    requires Inv(q)
    ensures Good(q)
  {}

  lemma AloneBound(q: State, sid: SessionId, a: Accepted, f: nat)
    requires Alone(q, sid, a, f)
    ensures f <= MAX_RETRIES + 1
  {}

  lemma BackoffTimer(q: State, sid: SessionId, a: Accepted, n: nat)
    requires LoneBackoff(q, sid, a, n)
    ensures n >= 1 && (exists t :: TimerOf(q, t, sid))
    ensures forall t | TimerOf(q, t, sid) :: q.env.timers[t].delay == RetryDelay(n)
  {}

  lemma AbsentTimer(q: State, sid: SessionId, n: int)
    requires Absent(q, sid, n)
    ensures !exists t :: TimerOf(q, t, sid)
  {}

  function Sum(s: seq<int>): int { if s == [] then 0 else s[0] + Sum(s[1..]) }

  lemma {:induction false} ScheduleSum(lo: nat, hi: nat)
    requires lo <= hi
    ensures Sum(Schedule(lo, hi)) == BASE_RETRY_S * (Pow2(hi) - Pow2(lo))
    decreases hi - lo
  {
    if lo < hi {
      ScheduleSum(lo + 1, hi);
      assert Schedule(lo, hi)[1..] == Schedule(lo + 1, hi);
    }
  }

  /** The whole of the backoff is BASE * (2^MAX_RETRIES - 1): 5 + 10 + 20 + 40 + 80 seconds. */
  lemma WholeBackoff()
    ensures Schedule(0, MAX_RETRIES) == [5, 10, 20, 40, 80]
    ensures Sum(Schedule(0, MAX_RETRIES)) == BASE_RETRY_S * (Pow2(MAX_RETRIES) - 1) == 155
  {
    ScheduleSum(0, MAX_RETRIES);
    assert Pow2(2) == 4 && Pow2(3) == 8 && Pow2(4) == 16 && Pow2(5) == 32;
    assert Schedule(3, 5) == [40, 80];
    assert Schedule(1, 5) == [10, 20, 40, 80];
  }
}
