/** Slot accounting, per-session serialization, the global cap and work conservation. */
module QueueSlots {
  import opened Wrappers
  import opened Queue
  import opened QueueOrder

  predicate Active(q: State, sid: SessionId) {
    sid in q.sessions && q.sessions[sid].active
  }

  /** Every active session holds one slot, one worker entry and one running task, except that
      `hole` (if any) is a session whose runner has just ended and whose slot is still held. */
  ghost predicate SlotsBut(q: State, hole: Option<SessionId>) {
    && WorkersActive(q) && WorkersRun(q, hole) && RunnersHold(q, hole)
    && (hole.Some? ==> hole.value in q.workers)
    && q.activeCount == |q.workers| == |q.env.running| + (if hole.Some? then 1 else 0)
    && q.activeCount <= Max(0, q.cap)
    && (forall r | r in q.env.running :: r < q.env.clock)
    && (forall t | t in q.env.timers :: t < q.env.clock)
  }

  ghost predicate WorkersActive(q: State) {
    forall s :: s in q.workers <==> Active(q, s)
  }

  ghost predicate WorkersRun(q: State, hole: Option<SessionId>) {
    forall s | s in q.workers && hole != Some(s) :: Runs(q, q.workers[s], s)
  }

  ghost predicate RunnersHold(q: State, hole: Option<SessionId>) {
    forall r | r in q.env.running :: HoldsSlot(q, r, hole)
  }

  /** Runner r is running a task of session s. */
  predicate Runs(q: State, r: RunnerId, s: SessionId) {
    r in q.env.running && q.env.running[r].task.session == s
  }

  /** Runner r is the registered worker of its own session. */
  predicate HoldsSlot(q: State, r: RunnerId, hole: Option<SessionId>)
    requires r in q.env.running
  {
    var s := q.env.running[r].task.session;
    s in q.workers && q.workers[s] == r && hole != Some(s)
  }

  ghost predicate Slots(q: State) { SlotsBut(q, None) }

  /** No slot is free while a waiting task could use it. */
  ghost predicate WorkConserving(q: State) {
    q.activeCount < q.cap ==> forall w | w in q.waiting :: Active(q, w.task.session)
  }

  ghost predicate RetryCounts(q: State) {
    forall s | s in q.sessions :: 0 <= q.sessions[s].retryCount <= MAX_RETRIES
  }

  // ---- Slots ------------------------------------------------------------------------------

  lemma SizeOfPut<K, V>(m: map<K, V>, k: K, v: V)
    ensures |m[k := v]| == |m| + (if k in m then 0 else 1)
  {
    assert m[k := v].Keys == m.Keys + {k};
    assert |m.Keys + {k}| == |m.Keys| + (if k in m then 0 else 1);
  }

  lemma SizeOfDrop<K, V>(m: map<K, V>, k: K)
    requires k in m
    ensures |m - {k}| == |m| - 1
  {
    assert (m - {k}).Keys == m.Keys - {k};
  }

  lemma StartSlots(q: State, it: Item)
    requires Slots(q) && !Session(q, it.task.session).active && q.activeCount < q.cap
    ensures Slots(Start(q, it))
  {
    var sid := it.task.session;
    assert sid !in q.workers;
    SizeOfPut(q.workers, sid, q.env.clock);
    SizeOfPut(q.env.running, q.env.clock, it);
    var q' := Start(q, it);
    forall r | r in q'.env.running ensures HoldsSlot(q', r, None) {
      if r != q.env.clock { assert HoldsSlot(q, r, None); }
    }
    forall s | s in q'.workers ensures Runs(q', q'.workers[s], s) {
      if s != sid { assert Runs(q, q.workers[s], s); }
    }
  }

  lemma AdmitSlots(q: State, it: Item)
    requires Slots(q)
    ensures Slots(Admit(q, it))
  {
    hide SlotsBut, SortByPriority, Start;
    var s := Session(q, it.task.session);
    if !s.active && q.activeCount < q.cap {
      StartSlots(q, it);
    } else {
      assert forall s :: Active(Admit(q, it), s) <==> Active(q, s);
      SameSlots(q, Admit(q, it), None);
    }
  }

  /** Steps that touch neither the slots nor the runners keep the accounting. */
  lemma SameSlots(q: State, q': State, hole: Option<SessionId>)
    requires SlotsBut(q, hole)
    requires q'.workers == q.workers && q'.activeCount == q.activeCount && q'.cap == q.cap
    requires q'.env.running == q.env.running && q'.env.clock >= q.env.clock
    requires q'.env.timers.Keys <= q.env.timers.Keys
    requires forall s :: Active(q', s) <==> Active(q, s)
    ensures SlotsBut(q', hole)
  {
    forall r | r in q'.env.running ensures HoldsSlot(q', r, hole) { assert HoldsSlot(q, r, hole); }
    forall s | s in q'.workers && hole != Some(s) ensures Runs(q', q'.workers[s], s) {
      assert Runs(q, q.workers[s], s);
    }
  }

  lemma StartOneSlots(q: State)
    requires Slots(q) && CanStart(q)
    ensures Slots(StartOne(q))
  {
    hide Start, SlotsBut;
    var i := FirstIdle(q, q.waiting);
    var q1 := q.(waiting := q.waiting[..i] + q.waiting[i + 1..]);
    assert forall s :: Active(q1, s) <==> Active(q, s);
    SameSlots(q, q1, None);
    StartSlots(q1, q.waiting[i]);
  }

  lemma {:induction false} StartFromWaitingSlots(q: State)
    requires Ordered(q) && Slots(q)
    ensures Slots(StartFromWaiting(q))
    decreases |q.waiting|
  {
    hide Ordered, Slots, CanStart, StartOne, StartFromWaiting;
    StartsOneByOne(q);
    if CanStart(q) {
      StartOneOrdered(q);
      StartOneSlots(q);
      StartFromWaitingSlots(StartOne(q));
    }
  }

  /** The clamp `max(0, ...)` never takes effect: a session that gives up a slot held one. */
  lemma VacateSlots(q: State, sid: SessionId)
    requires SlotsBut(q, Some(sid))
    ensures Slots(Vacate(q, sid))
    ensures Vacate(q, sid).activeCount == q.activeCount - 1 >= 0
  {
    SizeOfDrop(q.workers, sid);
    var q' := Vacate(q, sid);
    forall r | r in q'.env.running ensures HoldsSlot(q', r, None) { assert HoldsSlot(q, r, Some(sid)); }
    forall s | s in q'.workers ensures Runs(q', q'.workers[s], s) { assert Runs(q, q.workers[s], s); }
    assert forall s :: Active(q', s) <==> Active(q, s) && s != sid;
  }

  lemma HoleActive(q: State, sid: SessionId)
    requires SlotsBut(q, Some(sid))
    ensures Active(q, sid)
  {}

  lemma ReleaseSlotSlots(q: State, sid: SessionId)
    requires Ordered(q) && SlotsBut(q, Some(sid))
    ensures Slots(ReleaseSlot(q, sid))
  {
    hide Ordered, SlotsBut, Vacate, StartFromWaiting;
    HoleActive(q, sid);
    VacateOrdered(q, sid);
    VacateSlots(q, sid);
    StartFromWaitingSlots(Vacate(q, sid));
  }

  /** The session's next task takes over the slot of the one that ended. */
  lemma RelaunchSlots(q: State, sid: SessionId, s: SessionState, it: Item)
    requires SlotsBut(q, Some(sid)) && it.task.session == sid && s.active
    ensures Slots(Launch(q.(sessions := q.sessions[sid := s], workers := q.workers - {sid}), it))
  {
    var q' := Launch(q.(sessions := q.sessions[sid := s], workers := q.workers - {sid}), it);
    SizeOfDrop(q.workers, sid);
    SizeOfPut(q.workers - {sid}, sid, q.env.clock);
    SizeOfPut(q.env.running, q.env.clock, it);
    forall r | r in q'.env.running ensures HoldsSlot(q', r, None) {
      if r != q.env.clock { assert HoldsSlot(q, r, Some(sid)); }
    }
    forall s | s in q'.workers ensures Runs(q', q'.workers[s], s) {
      if s != sid { assert Runs(q, q.workers[s], s); }
    }
    assert forall s :: Active(q', s) <==> Active(q, s);
  }

  lemma AfterTaskSlots(q: State, sid: SessionId)
    requires Ordered(q) && SlotsBut(q, Some(sid))
    ensures Slots(AfterTask(q, sid))
  {
    hide SlotsBut, SortByPriority, Launch, ReleaseSlot, Sorted;
    HoleActive(q, sid);
    var s := q.sessions[sid];
    if s.pending == [] {
      ReleaseSlotSlots(q, sid);
    } else {
      SortSorted(s.pending);
      var it := s.pending[0];
      assert it in s.pending;
      RelaunchSlots(q, sid, s.(pending := s.pending[1..], idleWaiting := false, isScheduledTask := it.task.kind == Scheduled), it);
    }
  }

  /** When a runner ends, its session alone is left holding a slot without a running task. */
  lemma RemoveRunnerSlots(q: State, r: RunnerId)
    requires Slots(q) && r in q.env.running
    ensures SlotsBut(RemoveRunner(q, r), Some(q.env.running[r].task.session))
  {
    var sid := q.env.running[r].task.session;
    var q' := RemoveRunner(q, r);
    SizeOfDrop(q.env.running, r);
    assert HoldsSlot(q, r, None);
    forall p | p in q'.env.running ensures HoldsSlot(q', p, Some(sid)) { assert HoldsSlot(q, p, None); }
    forall s | s in q'.workers && Some(sid) != Some(s) ensures Runs(q', q'.workers[s], s) {
      assert Runs(q, q.workers[s], s);
    }
  }

  // ---- Work conservation ------------------------------------------------------------------

  /** Whatever the queue looked like, after `_maybe_start_from_waiting` no slot is free that a
      waiting task could use. */
  lemma {:induction false} StartFromWaitingConserves(q: State)
    requires Ordered(q)
    ensures WorkConserving(StartFromWaiting(q))
    decreases |q.waiting|
  {
    hide Ordered, StartOne, StartFromWaiting, WorkConserving, CanStart;
    StartsOneByOne(q);
    if CanStart(q) {
      StartOneOrdered(q);
      StartFromWaitingConserves(StartOne(q));
    } else {
      CannotStart(q);
    }
  }

  lemma CannotStart(q: State)
    requires !CanStart(q)
    ensures WorkConserving(q)
  {
    if q.activeCount < q.cap {
      forall w | w in q.waiting ensures Active(q, w.task.session) {
        var j :| 0 <= j < |q.waiting| && q.waiting[j] == w;
        assert Session(q, q.waiting[j].task.session).active;
      }
    }
  }

  lemma AdmitConserves(q: State, it: Item)
    requires WorkConserving(q) && Ordered(q)
    ensures WorkConserving(Admit(q, it))
  {
    var q' := Admit(q, it);
    if q'.activeCount < q'.cap {
      forall w | w in q'.waiting ensures Active(q', w.task.session) {
        assert w in q.waiting;
        assert Active(q, w.task.session);
      }
    }
  }

  // ---- Every step -------------------------------------------------------------------------

  /** What every reachable state satisfies, apart from the ledger. */
  ghost predicate Good(q: State) {
    Ordered(q) && Slots(q) && WorkConserving(q) && RetryCounts(q)
  }

  /** In a good state every runner can end: its session is known. */
  lemma RunnersKnown(q: State, r: RunnerId, ok: bool)
    requires Slots(q) && RetryCounts(q) && r in q.env.running
    ensures Enabled(q, DoFinish(r, ok))
  {
    assert HoldsSlot(q, r, None);
  }

  lemma StartOneRetryCounts(q: State)
    requires RetryCounts(q) && CanStart(q)
    ensures RetryCounts(StartOne(q))
  {}

  lemma {:induction false} StartFromWaitingRetryCounts(q: State)
    requires Ordered(q) && RetryCounts(q)
    ensures RetryCounts(StartFromWaiting(q))
    decreases |q.waiting|
  {
    hide Ordered, StartOne, StartFromWaiting, RetryCounts, CanStart;
    StartsOneByOne(q);
    if CanStart(q) {
      StartOneOrdered(q);
      StartOneRetryCounts(q);
      StartFromWaitingRetryCounts(StartOne(q));
    }
  }

  lemma VacateRetryCounts(q: State, sid: SessionId)
    requires sid in q.sessions && RetryCounts(q)
    ensures RetryCounts(Vacate(q, sid))
  {}

  lemma ReleaseSlotGood(q: State, sid: SessionId)
    requires Ordered(q) && SlotsBut(q, Some(sid)) && RetryCounts(q)
    ensures Good(ReleaseSlot(q, sid))
  {
    hide Ordered, SlotsBut, WorkConserving, RetryCounts, Vacate, StartFromWaiting;
    HoleKnown(q, sid);
    ReleaseSlotOrdered(q, sid);
    ReleaseSlotSlots(q, sid);
    VacateOrdered(q, sid);
    VacateRetryCounts(q, sid);
    StartFromWaitingConserves(Vacate(q, sid));
    StartFromWaitingRetryCounts(Vacate(q, sid));
  }

  lemma AfterTaskGood(q: State, sid: SessionId)
    requires Ordered(q) && SlotsBut(q, Some(sid)) && RetryCounts(q)
    requires q.sessions[sid].pending != [] ==> WorkConserving(q)
    ensures Good(AfterTask(q, sid))
  {
    hide Ordered, SlotsBut, SortByPriority, ReleaseSlot;
    HoleKnown(q, sid);
    AfterTaskOrdered(q, sid);
    AfterTaskSlots(q, sid);
    if q.sessions[sid].pending == [] {
      ReleaseSlotGood(q, sid);
    }
  }

  /** q' differs from q in its ledger, timers, sentinels and clock at most. */
  ghost predicate Quiet(q: State, q': State) {
    && q'.(env := q.env) == q
    && q'.env.running == q.env.running && q'.env.clock >= q.env.clock
    && forall t | t in q'.env.timers :: t in q.env.timers || t < q'.env.clock
  }

  lemma QuietSlots(q: State, q': State, hole: Option<SessionId>)
    requires SlotsBut(q, hole) && Quiet(q, q')
    ensures SlotsBut(q', hole)
  {
    forall r | r in q'.env.running ensures HoldsSlot(q', r, hole) { assert HoldsSlot(q, r, hole); }
    forall s | s in q'.workers && hole != Some(s) ensures Runs(q', q'.workers[s], s) {
      assert Runs(q, q.workers[s], s);
    }
    assert forall s :: Active(q', s) <==> Active(q, s);
  }

  lemma QuietGood(q: State, q': State, hole: Option<SessionId>)
    requires Ordered(q) && SlotsBut(q, hole) && WorkConserving(q) && RetryCounts(q) && Quiet(q, q')
    ensures Ordered(q') && SlotsBut(q', hole) && WorkConserving(q') && RetryCounts(q')
  {
    hide Ordered, SlotsBut;
    assert Ordered(q') by { QuietOrdered(q, q'); }
    QuietSlots(q, q', hole);
    assert forall s :: Active(q', s) <==> Active(q, s);
  }

  lemma QuietOrdered(q: State, q': State)
    requires Ordered(q) && q'.(env := q.env) == q && q'.env.clock >= q.env.clock
    ensures Ordered(q')
  {}

  lemma SetRetryCountGood(q: State, sid: SessionId, n: int, hole: Option<SessionId>)
    requires Ordered(q) && SlotsBut(q, hole) && WorkConserving(q) && RetryCounts(q)
    requires sid in q.sessions && 0 <= n <= MAX_RETRIES
    ensures var q' := SetRetryCount(q, sid, n);
            Ordered(q') && SlotsBut(q', hole) && WorkConserving(q') && RetryCounts(q')
  {
    hide Ordered;
    SetRetryCountOrdered(q, sid, n);
    SameSlots(q, SetRetryCount(q, sid, n), hole);
    assert forall s :: Active(SetRetryCount(q, sid, n), s) <==> Active(q, s);
  }

  lemma HoleKnown(q: State, sid: SessionId)
    requires SlotsBut(q, Some(sid)) && RetryCounts(q)
    ensures Active(q, sid) && 0 <= q.sessions[sid].retryCount <= MAX_RETRIES
  {
    HoleActive(q, sid);
  }

  lemma HandleFailureGood(q: State, it: Item)
    requires Ordered(q) && SlotsBut(q, Some(it.task.session)) && RetryCounts(q) && WorkConserving(q)
    requires it.task.session in q.sessions && q.sessions[it.task.session].retryCount >= 0
    ensures Good(HandleFailure(q, it))
  {
    hide Ordered, SlotsBut, WorkConserving, RetryCounts, StartFromWaiting, Vacate;
    var sid := it.task.session;
    var hole := Some(sid);
    HoleKnown(q, sid);
    var n := q.sessions[sid].retryCount + 1;
    if n > MAX_RETRIES {
      QuietGood(q, Abandon(q, it), hole);
      SetRetryCountGood(Abandon(q, it), sid, 0, hole);
      AfterTaskGood(SetRetryCount(Abandon(q, it), sid, 0), sid);
    } else {
      SetRetryCountGood(q, sid, n, hole);
      var q1 := ReleaseSlot(SetRetryCount(q, sid, n), sid);
      ReleaseSlotGood(SetRetryCount(q, sid, n), sid);
      QuietGood(q1, ArmTimer(q1, it, RetryDelay(n)), None);
    }
  }

  lemma FinishGood(q: State, r: RunnerId, ok: bool)
    requires Good(q) && Enabled(q, DoFinish(r, ok))
    ensures Good(Finish(q, r, ok))
  {
    hide Ordered, SlotsBut, WorkConserving, RetryCounts, AfterTask, HandleFailure;
    var it := q.env.running[r];
    var sid := it.task.session;
    var q1 := RemoveRunner(q, r);
    RemoveRunnerSlots(q, r);
    RemoveRunnerKeeps(q, r);
    if ok {
      QuietGood(q1, Succeed(q1, it), Some(sid));
      SetRetryCountGood(Succeed(q1, it), sid, 0, Some(sid));
      AfterTaskGood(SetRetryCount(Succeed(q1, it), sid, 0), sid);
    } else {
      HandleFailureGood(q1, it);
    }
  }

  lemma RemoveRunnerKeeps(q: State, r: RunnerId)
    requires Ordered(q) && WorkConserving(q) && RetryCounts(q)
    ensures var q' := RemoveRunner(q, r); Ordered(q') && WorkConserving(q') && RetryCounts(q')
  {
    assert forall s :: Active(RemoveRunner(q, r), s) <==> Active(q, s);
  }

  lemma AdmitGood(q: State, it: Item)
    requires Good(q) && ArrivedBefore(q.waiting, it.arrival) && it.arrival < q.env.clock
    requires forall s | s in q.sessions :: ArrivedBefore(q.sessions[s].pending, it.arrival)
    ensures Good(Admit(q, it))
  {
    hide Ordered, SlotsBut, WorkConserving, RetryCounts, Admit, ArrivedBefore;
    AdmitOrdered(q, it);
    AdmitSlots(q, it);
    AdmitConserves(q, it);
    AdmitRetryCounts(q, it);
  }

  lemma AdmitRetryCounts(q: State, it: Item)
    requires RetryCounts(q)
    ensures RetryCounts(Admit(q, it))
  {}

  lemma ArrivedByNow(q: State)
    requires Ordered(q)
    ensures ArrivedBefore(q.waiting, q.env.clock)
    ensures forall s | s in q.sessions :: ArrivedBefore(q.sessions[s].pending, q.env.clock)
  {}

  lemma EnqueueGood(q: State, r: Request)
    requires Good(q)
    ensures Good(Enqueue(q, r))
  {
    hide Ordered, SlotsBut, WorkConserving, RetryCounts, Admit, ArrivedBefore;
    if !q.shuttingDown {
      var it := Item(q.env.clock, q.env.clock, TaskOf(r));
      QuietGood(q, Accept(q, it), None);
      ArrivedByNow(q);
      AdmitGood(Accept(q, it), it);
    }
  }

  lemma FireGood(q: State, t: TimerId)
    requires Good(q) && t in q.env.timers
    ensures Good(Fire(q, t))
  {
    hide Ordered, SlotsBut, WorkConserving, RetryCounts, Admit, ArrivedBefore;
    var it := q.env.timers[t].item;
    var q1 := RemoveTimer(q, t);
    var r := RetryRequest(it.task);
    if q.shuttingDown || r.None? {
      QuietGood(q, Drop(q1, it), None);
    } else {
      QuietGood(q, Tick(q1), None);
      ArrivedByNow(q);
      AdmitGood(Tick(q1), Item(it.origin, q1.env.clock, TaskOf(r.value)));
    }
  }

  lemma OtherStepShape(q: State, step: Step)
    requires !step.DoEnqueue? && !step.DoFinish? && !step.DoFire? && RetryCounts(q)
    ensures RetryCounts(Apply(q, step)) && forall s :: Active(Apply(q, step), s) <==> Active(q, s)
  {}

  lemma SameWork(q: State, q': State)
    requires WorkConserving(q) && q'.waiting == q.waiting && q'.activeCount == q.activeCount && q'.cap == q.cap
    requires forall s :: Active(q', s) <==> Active(q, s)
    ensures WorkConserving(q')
  {
    hide Active;
  }

  lemma OtherStepGood(q: State, step: Step)
    requires Good(q) && !step.DoEnqueue? && !step.DoFinish? && !step.DoFire?
    ensures Good(Apply(q, step))
  {
    hide Ordered, SlotsBut, WorkConserving, RetryCounts, Active;
    var q' := Apply(q, step);
    StepOrdered(q, step);
    OtherStepShape(q, step);
    SameSlots(q, q', None);
    SameWork(q, q');
  }

  lemma StepGood(q: State, step: Step)
    requires Good(q) && Enabled(q, step)
    ensures Good(Apply(q, step))
  {
    hide Good, Enqueue, Finish, Fire;
    match step
    case DoEnqueue(r) => EnqueueGood(q, r);
    case DoFinish(r, ok) => FinishGood(q, r, ok);
    case DoFire(t) => FireGood(q, t);
    case _ => OtherStepGood(q, step);
  }
}
