/** The queue's guarantees over every run, from its creation and after a shutdown. */
module QueueRuns {
  import opened Wrappers
  import opened Queue
  import opened QueueOrder
  import opened QueueSlots
  import opened QueueLedger
  import opened QueueStranded

  /** What every reachable state satisfies. */
  ghost predicate Inv(q: State) { Good(q) && Conserved(q) && ServedBut(q, None) }

  lemma InitInv(cap: int)
    ensures Inv(Init(cap))
  {}

  /** In a reachable state every running task can end: its session is known. */
  lemma RunnerCanEnd(q: State, r: RunnerId, ok: bool)
    requires Inv(q) && r in q.env.running
    ensures Enabled(q, DoFinish(r, ok))
  {
    RunnersKnown(q, r, ok);
  }

  lemma StepInv(q: State, step: Step)
    requires Inv(q) && Enabled(q, step)
    ensures Inv(Apply(q, step))
  {
    hide Good, Conserved, ServedBut, Apply;
    StepGood(q, step);
    StepConserved(q, step);
    StepServed(q, step);
  }

  lemma {:induction false} StartFromWaitingCap(q: State)
    ensures StartFromWaiting(q).cap == q.cap
    decreases |q.waiting|
  {
    hide SortByPriority, FirstIdle;
    if q.waiting != [] && q.activeCount < q.cap {
      var w := SortByPriority(q.waiting);
      var i := FirstIdle(q, w);
      if i < |w| { StartFromWaitingCap(Start(q.(waiting := w[..i] + w[i + 1..]), w[i])); }
    }
  }

  lemma AfterTaskCap(q: State, sid: SessionId)
    requires sid in q.sessions
    ensures AfterTask(q, sid).cap == q.cap && ReleaseSlot(q, sid).cap == q.cap
  {
    hide StartFromWaiting, SortByPriority;
    StartFromWaitingCap(Vacate(q, sid));
  }

  /** The cap is the constructor's, for ever. */
  lemma StepCap(q: State, step: Step)
    requires Enabled(q, step)
    ensures Apply(q, step).cap == q.cap
  {
    hide AfterTask, ReleaseSlot, SortByPriority, SomeTaskPreempts, TaskOf, RetryRequest;
    if step.DoFinish? {
      var q1 := RemoveRunner(q, step.runner);
      var it := q.env.running[step.runner];
      var sid := it.task.session;
      AfterTaskCap(SetRetryCount(Succeed(q1, it), sid, 0), sid);
      AfterTaskCap(SetRetryCount(Abandon(q1, it), sid, 0), sid);
      AfterTaskCap(SetRetryCount(q1, sid, q.sessions[sid].retryCount + 1), sid);
    }
  }

  lemma {:induction false} RunInv(q: State, steps: seq<Step>)
    requires Inv(q) && IsRun(q, steps)
    ensures Inv(After(q, steps)) && After(q, steps).cap == q.cap
    decreases |steps|
  {
    hide Inv, Apply;
    if steps != [] {
      StepInv(q, steps[0]);
      StepCap(q, steps[0]);
      RunInv(Apply(q, steps[0]), steps[1..]);
    }
  }

  /** A state some run from a new queue of capacity `cap` ends in. */
  ghost predicate Reachable(cap: int, q: State) {
    exists steps :: IsRun(Init(cap), steps) && After(Init(cap), steps) == q
  }

  lemma ReachableInv(cap: int, q: State)
    requires Reachable(cap, q)
    ensures Inv(q) && q.cap == cap
  {
    hide Inv;
    var steps :| IsRun(Init(cap), steps) && After(Init(cap), steps) == q;
    InitInv(cap);
    RunInv(Init(cap), steps);
  }

  // ---- Guarantees of every reachable state --------------------------------------------------

  lemma SlotsCounted(q: State)
    requires Slots(q)
    ensures q.activeCount == |set s | s in q.sessions && q.sessions[s].active|
    ensures forall r, r' | r in q.env.running && r' in q.env.running
                           && q.env.running[r].task.session == q.env.running[r'].task.session :: r == r'
  {
    assert (set s | s in q.sessions && q.sessions[s].active) == q.workers.Keys by {
      forall s ensures s in q.workers <==> Active(q, s) {}
    }
    forall r, r' | r in q.env.running && r' in q.env.running
                   && q.env.running[r].task.session == q.env.running[r'].task.session ensures r == r'
    {
      assert HoldsSlot(q, r, None) && HoldsSlot(q, r', None);
    }
  }

  /** Slot accounting, per-session serialization and the global cap. */
  lemma SlotAccounting(cap: int, q: State)
    requires Reachable(cap, q)
    ensures q.activeCount == |set s | s in q.sessions && q.sessions[s].active|
    ensures q.activeCount == |q.env.running| == |q.workers| <= Max(0, cap)
    ensures forall s :: s in q.workers <==> Active(q, s)
    ensures forall s | s in q.workers :: Runs(q, q.workers[s], s)
    ensures forall r, r' | r in q.env.running && r' in q.env.running
                           && q.env.running[r].task.session == q.env.running[r'].task.session :: r == r'
  {
    ReachableInv(cap, q);
    hide Ordered, WorkConserving, RetryCounts, Conserved, ServedBut, Reachable;
    SlotsCounted(q);
  }

  /** A free slot means that every waiting task's session is busy; so with a cap of at least
      one, a non-empty waiting list means that something is running. */
  lemma NoIdleSlot(cap: int, q: State)
    requires Reachable(cap, q)
    ensures q.activeCount < cap ==> forall w | w in q.waiting :: Active(q, w.task.session)
    ensures cap >= 1 && q.waiting != [] ==> q.env.running != map[]
  {
    ReachableInv(cap, q);
    hide Ordered, RetryCounts, Conserved, ServedBut, Reachable;
    if q.cap >= 1 && q.waiting != [] && q.activeCount < q.cap {
      var s := q.waiting[0].task.session;
      assert q.waiting[0] in q.waiting;
      assert Active(q, s);
      assert Runs(q, q.workers[s], s);
    }
  }

  /** Conservation: each accepted task is in exactly one of the seven places, and before a
      shutdown the last of them holds nothing but scheduled tasks with an empty id. */
  lemma TasksConserved(cap: int, q: State)
    requires Reachable(cap, q)
    ensures Keys(q.waiting) + Pending(q) + Running(q) + InBackoff(q)
            + q.env.succeeded + q.env.abandoned + q.env.dropped == q.env.accepted
    ensures forall a | a in q.env.accepted :: q.env.accepted[a] == 1
    ensures !q.shuttingDown ==> forall a | a in q.env.dropped :: Unretryable(a.task)
  {
    ReachableInv(cap, q);
    hide Good, ServedBut, Keys, Pending, Running, InBackoff, Reachable, FromApi;
    assert Live(q) + Settled(q) == q.env.accepted;
    SumOfSeven(Keys(q.waiting) + Pending(q) + Running(q) + InBackoff(q), q.env.succeeded, q.env.abandoned, q.env.dropped);
  }

  lemma SumOfSeven(l: multiset<Accepted>, s: multiset<Accepted>, a: multiset<Accepted>, d: multiset<Accepted>)
    ensures l + s + a + d == l + (s + a + d)
  {}

  /** No stranded work: before a shutdown, an inactive session with pending tasks has an armed
      retry timer or a waiting task, unless a task of its own, a scheduled one with an empty
      id, has failed and been dropped. */
  lemma NotStranded(cap: int, q: State, sid: SessionId)
    requires Reachable(cap, q) && !q.shuttingDown
    requires sid in q.sessions && !q.sessions[sid].active && q.sessions[sid].pending != []
    ensures || (exists t :: TimerOf(q, t, sid))
            || (exists w :: w in q.waiting && w.task.session == sid)
            || (exists a :: a in q.env.dropped && a.task.session == sid && Unretryable(a.task))
  {
    ReachableInv(cap, q);
    hide Good, Reachable, Distinct, Live;
    assert Fine(q, sid);
  }

  // ---- After a shutdown -------------------------------------------------------------------

  /** The tasks held back: waiting or pending. */
  ghost function Queued(q: State): nat { |Keys(q.waiting)| + |Pending(q)| }

  /** Twice the tasks that may still run, and once the timers that may still expire. */
  ghost function Measure(q: State): nat { 2 * (Queued(q) + |q.env.running|) + |q.env.timers| }

  predicate Internal(step: Step) { step.DoFinish? || step.DoFire? }

  lemma {:induction false} TotalSize<K(!new), V>(m: map<K, V>, f: V -> multiset<Accepted>)
    requires forall k | k in m :: |f(m[k])| == 1
    ensures |Total(m, f)| == |m|
    decreases |m|
  {
    if m != map[] {
      var k :| k in m && Total(m, f) == f(m[k]) + Total(m - {k}, f);
      SizeOfDrop(m, k);
      TotalSize(m - {k}, f);
    }
  }

  lemma LiveSize(q: State)
    ensures |Live(q)| == Queued(q) + |q.env.running| + |q.env.timers|
    ensures Queued(q) == |q.waiting| + |Pending(q)|
  {
    TotalSize(q.env.running, ItemKeys);
    TotalSize(q.env.timers, TimerKeys);
  }

  lemma StartOneGrows(q: State)
    requires Slots(q) && CanStart(q)
    ensures |StartOne(q).env.running| == |q.env.running| + 1
  {
    SizeOfPut(q.env.running, q.env.clock, q.waiting[FirstIdle(q, q.waiting)]);
  }

  lemma {:induction false} StartFromWaitingGrows(q: State)
    requires Ordered(q) && Slots(q)
    ensures |StartFromWaiting(q).env.running| >= |q.env.running|
    decreases |q.waiting|
  {
    hide Ordered, Slots, CanStart, StartOne, StartFromWaiting;
    StartsOneByOne(q);
    if CanStart(q) {
      StartOneOrdered(q);
      StartOneSlots(q);
      StartOneGrows(q);
      StartFromWaitingGrows(StartOne(q));
    }
  }

  /** How many tasks a step starts: the change in what runs, not counting the one that ended. */
  function Started(q: State, step: Step): int
    requires Enabled(q, step)
  {
    |Apply(q, step).env.running| - |q.env.running| + (if step.DoFinish? then 1 else 0)
  }

  lemma AfterTaskGrows(q: State, sid: SessionId)
    requires Ordered(q) && SlotsBut(q, Some(sid)) && sid in q.sessions
    ensures |AfterTask(q, sid).env.running| >= |q.env.running|
  {
    hide SlotsBut, StartFromWaiting, Sorted;
    if q.sessions[sid].pending == [] {
      VacateOrdered(q, sid);
      VacateSlots(q, sid);
      StartFromWaitingGrows(Vacate(q, sid));
    } else {
      FreshRunnerBut(q, sid);
      SizeOfPut(q.env.running, q.env.clock, SortByPriority(q.sessions[sid].pending)[0]);
    }
  }

  lemma FinishGrows(q: State, r: RunnerId, ok: bool)
    requires Good(q) && Enabled(q, DoFinish(r, ok))
    ensures |Finish(q, r, ok).env.running| >= |q.env.running| - 1
  {
    hide Ordered, SlotsBut, RetryCounts, WorkConserving, AfterTask, StartFromWaiting;
    var it := q.env.running[r];
    var sid := it.task.session;
    var q1 := RemoveRunner(q, r);
    RemoveRunnerSlots(q, r);
    RemoveRunnerKeeps(q, r);
    SizeOfDrop(q.env.running, r);
    var n := q.sessions[sid].retryCount + 1;
    if ok {
      KeepsShape(q1, Succeed(q1, it), sid, 0);
      AfterTaskGrows(SetRetryCount(Succeed(q1, it), sid, 0), sid);
    } else if n > MAX_RETRIES {
      KeepsShape(q1, Abandon(q1, it), sid, 0);
      AfterTaskGrows(SetRetryCount(Abandon(q1, it), sid, 0), sid);
    } else {
      KeepsShape(q1, q1, sid, n);
      var q2 := SetRetryCount(q1, sid, n);
      VacateOrdered(q2, sid);
      VacateSlots(q2, sid);
      StartFromWaitingGrows(Vacate(q2, sid));
    }
  }

  /** The tasks on a timer or given up by one. */
  ghost function Failed(q: State): multiset<Accepted> { InBackoff(q) + q.env.dropped }

  lemma FinishDrains(q: State, r: RunnerId, ok: bool)
    requires Inv(q) && q.shuttingDown && Enabled(q, DoFinish(r, ok))
    ensures var q' := Finish(q, r, ok);
            && q'.shuttingDown && Measure(q') < Measure(q) && Failed(q) <= Failed(q')
            && Queued(q') + (|q'.env.running| - |q.env.running| + 1) == Queued(q)
            && |q'.env.running| - |q.env.running| + 1 >= 0
  {
    var q' := Finish(q, r, ok);
    var it := q.env.running[r];
    FinishLive(q, r, ok);
    FinishGrows(q, r, ok);
    LiveSize(q);
    LiveSize(q');
    hide Good, Conserved, ServedBut, Live, Settled, Queued, Finish, Total;
    assert |Live(q')| + |Settled(q')| == |Live(q)| + |Settled(q)| by {
      assert |Live(q') + Settled(q')| == |Live(q) + Settled(q)|;
    }
    if Settled(q') == Settled(q) + multiset{KeyOf(it)} && q'.env.timers == q.env.timers {
      assert |Settled(q')| == |Settled(q)| + 1;
    } else {
      var t, d :| Timed(q, q', it, t, d);
      SizeOfPut(q.env.timers, t, Timer(it, d));
      TotalAdd(q.env.timers, t, Timer(it, d), TimerKeys);
    }
  }

  lemma FireDrains(q: State, t: TimerId)
    requires Inv(q) && q.shuttingDown && t in q.env.timers
    ensures var q' := Fire(q, t);
            && q'.shuttingDown && Measure(q') < Measure(q) && Failed(q) <= Failed(q')
            && Queued(q') == Queued(q) && q'.env.running == q.env.running
  {
    SizeOfDrop(q.env.timers, t);
    TotalSplit(q.env.timers, t, TimerKeys);
    assert Pending(Fire(q, t)) == Pending(q);
  }

  lemma OtherStepDrains(q: State, step: Step)
    requires q.shuttingDown && !Internal(step)
    ensures var q' := Apply(q, step);
            && q'.shuttingDown && Measure(q') == Measure(q) && Failed(q) == Failed(q')
            && Queued(q') == Queued(q) && q'.env.running == q.env.running
  {
    hide Pending, InBackoff, Keys;
    var q' := Apply(q, step);
    SameSessionPending(q, step);
    SameEnv(q, q');
  }

  lemma SameSessionPending(q: State, step: Step)
    requires q.shuttingDown && !Internal(step)
    ensures Pending(Apply(q, step)) == Pending(q)
  {
    hide Pending;
    var q' := Apply(q, step);
    match step
    case DoEnqueue(_) => SameSessions(q, q');
    case DoShutdown => SameSessions(q, q');
    case DoNotifyIdle(sid) => if sid in q.sessions { SamePending(q, q', sid); }
    case DoRegister(sid, _) => SamePending(q, q', sid);
    case DoUnregister(sid) => if sid in q.sessions { SamePending(q, q', sid); }
  }

  lemma StepDrains(q: State, step: Step)
    requires Inv(q) && q.shuttingDown && Enabled(q, step)
    ensures var q' := Apply(q, step);
            && q'.shuttingDown && Failed(q) <= Failed(q')
            && Measure(q') + (if Internal(step) then 1 else 0) <= Measure(q)
            && Queued(q') + Started(q, step) == Queued(q) && Started(q, step) >= 0
  {
    hide Inv, Measure, Queued, Failed, Finish, Fire;
    match step
    case DoFinish(r, ok) => FinishDrains(q, r, ok);
    case DoFire(t) => FireDrains(q, t);
    case _ => OtherStepDrains(q, step);
  }

  function InternalSteps(steps: seq<Step>): nat {
    if steps == [] then 0 else (if Internal(steps[0]) then 1 else 0) + InternalSteps(steps[1..])
  }

  function Starts(q: State, steps: seq<Step>): int
    requires IsRun(q, steps)
    decreases |steps|
  {
    if steps == [] then 0 else Started(q, steps[0]) + Starts(Apply(q, steps[0]), steps[1..])
  }

  /** A shutdown drains: from then on no run has more than `Measure` ends of tasks and expiries
      of timers, at most the tasks waiting or pending then are still started, and a task that
      failed never leaves its timer except to be dropped. */
  lemma {:induction false} ShutdownDrains(q: State, steps: seq<Step>)
    requires Inv(q) && q.shuttingDown && IsRun(q, steps)
    ensures var q' := After(q, steps);
            && Inv(q') && q'.shuttingDown
            && Measure(q') + InternalSteps(steps) <= Measure(q)
            && Queued(q') + Starts(q, steps) == Queued(q) && 0 <= Starts(q, steps) <= Queued(q)
            && Failed(q) <= Failed(q')
    decreases |steps|
  {
    hide Inv, Measure, Queued, Failed, Apply, Started;
    if steps != [] {
      StepInv(q, steps[0]);
      StepDrains(q, steps[0]);
      ShutdownDrains(Apply(q, steps[0]), steps[1..]);
    }
  }

  lemma FailedNotRunning(q: State, r: RunnerId)
    requires Inv(q) && r in q.env.running
    ensures KeyOf(q.env.running[r]) !in Failed(q)
  {
    var a := KeyOf(q.env.running[r]);
    assert a in Running(q) by { TotalHolds(q.env.running, r, a, ItemKeys); }
    hide Good, ServedBut, Keys, Pending, Running, InBackoff, FromApi;
    assert (Live(q) + Settled(q))[a] == q.env.accepted[a];
    assert q.env.accepted[a] <= 1 by { if a in q.env.accepted {} }
  }

  /** Once the queue is shutting down, a task in backoff is never run again. */
  lemma NeverRestarted(q: State, steps: seq<Step>, a: Accepted)
    requires Inv(q) && q.shuttingDown && IsRun(q, steps) && a in InBackoff(q)
    ensures forall r | r in After(q, steps).env.running :: KeyOf(After(q, steps).env.running[r]) != a
  {
    ShutdownDrains(q, steps);
    var q' := After(q, steps);
    assert a in Failed(q');
    forall r | r in q'.env.running ensures KeyOf(q'.env.running[r]) != a {
      hide Inv, Failed;
      FailedNotRunning(q', r);
    }
  }

  lemma HasItem(s: seq<Item>)
    requires s != []
    ensures exists w :: w in s
  {
    assert s[0] in s;
  }

  /** When no task and no timer can end any more, nothing runs and nothing waits. */
  lemma DrainedIsEmpty(q: State)
    requires Inv(q) && q.cap >= 1
    requires forall step | Internal(step) :: !Enabled(q, step)
    ensures q.env.running == map[] && q.env.timers == map[] && q.waiting == [] && q.activeCount == 0
  {
    hide Ordered, Conserved, ServedBut;
    forall r ensures r !in q.env.running {
      assert Internal(DoFinish(r, true));
      if r in q.env.running { RunnersKnown(q, r, true); }
    }
    forall t ensures t !in q.env.timers { assert Internal(DoFire(t)); }
    assert q.env.running == map[];
    assert forall s :: Active(q, s) ==> s in q.workers;
    assert forall w | w in q.waiting :: Active(q, w.task.session);
    if q.waiting != [] { HasItem(q.waiting); }
  }
}
