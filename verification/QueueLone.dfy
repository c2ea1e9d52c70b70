/** A lone task from its enqueue to its end: the retry bound from an empty queue on. */
module QueueLone {
  import opened Wrappers
  import opened Queue
  import opened QueueOrder
  import opened QueueSlots
  import opened QueueLedger
  import opened QueueStranded
  import opened QueueRuns
  import opened QueueRetries
  import opened QueueEmptyIds

  // ---- The session of an armed timer is known -----------------------------------------------

  ghost predicate TimersKnown(q: State) { forall t | t in q.env.timers :: q.env.timers[t].item.task.session in q.sessions }

  ghost predicate Grows(q: State, q': State) { forall s | s in q.sessions :: s in q'.sessions }

  lemma {:induction false} StartFromWaitingGrows(q: State)
    requires Ordered(q)
    ensures Grows(q, StartFromWaiting(q))
    decreases |q.waiting|
  {
    hide Ordered, StartFromWaiting;
    StartsOneByOne(q);
    if CanStart(q) {
      StartOneOrdered(q);
      StartFromWaitingGrows(StartOne(q));
    }
  }

  lemma ReleaseSlotGrows(q: State, sid: SessionId)
    requires Ordered(q) && sid in q.sessions
    ensures Grows(q, ReleaseSlot(q, sid))
  {
    hide Ordered, StartFromWaiting;
    VacateOrdered(q, sid);
    StartFromWaitingGrows(Vacate(q, sid));
  }

  lemma AfterTaskGrows(q: State, sid: SessionId)
    requires Ordered(q) && sid in q.sessions
    ensures Grows(q, AfterTask(q, sid))
  {
    hide Ordered, ReleaseSlot, SortByPriority;
    if q.sessions[sid].pending == [] { ReleaseSlotGrows(q, sid); }
  }

  lemma FinishGrows(q: State, r: RunnerId, ok: bool)
    requires Ordered(q) && Enabled(q, DoFinish(r, ok))
    ensures Grows(q, Finish(q, r, ok))
  {
    hide Ordered, ReleaseSlot, AfterTask;
    var it := q.env.running[r];
    var sid := it.task.session;
    var q1 := RemoveRunner(q, r);
    QuietOrdered(q, q1);
    if ok {
      QuietOrdered(q, Succeed(q1, it));
      SetRetryCountOrdered(Succeed(q1, it), sid, 0);
      AfterTaskGrows(SetRetryCount(Succeed(q1, it), sid, 0), sid);
    } else {
      var n := q1.sessions[sid].retryCount + 1;
      if n > MAX_RETRIES {
        QuietOrdered(q, Abandon(q1, it));
        SetRetryCountOrdered(Abandon(q1, it), sid, 0);
        AfterTaskGrows(SetRetryCount(Abandon(q1, it), sid, 0), sid);
      } else {
        SetRetryCountOrdered(q1, sid, n);
        ReleaseSlotGrows(SetRetryCount(q1, sid, n), sid);
      }
    }
  }

  lemma FinishTimers(q: State, r: RunnerId, ok: bool)
    requires Good(q) && Enabled(q, DoFinish(r, ok)) && TimersKnown(q)
    ensures TimersKnown(Finish(q, r, ok))
  {
    hide Ordered, SlotsBut, WorkConserving, RetryCounts, Finish, Live, Settled;
    FinishGrows(q, r, ok);
    FinishLive(q, r, ok);
  }

  lemma AdmitTimers(q: State, it: Item)
    requires TimersKnown(q)
    ensures TimersKnown(Admit(q, it))
  {
    hide SortByPriority, SomeTaskPreempts;
  }

  lemma StepTimers(q: State, step: Step)
    requires Good(q) && Enabled(q, step) && TimersKnown(q)
    ensures TimersKnown(Apply(q, step))
  {
    hide Good, Finish, Admit, TaskOf, RetryRequest;
    match step
    case DoEnqueue(r) =>
      if !q.shuttingDown {
        var it := Item(q.env.clock, q.env.clock, TaskOf(r));
        AdmitTimers(Accept(q, it), it);
      }
    case DoFinish(r, ok) => FinishTimers(q, r, ok);
    case DoFire(t) =>
      var it := q.env.timers[t].item;
      var q1 := RemoveTimer(q, t);
      var r := RetryRequest(it.task);
      if !(q.shuttingDown || r.None?) { AdmitTimers(Tick(q1), Item(it.origin, q1.env.clock, TaskOf(r.value))); }
    case _ =>
  }

  lemma {:induction false} RunTimers(q: State, steps: seq<Step>)
    requires Inv(q) && IsRun(q, steps) && TimersKnown(q)
    ensures TimersKnown(After(q, steps))
    decreases |steps|
  {
    hide Inv, Apply, TimersKnown, Enabled;
    if steps != [] {
      InvGood(q);
      StepTimers(q, steps[0]);
      StepInv(q, steps[0]);
      RunTimers(Apply(q, steps[0]), steps[1..]);
    }
  }

  lemma ReachableTimers(cap: int, q: State)
    requires Reachable(cap, q)
    ensures TimersKnown(q)
  {
    hide Inv;
    var steps :| IsRun(Init(cap), steps) && After(Init(cap), steps) == q;
    InitInv(cap);
    RunTimers(Init(cap), steps);
  }

  // ---- The enqueue --------------------------------------------------------------------------

  /** The session has nothing running, pending, waiting or in backoff. */
  ghost predicate NothingOf(q: State, sid: SessionId) {
    && (sid in q.sessions ==> !q.sessions[sid].active && q.sessions[sid].pending == [])
    && (forall w | w in q.waiting :: w.task.session != sid)
    && NoTimer(q, sid)
  }

  ghost predicate NoneDropped(q: State, sid: SessionId) { forall a | a in q.env.dropped :: a.task.session != sid }

  lemma {:induction false} OfNone(s: seq<Item>, sid: SessionId)
    ensures Of(s, sid) == [] <==> forall w | w in s :: w.task.session != sid
    decreases |s|
  {
    if s != [] {
      var n := |s| - 1;
      OfNone(s[..n], sid);
      assert s == s[..n] + [s[n]];
    }
  }

  /** A session with nothing of its own has a retry count only if a task of it has been dropped. */
  lemma NoCountLeft(q: State, sid: SessionId)
    requires Inv(q) && NothingOf(q, sid) && NoneDropped(q, sid)
    ensures Session(q, sid).retryCount == 0
  {
    hide Ordered, SlotsBut, WorkConserving, Conserved;
    assert sid in q.sessions ==> Fine(q, sid);
  }

  lemma NothingStays(q: State, it: Item, sid: SessionId)
    requires NothingOf(q, sid)
    ensures NothingOf(Accept(q, it), sid)
  {
    forall t ensures !TimerOf(Accept(q, it), t, sid) { assert !TimerOf(q, t, sid); }
  }

  /** The failures the session still has to its account. */
  function Account(q: State, sid: SessionId): nat { Max(0, Session(q, sid).retryCount) }

  /** Enqueued for a session with nothing of its own, a task is alone there, with as many failures
      to its account as the session's retry count. */
  lemma AdmitLone(q: State, it: Item)
    requires Ordered(q) && RetryCounts(q) && NothingOf(q, it.task.session)
    ensures Alone(Admit(q, it), it.task.session, KeyOf(it), Account(q, it.task.session))
  {
    hide Of, SortByPriority, SomeTaskPreempts, SessionOrdered, Sorted, Alone;
    var sid := it.task.session;
    OfNone(q.waiting, sid);
    if sid in q.sessions {
      assert Absent(q, sid, q.sessions[sid].retryCount);
      AdmitAlone(q, it, q.sessions[sid].retryCount);
    } else {
      AdmitFirst(q, it);
    }
  }

  lemma AdmitFirst(q: State, it: Item)
    requires Ordered(q) && it.task.session !in q.sessions && Of(q.waiting, it.task.session) == []
    requires NoTimer(q, it.task.session)
    ensures Alone(Admit(q, it), it.task.session, KeyOf(it), 0)
  {
    hide Of, SortByPriority, SomeTaskPreempts, SessionOrdered, Sorted;
    var sid := it.task.session;
    var q' := Admit(q, it);
    OfAppend(q.waiting, it, sid);
    hide Ordered;
    assert NoTimer(q', sid) by { forall u ensures !TimerOf(q', u, sid) { assert !TimerOf(q, u, sid); } }
    if q.activeCount >= q.cap {
      assert LoneWaiting(q', sid, KeyOf(it), 0);
    } else {
      assert LoneRunning(q', sid, KeyOf(it), 0);
    }
  }

  /** The accepted task of an enqueue. */
  function Enqueued(q: State, r: Request): Accepted { Accepted(q.env.clock, TaskOf(r)) }

  /** In every reachable state: a client's enqueue for a session with nothing of its own starts a
      lone task; with a clean account, unless a task of the session was dropped earlier. */
  lemma EnqueueAlone(cap: int, q: State, r: Request)
    requires Reachable(cap, q) && !q.shuttingDown && NothingOf(q, r.session)
    ensures Alone(Apply(q, DoEnqueue(r)), r.session, Enqueued(q, r), Account(q, r.session))
    ensures NoneDropped(q, r.session) ==> Account(q, r.session) == 0
  {
    hide Reachable, Inv, Alone, NothingOf, Apply, NoneDropped;
    ReachableInv(cap, q);
    if NoneDropped(q, r.session) { NoCountLeft(q, r.session); }
    EnqueueLone(q, r);
  }

  lemma EnqueueLone(q: State, r: Request)
    requires Inv(q) && !q.shuttingDown && NothingOf(q, r.session)
    ensures Alone(Apply(q, DoEnqueue(r)), r.session, Enqueued(q, r), Account(q, r.session))
  {
    var it := Item(q.env.clock, q.env.clock, TaskOf(r));
    assert it.task.session == r.session && KeyOf(it) == Enqueued(q, r);
    assert Account(Accept(q, it), r.session) == Account(q, r.session);
    AcceptOrdered(q, it) by { InvGood(q); }
    hide Conserved, ServedBut, Ordered, SlotsBut, WorkConserving, Admit, Alone, NothingOf, Account, TaskOf;
    NothingStays(q, it, r.session);
    AdmitLone(Accept(q, it), it);
  }

  lemma AcceptOrdered(q: State, it: Item)
    requires Good(q)
    ensures Ordered(Accept(q, it)) && RetryCounts(Accept(q, it))
  {
    hide SlotsBut, WorkConserving, Ordered;
    QuietOrdered(q, Accept(q, it));
  }

  /** A session no client has named yet has nothing of its own. */
  lemma UnknownHasNothing(cap: int, q: State, sid: SessionId)
    requires Reachable(cap, q) && sid !in q.sessions
    ensures NothingOf(q, sid)
  {
    ReachableTimers(cap, q);
    ReachableInv(cap, q);
    hide Reachable, Conserved, ServedBut, SlotsBut, WorkConserving, RetryCounts;
    forall t ensures !TimerOf(q, t, sid) {}
  }

  // ---- To the end ---------------------------------------------------------------------------

  lemma NothingIsAbsent(q: State, sid: SessionId, a: Accepted, f: nat)
    requires Alone(q, sid, a, f)
    ensures NothingOf(q, sid) <==> f == MAX_RETRIES + 1
    ensures f == MAX_RETRIES + 1 ==> a in q.env.abandoned && q.sessions[sid].retryCount == 0
  {
    OfNone(q.waiting, sid);
    assert forall t :: TimerOf(q, t, sid) ==> !NoTimer(q, sid);
  }

  /** A lone task with f failures to its session's account, from its start. */
  lemma LoneToTheEnd(q: State, steps: seq<Step>, sid: SessionId, a: Accepted, f: nat)
    requires Inv(q) && !q.shuttingDown && IsRun(q, steps) && AllOnlyFailures(q, steps, sid)
    requires FromApi(a.task) && !Unretryable(a.task) && Alone(q, sid, a, f) && f <= MAX_RETRIES
    ensures var t, runs := After(q, steps), Failures(q, steps, sid);
      && (NothingOf(t, sid) <==> f + runs == MAX_RETRIES + 1)
      && f + runs <= MAX_RETRIES + 1
      && (NothingOf(t, sid) ==>
            && Backoffs(q, steps, sid) == Schedule(f, MAX_RETRIES)
            && a in t.env.abandoned && sid in t.sessions && t.sessions[sid].retryCount == 0)
  {
    hide Inv, Alone, Apply, FromApi, Unretryable, OnlyFailures, IsRun, After, AllOnlyFailures, Failures, Backoffs, Schedule,
         NothingOf;
    RetryBound(q, steps, sid, a, f);
    NothingIsAbsent(After(q, steps), sid, a, f + Failures(q, steps, sid));
    AbandonedKnown(After(q, steps), sid, a, f + Failures(q, steps, sid));
  }

  /** From a new queue on: after any run, a task enqueued for a session with nothing of its own,
      which no later enqueue joins and which always fails, is out of the queue if and only if it
      has run exactly MAX_RETRIES + 1 times, less the failures the session still had to its
      account: none, unless a task of it had been dropped. Then it waited BASE, 2 BASE, 4 BASE, ...
      between its runs, is abandoned, and has left its session a clean account. */
  lemma LoneTaskRuns(cap: int, before: seq<Step>, r: Request, steps: seq<Step>)
    requires IsRun(Init(cap), before)
    requires var q := After(Init(cap), before);
      && !q.shuttingDown && NothingOf(q, r.session) && !Unretryable(TaskOf(r))
      && IsRun(Apply(q, DoEnqueue(r)), steps) && AllOnlyFailures(Apply(q, DoEnqueue(r)), steps, r.session)
    ensures var q := After(Init(cap), before);
      var q1 := Apply(q, DoEnqueue(r));
      var t, sid, runs, f := After(q1, steps), r.session, Failures(q1, steps, r.session), Account(q, r.session);
      && (NoneDropped(q, sid) ==> f == 0)
      && (NothingOf(t, sid) <==> f + runs == MAX_RETRIES + 1)
      && f + runs <= MAX_RETRIES + 1
      && (NothingOf(t, sid) ==>
            && Backoffs(q1, steps, sid) == Schedule(f, MAX_RETRIES)
            && Enqueued(q, r) in t.env.abandoned && sid in t.sessions && t.sessions[sid].retryCount == 0)
  {
    var q := After(Init(cap), before);
    var q1 := Apply(q, DoEnqueue(r));
    assert Enabled(q, DoEnqueue(r)) && Reachable(cap, q);
    hide Inv, Alone, Apply, FromApi, Unretryable, IsRun, After, AllOnlyFailures, Failures, Backoffs, Schedule,
         NothingOf, NoneDropped, TaskOf, Enabled, Init, Account, Reachable;
    EnqueueAlone(cap, q, r);
    ReachableInv(cap, q);
    AccountBound(q, r.session);
    EnqueueUp(q, r);
    StepInv(q, DoEnqueue(r));
    TaskFromApi(r);
    LoneToTheEnd(q1, steps, r.session, Enqueued(q, r), Account(q, r.session));
  }

  lemma AccountBound(q: State, sid: SessionId)
    requires Inv(q)
    ensures Account(q, sid) <= MAX_RETRIES
  {
    hide Ordered, SlotsBut, WorkConserving, Conserved, ServedBut;
  }

  lemma AbandonedKnown(q: State, sid: SessionId, a: Accepted, f: nat)
    requires Alone(q, sid, a, f)
    ensures sid in q.sessions
  {}

  lemma EnqueueUp(q: State, r: Request)
    ensures Enabled(q, DoEnqueue(r)) && (!q.shuttingDown ==> !Apply(q, DoEnqueue(r)).shuttingDown)
  {
    hide Admit, TaskOf, Settled;
    var it := Item(q.env.clock, q.env.clock, TaskOf(r));
    AdmitBooks(Accept(q, it), it);
  }

  // ---- When a count is left behind ----------------------------------------------------------

  /** After one failure of a task with an empty id, alone in its session: in backoff, then dropped. */
  ghost function CountLeft(
      cap: int, sid: SessionId, fn: ScheduledFn, timers: map<TimerId, Timer>, dropped: multiset<Accepted>): State
  {
    State(cap, map[sid := SessionState(false, false, true, [], None, 1)], [], 0, false, map[],
          Env(map[], timers, multiset{KeyOf(First(sid, fn))}, multiset{}, multiset{}, dropped, {}, 3))
  }

  lemma LoneFails(cap: int, sid: SessionId, fn: ScheduledFn)
    ensures var q := OneRuns(cap, sid, fn, [], multiset{KeyOf(First(sid, fn))}, 2);
      && Enabled(q, DoFinish(1, false))
      && Apply(q, DoFinish(1, false)) == CountLeft(cap, sid, fn, map[2 := Timer(First(sid, fn), 5)], multiset{})
  {
    var q := RemoveRunner(OneRuns(cap, sid, fn, [], multiset{KeyOf(First(sid, fn))}, 2), 1);
    assert q.env.running == map[];
    var q1 := SetRetryCount(q, sid, 1);
    assert q1.workers - {sid} == map[];
    assert ReleaseSlot(q1, sid) == Vacate(q1, sid);
  }

  lemma LoneIsDropped(cap: int, sid: SessionId, fn: ScheduledFn)
    ensures var q := CountLeft(cap, sid, fn, map[2 := Timer(First(sid, fn), 5)], multiset{});
      Enabled(q, DoFire(2)) && Apply(q, DoFire(2)) == CountLeft(cap, sid, fn, map[], multiset{KeyOf(First(sid, fn))})
  {
    var q := CountLeft(cap, sid, fn, map[2 := Timer(First(sid, fn), 5)], multiset{});
    assert q.env.timers - {2} == map[];
  }

  lemma Run3(q: State, s1: Step, s2: Step, s3: Step)
    requires Enabled(q, s1) && Enabled(Apply(q, s1), s2) && Enabled(Apply(Apply(q, s1), s2), s3)
    ensures IsRun(q, [s1, s2, s3]) && After(q, [s1, s2, s3]) == Apply(Apply(Apply(q, s1), s2), s3)
  {
    hide Apply, Enabled;
    var q1 := Apply(q, s1);
    var q2 := Apply(q1, s2);
    assert [s1, s2, s3][1..] == [s2, s3] && [s2, s3][1..] == [s3] && [s3][1..] == [];
    assert IsRun(q2, [s3]) && After(q2, [s3]) == Apply(q2, s3);
    assert IsRun(q1, [s2, s3]) && After(q1, [s2, s3]) == Apply(q2, s3);
  }

  lemma CountLeftReached(clients: Clients, cap: int, sid: SessionId, fn: ScheduledFn)
    requires cap >= 1 && clients(EnqueueScheduled(sid, "", fn))
    ensures ReachableBy(clients, cap, CountLeft(cap, sid, fn, map[], multiset{KeyOf(First(sid, fn))}))
  {
    var s1, s2, s3 := DoEnqueue(EnqueueScheduled(sid, "", fn)), DoFinish(1, false), DoFire(2);
    assert Enabled(Init(cap), s1) && AllByClients(clients, [s1, s2, s3]);
    hide Apply, Init, OneRuns, CountLeft, Enabled, AllByClients;
    FirstStarts(cap, sid, fn);
    LoneFails(cap, sid, fn);
    LoneIsDropped(cap, sid, fn);
    Run3(Init(cap), s1, s2, s3);
  }

  lemma CountIsLeft(cap: int, sid: SessionId, fn: ScheduledFn, dropped: multiset<Accepted>)
    ensures var q := CountLeft(cap, sid, fn, map[], dropped);
      !q.shuttingDown && NothingOf(q, sid) && Account(q, sid) == 1
  {}

  /** A session with nothing of its own, and yet a count that its next task will pay for. */
  ghost predicate Charged(q: State, sid: SessionId) { !q.shuttingDown && NothingOf(q, sid) && Account(q, sid) > 0 }

  lemma ChargedWasEmpty(clients: Clients, cap: int, q: State, sid: SessionId)
    requires ReachableBy(clients, cap, q) && Charged(q, sid)
    ensures exists fn :: clients(EnqueueScheduled(sid, "", fn))
  {
    hide Init, Unretryable, NothingOf, Good, ServedBut;
    var steps :| IsRun(Init(cap), steps) && AllByClients(clients, steps) && After(Init(cap), steps) == q;
    InitInv(cap);
    NothingAccepted(clients, cap);
    RunRequested(clients, Init(cap), steps);
    hide Conserved;
    if NoneDropped(q, sid) { NoCountLeft(q, sid); }
    var a :| a in q.env.dropped && a.task.session == sid;
    DroppedAccepted(q, a);
    DroppedUnretryable(q, a);
    EmptyIdRequest(clients, a.task);
  }

  lemma DroppedUnretryable(q: State, a: Accepted)
    requires Inv(q) && !q.shuttingDown && a in q.env.dropped
    ensures Unretryable(a.task)
  {
    hide Good, ServedBut, Live, Settled, Distinct, Unretryable;
  }

  /** A count can be left behind, with any cap and in any session, if and only if some client may
      enqueue a scheduled task with an empty id for that session. */
  lemma LeavesCountIffEmptyId(clients: Clients, cap: int, sid: SessionId)
    requires cap >= 1
    ensures (exists q :: ReachableBy(clients, cap, q) && Charged(q, sid))
       <==> (exists fn :: clients(EnqueueScheduled(sid, "", fn)))
  {
    hide ReachableBy, NothingOf, Account, CountLeft;
    if fn :| clients(EnqueueScheduled(sid, "", fn)) {
      CountLeftReached(clients, cap, sid, fn);
      CountIsLeft(cap, sid, fn, multiset{KeyOf(First(sid, fn))});
    }
    if q :| ReachableBy(clients, cap, q) && Charged(q, sid) { ChargedWasEmpty(clients, cap, q, sid); }
  }
}
