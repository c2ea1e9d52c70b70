/** No stranded work: what an inactive session with pending tasks is waiting for. */
module QueueStranded {
  import opened Wrappers
  import opened Queue
  import opened QueueOrder
  import opened QueueSlots
  import opened QueueLedger

  predicate TimerOf(q: State, t: TimerId, sid: SessionId) {
    t in q.env.timers && q.env.timers[t].item.task.session == sid
  }

  /** Something will make the session active again, or a task of it was given up on a timer. */
  ghost predicate Served(q: State, sid: SessionId) {
    || (exists t :: TimerOf(q, t, sid))
    || (exists w :: w in q.waiting && w.task.session == sid)
    || (exists a :: a in q.env.dropped && a.task.session == sid)
  }

  ghost predicate Fine(q: State, sid: SessionId) {
    sid in q.sessions && !q.sessions[sid].active && (q.sessions[sid].pending != [] || q.sessions[sid].retryCount > 0)
    ==> Served(q, sid)
  }

  /** Every inactive session with pending tasks or a retry count is served, `except` one possibly. */
  ghost predicate ServedBut(q: State, except: Option<SessionId>) {
    forall s | s in q.sessions && except != Some(s) :: Fine(q, s)
  }

  /** Nothing that could serve session s has been taken away from it. */
  ghost predicate Keeps(q: State, q': State, s: SessionId) {
    && (s in q'.sessions ==> s in q.sessions && q'.sessions[s].active == q.sessions[s].active
                             && q'.sessions[s].pending == q.sessions[s].pending
                             && q'.sessions[s].retryCount == q.sessions[s].retryCount)
    && (forall t :: TimerOf(q, t, s) ==> TimerOf(q', t, s))
    && (forall w | w in q.waiting && w.task.session == s :: w in q'.waiting)
    && (forall a | a in q.env.dropped && a.task.session == s :: a in q'.env.dropped)
  }

  lemma KeepsFine(q: State, q': State, s: SessionId)
    requires Keeps(q, q', s) && (s in q.sessions ==> Fine(q, s))
    ensures Fine(q', s)
  {
    if s in q'.sessions && !q'.sessions[s].active && (q'.sessions[s].pending != [] || q'.sessions[s].retryCount > 0) {
      assert Served(q, s);
      if t :| TimerOf(q, t, s) {
        assert TimerOf(q', t, s);
      } else if w :| w in q.waiting && w.task.session == s {
        assert w in q'.waiting;
      } else {
        var a :| a in q.env.dropped && a.task.session == s;
        assert a in q'.env.dropped;
      }
    }
  }

  /** A step that concerns one session only. */
  lemma OneChanged(q: State, q': State, sid: SessionId, before: Option<SessionId>, after: Option<SessionId>)
    requires ServedBut(q, before) && (before == Some(sid) || before == after)
    requires forall s | s != sid :: Keeps(q, q', s)
    requires after == Some(sid) || Fine(q', sid)
    ensures ServedBut(q', after)
  {
    hide Keeps, Fine;
    forall s | s in q'.sessions && after != Some(s) ensures Fine(q', s) {
      if s != sid {
        assert Keeps(q, q', s);
        if s in q.sessions { assert before != Some(s); assert Fine(q, s); }
        KeepsFine(q, q', s);
      }
    }
  }

  lemma AdmitServed(q: State, it: Item, before: Option<SessionId>)
    requires ServedBut(q, before) && (before == Some(it.task.session) || before == None)
    requires it in SortByPriority(q.waiting + [it]) && forall w | w in q.waiting :: w in SortByPriority(q.waiting + [it])
    ensures ServedBut(Admit(q, it), None)
  {
    hide SortByPriority, SomeTaskPreempts, ServedBut;
    var sid := it.task.session;
    var q' := Admit(q, it);
    forall s | s != sid ensures Keeps(q, q', s) {
      forall t ensures TimerOf(q, t, s) ==> TimerOf(q', t, s) {}
    }
    assert Fine(q', sid);
    OneChanged(q, q', sid, before, None);
  }

  lemma StartOneServed(q: State, except: Option<SessionId>)
    requires ServedBut(q, except) && CanStart(q)
    ensures ServedBut(StartOne(q), except)
  {
    hide ServedBut;
    var i := FirstIdle(q, q.waiting);
    var it := q.waiting[i];
    var q' := StartOne(q);
    forall s | s != it.task.session ensures Keeps(q, q', s) {
      forall t ensures TimerOf(q, t, s) ==> TimerOf(q', t, s) {}
      forall w | w in q.waiting && w.task.session == s ensures w in q'.waiting {
        var j :| 0 <= j < |q.waiting| && q.waiting[j] == w;
        assert q'.waiting[if j < i then j else j - 1] == w;
      }
    }
    assert Fine(q', it.task.session);
    OneChanged(q, q', it.task.session, except, except);
  }

  lemma {:induction false} StartFromWaitingServed(q: State, except: Option<SessionId>)
    requires Ordered(q) && ServedBut(q, except)
    ensures ServedBut(StartFromWaiting(q), except)
    decreases |q.waiting|
  {
    hide Ordered, CanStart, StartOne, StartFromWaiting, ServedBut;
    StartsOneByOne(q);
    if CanStart(q) {
      StartOneOrdered(q);
      StartOneServed(q, except);
      StartFromWaitingServed(StartOne(q), except);
    }
  }

  lemma ReleaseSlotServed(q: State, sid: SessionId, after: Option<SessionId>)
    requires Ordered(q) && sid in q.sessions && ServedBut(q, Some(sid))
    requires after == Some(sid)
             || (after == None && q.sessions[sid].pending == [] && q.sessions[sid].retryCount == 0)
    ensures ServedBut(ReleaseSlot(q, sid), after)
  {
    hide Ordered, ServedBut, StartFromWaiting;
    VacateOrdered(q, sid);
    var q' := Vacate(q, sid);
    forall s | s != sid ensures Keeps(q, q', s) {
      forall t ensures TimerOf(q, t, s) ==> TimerOf(q', t, s) {}
    }
    OneChanged(q, q', sid, Some(sid), after);
    StartFromWaitingServed(q', after);
  }

  lemma AfterTaskServed(q: State, sid: SessionId)
    requires Ordered(q) && SlotsBut(q, Some(sid)) && sid in q.sessions && ServedBut(q, Some(sid))
    requires q.sessions[sid].retryCount == 0
    ensures ServedBut(AfterTask(q, sid), None)
  {
    hide Ordered, SlotsBut, ServedBut, ReleaseSlot, SortByPriority;
    HoleActive(q, sid);
    if q.sessions[sid].pending == [] {
      ReleaseSlotServed(q, sid, None);
    } else {
      var q' := AfterTask(q, sid);
      forall s | s != sid ensures Keeps(q, q', s) {
        forall t ensures TimerOf(q, t, s) ==> TimerOf(q', t, s) {}
      }
      assert Fine(q', sid);
      OneChanged(q, q', sid, Some(sid), None);
    }
  }

  lemma SameServed(q: State, q': State, except: Option<SessionId>)
    requires ServedBut(q, except)
    requires forall s :: Keeps(q, q', s)
    ensures ServedBut(q', except)
  {
    hide Keeps, Fine;
    forall s | s in q'.sessions && except != Some(s) ensures Fine(q', s) {
      assert Keeps(q, q', s);
      if s in q.sessions { assert Fine(q, s); }
      KeepsFine(q, q', s);
    }
  }

  lemma HandleFailureServed(q: State, it: Item)
    requires Ordered(q) && SlotsBut(q, Some(it.task.session)) && ServedBut(q, Some(it.task.session)) && RetryCounts(q)
    requires it.task.session in q.sessions && q.sessions[it.task.session].retryCount >= 0
    ensures ServedBut(HandleFailure(q, it), None)
  {
    hide Ordered, SlotsBut, RetryCounts, ServedBut, AfterTask, ReleaseSlot, Keeps, Fine;
    var sid := it.task.session;
    var n := q.sessions[sid].retryCount + 1;
    if n > MAX_RETRIES {
      var q1 := SetRetryCount(Abandon(q, it), sid, 0);
      KeepsShape(q, Abandon(q, it), sid, 0);
      CountServed(q, q1, sid);
      AfterTaskServed(q1, sid);
    } else {
      var q1 := SetRetryCount(q, sid, n);
      KeepsShape(q, q, sid, n);
      CountServed(q, q1, sid);
      ReleaseSlotServed(q1, sid, Some(sid));
      ReleaseSlotSlots(q1, sid);
      ArmTimerServed(ReleaseSlot(q1, sid), it, RetryDelay(n));
    }
  }

  lemma KeepsPending(q: State, q': State, s: SessionId)
    requires (s in q'.sessions <==> s in q.sessions) && (s in q.sessions ==> q'.sessions[s] == q.sessions[s])
    requires q'.waiting == q.waiting && q'.env.timers == q.env.timers && q'.env.dropped == q.env.dropped
    ensures Keeps(q, q', s)
  {
    forall t ensures TimerOf(q, t, s) ==> TimerOf(q', t, s) {}
  }

  /** A change of one session's retry count, while that session is the excepted one. */
  lemma CountServed(q: State, q': State, sid: SessionId)
    requires ServedBut(q, Some(sid)) && sid in q.sessions
    requires sid in q'.sessions && q'.sessions == q.sessions[sid := q'.sessions[sid]]
    requires q'.waiting == q.waiting && q'.env.timers == q.env.timers && q'.env.dropped == q.env.dropped
    ensures ServedBut(q', Some(sid))
  {
    hide ServedBut, Fine, Keeps;
    forall s | s != sid ensures Keeps(q, q', s) { KeepsPending(q, q', s); }
    OneChanged(q, q', sid, Some(sid), Some(sid));
  }

  lemma ArmTimerServed(q: State, it: Item, delay: int)
    requires Slots(q) && ServedBut(q, Some(it.task.session))
    ensures ServedBut(ArmTimer(q, it, delay), None)
  {
    var q' := ArmTimer(q, it, delay);
    assert TimerOf(q', q.env.clock, it.task.session);
    assert q.env.clock !in q.env.timers by { FreshTimer(q); }
    hide Slots, ServedBut;
    forall s | s != it.task.session ensures Keeps(q, q', s) {
      forall t ensures TimerOf(q, t, s) ==> TimerOf(q', t, s) {}
    }
    OneChanged(q, q', it.task.session, Some(it.task.session), None);
  }

  lemma FinishServed(q: State, r: RunnerId, ok: bool)
    requires Good(q) && Enabled(q, DoFinish(r, ok)) && ServedBut(q, None)
    ensures ServedBut(Finish(q, r, ok), None)
  {
    hide Ordered, SlotsBut, RetryCounts, WorkConserving, ServedBut, AfterTask, HandleFailure, Keeps, Fine;
    var it := q.env.running[r];
    var sid := it.task.session;
    var q1 := RemoveRunner(q, r);
    RemoveRunnerSlots(q, r);
    RemoveRunnerKeeps(q, r);
    forall s ensures Keeps(q, q1, s) { KeepsPending(q, q1, s); }
    SameServed(q, q1, None);
    Weaken(q1, sid);
    if ok {
      var q2 := SetRetryCount(Succeed(q1, it), sid, 0);
      KeepsShape(q1, Succeed(q1, it), sid, 0);
      CountServed(q1, q2, sid);
      AfterTaskServed(q2, sid);
    } else {
      HandleFailureServed(q1, it);
    }
  }

  lemma Weaken(q: State, sid: SessionId)
    requires ServedBut(q, None)
    ensures ServedBut(q, Some(sid))
  {}

  lemma EnqueueServed(q: State, r: Request)
    requires Good(q) && ServedBut(q, None)
    ensures ServedBut(Enqueue(q, r), None)
  {
    if !q.shuttingDown {
      var it := Item(q.env.clock, q.env.clock, TaskOf(r));
      ArrivedByNow(q);
      AppendHolds(q.waiting, it);
      hide Ordered, Good, ServedBut, SortByPriority, Admit, Keeps, ArrivedBefore;
      forall s ensures Keeps(q, Accept(q, it), s) { KeepsPending(q, Accept(q, it), s); }
      SameServed(q, Accept(q, it), None);
      AdmitServed(Accept(q, it), it, None);
    }
  }

  lemma AppendHolds(s: seq<Item>, x: Item)
    requires Sorted(s) && ArrivedBefore(s, x.arrival)
    ensures x in SortByPriority(s + [x]) && forall w | w in s :: w in SortByPriority(s + [x])
  {
    AppendLatest(s, x);
    forall w | w in s ensures w in SortByPriority(s + [x]) {
      assert w in multiset(s);
      assert w in multiset(SortByPriority(s + [x]));
    }
  }

  lemma FireServed(q: State, t: TimerId)
    requires Good(q) && t in q.env.timers && ServedBut(q, None)
    ensures ServedBut(Fire(q, t), None)
  {
    var it := q.env.timers[t].item;
    var sid := it.task.session;
    var q1 := RemoveTimer(q, t);
    var r := RetryRequest(it.task);
    ArrivedByNow(q);
    if q.shuttingDown || r.None? {
      assert KeyOf(it) in Drop(q1, it).env.dropped;
      assert Served(Drop(q1, it), sid);
      OtherTimers(q, Drop(q1, it), t);
      hide Good, ServedBut, Keeps;
      OneChanged(q, Drop(q1, it), sid, None, None);
    } else {
      var it' := Item(it.origin, q1.env.clock, TaskOf(r.value));
      OtherTimers(q, Tick(q1), t);
      AppendHolds(q.waiting, it');
      hide Good, ServedBut, Keeps, Fine, SortByPriority, Admit, ArrivedBefore;
      Weaken(q, sid);
      OneChanged(q, Tick(q1), sid, Some(sid), Some(sid));
      AdmitServed(Tick(q1), it', Some(sid));
    }
  }

  lemma OtherTimers(q: State, q': State, t: TimerId)
    requires t in q.env.timers && q'.sessions == q.sessions && q'.waiting == q.waiting
    requires q'.env.timers == q.env.timers - {t} && forall a | a in q.env.dropped :: a in q'.env.dropped
    ensures forall s | s != q.env.timers[t].item.task.session :: Keeps(q, q', s)
  {
    forall s | s != q.env.timers[t].item.task.session ensures Keeps(q, q', s) {
      forall u ensures TimerOf(q, u, s) ==> TimerOf(q', u, s) {}
    }
  }

  lemma OtherStepServed(q: State, step: Step)
    requires ServedBut(q, None) && !step.DoEnqueue? && !step.DoFinish? && !step.DoFire?
    ensures ServedBut(Apply(q, step), None)
  {
    hide ServedBut, Keeps;
    var q' := Apply(q, step);
    match step
    case DoShutdown => forall s ensures Keeps(q, q', s) { KeepsPending(q, q', s); } SameServed(q, q', None);
    case DoNotifyIdle(sid) => OneTouched(q, q', sid);
    case DoRegister(sid, _) => OneTouched(q, q', sid);
    case DoUnregister(sid) => OneTouched(q, q', sid);
  }

  lemma OneTouched(q: State, q': State, sid: SessionId)
    requires ServedBut(q, None)
    requires q'.sessions == q.sessions || (sid in q'.sessions && q'.sessions == q.sessions[sid := q'.sessions[sid]])
    requires sid in q'.sessions ==> q'.sessions[sid].active == Session(q, sid).active
                                    && q'.sessions[sid].pending == Session(q, sid).pending
                                    && q'.sessions[sid].retryCount == Session(q, sid).retryCount
    requires q'.waiting == q.waiting && q'.env.timers == q.env.timers && q'.env.dropped == q.env.dropped
    ensures ServedBut(q', None)
  {
    forall s | s in q'.sessions ensures Fine(q', s) {
      if s in q.sessions {
        assert Fine(q, s);
        assert Keeps(q, q', s) by { forall t ensures TimerOf(q, t, s) ==> TimerOf(q', t, s) {} }
        KeepsFine(q, q', s);
      }
    }
  }

  lemma StepServed(q: State, step: Step)
    requires Good(q) && Enabled(q, step) && ServedBut(q, None)
    ensures ServedBut(Apply(q, step), None)
  {
    hide Good, ServedBut, Enqueue, Finish, Fire;
    match step
    case DoEnqueue(r) => EnqueueServed(q, r);
    case DoFinish(r, ok) => FinishServed(q, r, ok);
    case DoFire(t) => FireServed(q, t);
    case _ => OtherStepServed(q, step);
  }
}
