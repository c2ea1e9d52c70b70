/** When work can be stranded: exactly when a client may enqueue a scheduled task with an empty id. */
module QueueEmptyIds {
  import opened Wrappers
  import opened Queue
  import opened QueueOrder
  import opened QueueSlots
  import opened QueueLedger
  import opened QueueStranded
  import opened QueueRuns

  /** The requests the clients of a queue may make. */
  type Clients = Request -> bool

  predicate ByClients(clients: Clients, step: Step) { step.DoEnqueue? ==> clients(step.request) }

  predicate AllByClients(clients: Clients, steps: seq<Step>) {
    forall i | 0 <= i < |steps| :: ByClients(clients, steps[i])
  }

  /** A state some run of these clients ends in. */
  ghost predicate ReachableBy(clients: Clients, cap: int, q: State) {
    exists steps :: IsRun(Init(cap), steps) && AllByClients(clients, steps) && After(Init(cap), steps) == q
  }

  /** Pending work of an inactive session, with nothing in the queue that could start it. */
  ghost predicate Stranded(q: State, sid: SessionId) {
    && !q.shuttingDown
    && sid in q.sessions && !q.sessions[sid].active && q.sessions[sid].pending != []
    && (forall t :: !TimerOf(q, t, sid)) && (forall w | w in q.waiting :: w.task.session != sid)
  }

  // ---- Only if ------------------------------------------------------------------------------

  ghost predicate Requested(clients: Clients, t: Task) { exists r :: clients(r) && TaskOf(r) == t }

  ghost predicate AllRequested(clients: Clients, q: State) {
    forall a | a in q.env.accepted :: Requested(clients, a.task)
  }

  lemma FireBooks(q: State, t: TimerId)
    requires t in q.env.timers
    ensures Fire(q, t).env.accepted == q.env.accepted
  {
    hide Admit, RetryRequest, TaskOf, Settled;
    var q1 := RemoveTimer(q, t);
    var it := q.env.timers[t].item;
    var r := RetryRequest(it.task);
    if !(q1.shuttingDown || r.None?) {
      AdmitBooks(Tick(q1), Item(it.origin, q1.env.clock, TaskOf(r.value)));
    }
  }

  lemma OtherBooks(q: State, step: Step)
    requires !step.DoEnqueue? && !step.DoFinish? && !step.DoFire?
    ensures Apply(q, step).env.accepted == q.env.accepted
  {}

  lemma EnqueueBooks(q: State, r: Request)
    ensures var q' := Enqueue(q, r);
      forall a | a in q'.env.accepted :: a in q.env.accepted || a.task == TaskOf(r)
  {
    hide Admit, TaskOf, Settled;
    if !q.shuttingDown {
      var it := Item(q.env.clock, q.env.clock, TaskOf(r));
      AdmitBooks(Accept(q, it), it);
    }
  }

  lemma StepRequested(clients: Clients, q: State, step: Step)
    requires Inv(q) && Enabled(q, step) && ByClients(clients, step) && AllRequested(clients, q)
    ensures AllRequested(clients, Apply(q, step))
  {
    hide Good, Conserved, ServedBut, Enqueue, Finish, Fire, TaskOf, Live, Settled, SettledOrTimed;
    match step
    case DoEnqueue(r) =>
      EnqueueBooks(q, r);
      assert Requested(clients, TaskOf(r));
    case DoFinish(r, ok) => FinishLive(q, r, ok);
    case DoFire(t) => FireBooks(q, t);
    case _ => OtherBooks(q, step);
  }

  lemma {:induction false} RunRequested(clients: Clients, q: State, steps: seq<Step>)
    requires Inv(q) && IsRun(q, steps) && AllByClients(clients, steps) && AllRequested(clients, q)
    ensures Inv(After(q, steps)) && AllRequested(clients, After(q, steps))
    decreases |steps|
  {
    hide Inv, Apply, AllRequested, Enabled;
    if steps != [] {
      StepRequested(clients, q, steps[0]);
      StepInv(q, steps[0]);
      RunRequested(clients, Apply(q, steps[0]), steps[1..]);
    }
  }

  lemma DroppedAccepted(q: State, a: Accepted)
    requires Inv(q) && a in q.env.dropped
    ensures a in q.env.accepted
  {
    hide Good, ServedBut, Distinct, Live, Keys, Pending, Running, InBackoff;
    assert a in Settled(q);
    assert a in Live(q) + Settled(q);
  }

  lemma EmptyIdRequest(clients: Clients, t: Task)
    requires Requested(clients, t) && Unretryable(t)
    ensures exists fn :: clients(EnqueueScheduled(t.session, "", fn))
  {
    var r :| clients(r) && TaskOf(r) == t;
    assert r == EnqueueScheduled(t.session, "", r.fn);
  }

  lemma StrandedWasEmpty(clients: Clients, cap: int, q: State, sid: SessionId)
    requires ReachableBy(clients, cap, q) && Stranded(q, sid)
    ensures exists fn :: clients(EnqueueScheduled(sid, "", fn))
  {
    hide Inv, Init, Unretryable, TimerOf;
    var steps :| IsRun(Init(cap), steps) && AllByClients(clients, steps) && After(Init(cap), steps) == q;
    InitInv(cap);
    NothingAccepted(clients, cap);
    RunRequested(clients, Init(cap), steps);
    assert Reachable(cap, q);
    NotStranded(cap, q, sid);
    var a :| a in q.env.dropped && a.task.session == sid && Unretryable(a.task);
    DroppedAccepted(q, a);
    EmptyIdRequest(clients, a.task);
  }

  lemma NothingAccepted(clients: Clients, cap: int)
    ensures AllRequested(clients, Init(cap))
  {}

  // ---- If -----------------------------------------------------------------------------------

  // The same request twice: the first task runs, the second is pending behind it; the first fails
  // and its timer expires without a retry.

  function First(sid: SessionId, fn: ScheduledFn): Item { Item(0, 0, TaskOf(EnqueueScheduled(sid, "", fn))) }

  function Second(sid: SessionId, fn: ScheduledFn): Item { Item(2, 2, TaskOf(EnqueueScheduled(sid, "", fn))) }

  ghost function Both(sid: SessionId, fn: ScheduledFn): multiset<Accepted> {
    multiset{KeyOf(First(sid, fn)), KeyOf(Second(sid, fn))}
  }

  ghost function OneRuns(
      cap: int, sid: SessionId, fn: ScheduledFn, pending: seq<Item>, accepted: multiset<Accepted>, clock: nat): State
  {
    State(cap, map[sid := SessionState(true, false, true, pending, None, 0)], [], 1, false, map[sid := 1],
          Env(map[1 := First(sid, fn)], map[], accepted, multiset{}, multiset{}, multiset{}, {}, clock))
  }

  ghost function Backoff(
      cap: int, sid: SessionId, fn: ScheduledFn, timers: map<TimerId, Timer>, dropped: multiset<Accepted>): State
  {
    State(cap, map[sid := SessionState(false, false, true, [Second(sid, fn)], None, 1)], [], 0, false, map[],
          Env(map[], timers, Both(sid, fn), multiset{}, multiset{}, dropped, {}, 4))
  }

  lemma FirstStarts(cap: int, sid: SessionId, fn: ScheduledFn)
    requires cap >= 1
    ensures Apply(Init(cap), DoEnqueue(EnqueueScheduled(sid, "", fn)))
      == OneRuns(cap, sid, fn, [], multiset{KeyOf(First(sid, fn))}, 2)
  {}

  lemma SecondPends(cap: int, sid: SessionId, fn: ScheduledFn)
    ensures Apply(OneRuns(cap, sid, fn, [], multiset{KeyOf(First(sid, fn))}, 2), DoEnqueue(EnqueueScheduled(sid, "", fn)))
      == OneRuns(cap, sid, fn, [Second(sid, fn)], Both(sid, fn), 3)
  {
    SortSorted([Second(sid, fn)]);
    assert [] + [Second(sid, fn)] == [Second(sid, fn)];
  }

  lemma FirstFails(cap: int, sid: SessionId, fn: ScheduledFn)
    ensures var q := OneRuns(cap, sid, fn, [Second(sid, fn)], Both(sid, fn), 3);
      && Enabled(q, DoFinish(1, false))
      && Apply(q, DoFinish(1, false)) == Backoff(cap, sid, fn, map[3 := Timer(First(sid, fn), 5)], multiset{})
  {
    var q := RemoveRunner(OneRuns(cap, sid, fn, [Second(sid, fn)], Both(sid, fn), 3), 1);
    assert q.env.running == map[];
    var q1 := SetRetryCount(q, sid, 1);
    assert q1.workers - {sid} == map[];
    assert ReleaseSlot(q1, sid) == Vacate(q1, sid);
  }

  lemma FirstIsDropped(cap: int, sid: SessionId, fn: ScheduledFn)
    ensures var q := Backoff(cap, sid, fn, map[3 := Timer(First(sid, fn), 5)], multiset{});
      Enabled(q, DoFire(3)) && Apply(q, DoFire(3)) == Backoff(cap, sid, fn, map[], multiset{KeyOf(First(sid, fn))})
  {
    var q := Backoff(cap, sid, fn, map[3 := Timer(First(sid, fn), 5)], multiset{});
    assert q.env.timers - {3} == map[];
  }

  lemma Run4(q: State, s1: Step, s2: Step, s3: Step, s4: Step)
    requires Enabled(q, s1) && Enabled(Apply(q, s1), s2) && Enabled(Apply(Apply(q, s1), s2), s3)
    requires Enabled(Apply(Apply(Apply(q, s1), s2), s3), s4)
    ensures IsRun(q, [s1, s2, s3, s4])
    ensures After(q, [s1, s2, s3, s4]) == Apply(Apply(Apply(Apply(q, s1), s2), s3), s4)
  {
    hide Apply, Enabled;
    var q1 := Apply(q, s1);
    var q2 := Apply(q1, s2);
    var q3 := Apply(q2, s3);
    assert [s1, s2, s3, s4][1..] == [s2, s3, s4] && [s2, s3, s4][1..] == [s3, s4] && [s3, s4][1..] == [s4] && [s4][1..] == [];
    assert IsRun(q3, [s4]) && After(q3, [s4]) == Apply(q3, s4);
    assert IsRun(q2, [s3, s4]) && After(q2, [s3, s4]) == Apply(q3, s4);
    assert IsRun(q1, [s2, s3, s4]) && After(q1, [s2, s3, s4]) == Apply(q3, s4);
  }

  lemma EmptyIdReached(clients: Clients, cap: int, sid: SessionId, fn: ScheduledFn)
    requires cap >= 1 && clients(EnqueueScheduled(sid, "", fn))
    ensures ReachableBy(clients, cap, Backoff(cap, sid, fn, map[], multiset{KeyOf(First(sid, fn))}))
  {
    var s1, s2 := DoEnqueue(EnqueueScheduled(sid, "", fn)), DoEnqueue(EnqueueScheduled(sid, "", fn));
    var s3, s4 := DoFinish(1, false), DoFire(3);
    assert Enabled(Init(cap), s1);
    assert Enabled(OneRuns(cap, sid, fn, [], multiset{KeyOf(First(sid, fn))}, 2), s2);
    assert AllByClients(clients, [s1, s2, s3, s4]);
    hide Apply, Init, OneRuns, Backoff, Enabled, AllByClients;
    FirstStarts(cap, sid, fn);
    SecondPends(cap, sid, fn);
    FirstFails(cap, sid, fn);
    FirstIsDropped(cap, sid, fn);
    Run4(Init(cap), s1, s2, s3, s4);
  }

  lemma EmptyIdStranded(cap: int, sid: SessionId, fn: ScheduledFn, dropped: multiset<Accepted>)
    ensures Stranded(Backoff(cap, sid, fn, map[], dropped), sid)
  {}

  /** Work can be stranded, with any cap and in any session, if and only if some client may
      enqueue a scheduled task with an empty id for that session. */
  lemma StrandsIffEmptyId(clients: Clients, cap: int, sid: SessionId)
    requires cap >= 1
    ensures (exists q :: ReachableBy(clients, cap, q) && Stranded(q, sid))
       <==> (exists fn :: clients(EnqueueScheduled(sid, "", fn)))
  {
    hide ReachableBy, Stranded, Backoff;
    if fn :| clients(EnqueueScheduled(sid, "", fn)) {
      EmptyIdReached(clients, cap, sid, fn);
      EmptyIdStranded(cap, sid, fn, multiset{KeyOf(First(sid, fn))});
    }
    if q :| ReachableBy(clients, cap, q) && Stranded(q, sid) { StrandedWasEmpty(clients, cap, q, sid); }
  }
}
