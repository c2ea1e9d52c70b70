/** The drain order by kind of task: scheduled before handoff before executor before planner. */
module QueueKinds {
  import opened Wrappers
  import opened Queue
  import opened QueueOrder
  import opened QueueSlots
  import opened QueueLedger
  import opened QueueRuns

  /** The order the four kinds are meant to be drained in, with no priority number in it. */
  function Rank(k: Kind): nat {
    match k
    case Scheduled => 0
    case Handoff => 1
    case Executor => 2
    case Planner => 3
  }

  predicate KindBefore(a: Item, b: Item) {
    Rank(a.task.kind) < Rank(b.task.kind) || (a.task.kind == b.task.kind && a.arrival < b.arrival)
  }

  /** What each of the public calls enqueues. */
  lemma EachCallItsKind(r: Request)
    ensures TaskOf(r).session == r.session
    ensures r.EnqueuePlanner? ==> TaskOf(r).kind == Planner
    ensures r.EnqueueExecutor? ==> TaskOf(r).kind == Executor
    ensures r.EnqueueHandoff? ==> TaskOf(r).kind == Handoff && TaskOf(r).direction == Some(r.direction)
    ensures r.EnqueueScheduled? ==>
      TaskOf(r).kind == Scheduled && TaskOf(r).taskId == Some(r.taskId) && TaskOf(r).scheduledFn == Some(r.fn)
  {}

  /** For tasks that came through the public calls, priority numbers order them as kinds do. */
  lemma PriorityIsRank(a: Item, b: Item)
    requires FromApi(a.task) && FromApi(b.task)
    ensures Before(a, b) <==> KindBefore(a, b)
  {
    var r :| TaskOf(r) == a.task;
    var t :| TaskOf(t) == b.task;
    EachCallItsKind(r);
    EachCallItsKind(t);
  }

  // ---- Everything the queue holds came through a public call --------------------------------

  lemma KeyIn(s: seq<Item>, x: Item)
    requires x in s
    ensures KeyOf(x) in Keys(s)
  {
    var i :| 0 <= i < |s| && s[i] == x;
    assert KeySeq(s)[i] == KeyOf(x);
  }

  lemma LiveFromApi(q: State, a: Accepted)
    requires Inv(q) && a in Live(q)
    ensures FromApi(a.task)
  {
    hide Good, Live, Settled;
    assert a in Live(q) + Settled(q);
  }

  /** Every queued, pending, running and timed item comes from a request. */
  lemma AllFromRequests(cap: int, q: State)
    requires Reachable(cap, q)
    ensures forall w | w in q.waiting :: FromApi(w.task)
    ensures forall s, w | s in q.sessions && w in q.sessions[s].pending :: FromApi(w.task)
    ensures forall r | r in q.env.running :: FromApi(q.env.running[r].task)
    ensures forall t | t in q.env.timers :: FromApi(q.env.timers[t].item.task)
  {
    ReachableInv(cap, q);
    hide Inv, FromApi, Keys, Total;
    forall w | w in q.waiting ensures FromApi(w.task) {
      KeyIn(q.waiting, w);
      LiveFromApi(q, KeyOf(w));
    }
    forall s, w | s in q.sessions && w in q.sessions[s].pending ensures FromApi(w.task) {
      KeyIn(q.sessions[s].pending, w);
      TotalHolds(q.sessions, s, KeyOf(w), PendingKeys);
      LiveFromApi(q, KeyOf(w));
    }
    forall r | r in q.env.running ensures FromApi(q.env.running[r].task) {
      TotalHolds(q.env.running, r, KeyOf(q.env.running[r]), ItemKeys);
      LiveFromApi(q, KeyOf(q.env.running[r]));
    }
    forall t | t in q.env.timers ensures FromApi(q.env.timers[t].item.task) {
      TotalHolds(q.env.timers, t, KeyOf(q.env.timers[t].item), TimerKeys);
      LiveFromApi(q, KeyOf(q.env.timers[t].item));
    }
  }

  // ---- The pending task taken next ----------------------------------------------------------

  lemma TakesFirstPending(q: State, r: RunnerId, ok: bool)
    requires Ordered(q) && Enabled(q, DoFinish(r, ok))
    requires var sid := q.env.running[r].task.session;
      q.sessions[sid].pending != [] && (ok || q.sessions[sid].retryCount >= MAX_RETRIES)
    ensures var sid := q.env.running[r].task.session;
      var p, q' := q.sessions[sid].pending, Finish(q, r, ok);
      && sid in q'.workers && q'.workers[sid] in q'.env.running && q'.env.running[q'.workers[sid]] == p[0]
      && sid in q'.sessions && q'.sessions[sid].pending == p[1..] && (forall w | w in p[1..] :: Before(p[0], w))
  {
    hide Ordered, AfterTask, Before;
    var it := q.env.running[r];
    var sid := it.task.session;
    var q1 := RemoveRunner(q, r);
    var q2 := SetRetryCount(if ok then Succeed(q1, it) else Abandon(q1, it), sid, 0);
    QuietOrdered(q, if ok then Succeed(q1, it) else Abandon(q1, it));
    SetRetryCountOrdered(if ok then Succeed(q1, it) else Abandon(q1, it), sid, 0);
    RunsLeastPending(q2, sid);
  }

  /** In every reachable state: when a session's task ends for good, the pending task taken next
      is the least of them by kind and then by arrival, and the others stay pending. */
  lemma NextPendingByKind(cap: int, q: State, r: RunnerId, ok: bool)
    requires Reachable(cap, q) && Enabled(q, DoFinish(r, ok))
    requires var sid := q.env.running[r].task.session;
      q.sessions[sid].pending != [] && (ok || q.sessions[sid].retryCount >= MAX_RETRIES)
    ensures var sid := q.env.running[r].task.session;
      var p, q' := q.sessions[sid].pending, Apply(q, DoFinish(r, ok));
      && sid in q'.workers && q'.workers[sid] in q'.env.running && q'.env.running[q'.workers[sid]] == p[0]
      && sid in q'.sessions && q'.sessions[sid].pending == p[1..] && (forall w | w in p[1..] :: KindBefore(p[0], w))
  {
    ReachableInv(cap, q);
    AllFromRequests(cap, q);
    TakesFirstPending(q, r, ok) by { GoodOrder(q); }
    var p := q.sessions[q.env.running[r].task.session].pending;
    hide Inv, Reachable, Finish, FromApi, Before, KindBefore;
    forall w | w in p[1..] ensures KindBefore(p[0], w) {
      assert w in p && p[0] in p;
      PriorityIsRank(p[0], w);
    }
  }

  lemma GoodOrder(q: State)
    requires Inv(q)
    ensures Ordered(q)
  {}

  // ---- The waiting tasks started ------------------------------------------------------------

  lemma {:induction false} SessionsStayActive(q: State, sid: SessionId)
    requires Ordered(q) && Session(q, sid).active
    ensures Session(StartFromWaiting(q), sid).active
    decreases |q.waiting|
  {
    hide Ordered, StartFromWaiting;
    StartsOneByOne(q);
    if CanStart(q) {
      StartOneOrdered(q);
      SessionsStayActive(StartOne(q), sid);
    }
  }

  lemma {:induction false} WaitingShrinks(q: State, x: Item)
    requires Ordered(q) && x in StartFromWaiting(q).waiting
    ensures x in q.waiting
    decreases |q.waiting|
  {
    hide Ordered, StartFromWaiting;
    StartsOneByOne(q);
    if CanStart(q) {
      StartOneOrdered(q);
      WaitingShrinks(StartOne(q), x);
    }
  }

  /** A task the queue starts goes before every task it leaves waiting that it could have started. */
  lemma {:induction false} StartsInOrder(q: State, w: Item, x: Item)
    requires Ordered(q) && w in q.waiting && w !in StartFromWaiting(q).waiting
    requires x in StartFromWaiting(q).waiting && !Session(StartFromWaiting(q), x.task.session).active
    ensures Before(w, x)
    decreases |q.waiting|
  {
    hide Ordered, StartFromWaiting, Session;
    StartsOneByOne(q);
    WaitingShrinks(q, x);
    if Session(q, x.task.session).active { SessionsStayActive(q, x.task.session); }
    OrderedWaiting(q);
    FirstIdleIsLeast(q, q.waiting);
    var i := FirstIdle(q, q.waiting);
    if w != q.waiting[i] {
      StartOneOrdered(q);
      StaysWaiting(q, w);
      StartsInOrder(StartOne(q), w, x);
    }
  }

  lemma StaysWaiting(q: State, w: Item)
    requires CanStart(q) && w in q.waiting && w != q.waiting[FirstIdle(q, q.waiting)]
    ensures w in StartOne(q).waiting
  {
    var i := FirstIdle(q, q.waiting);
    var j :| 0 <= j < |q.waiting| && q.waiting[j] == w;
    assert StartOne(q).waiting[if j < i then j else j - 1] == w;
  }

  /** The end of a task: what the waiting list and the sessions become is a start loop's doing. */
  lemma FinishStarts(q: State, r: RunnerId, ok: bool) returns (v: State)
    requires Ordered(q) && Enabled(q, DoFinish(r, ok))
    ensures Ordered(v) && v.waiting == q.waiting
    ensures var q' := Finish(q, r, ok);
      && (q'.waiting == StartFromWaiting(v).waiting || q'.waiting == q.waiting)
      && (q'.waiting != q.waiting ==> q'.sessions == StartFromWaiting(v).sessions)
  {
    hide Ordered, StartFromWaiting, SortByPriority;
    var it := q.env.running[r];
    var sid := it.task.session;
    var q1 := RemoveRunner(q, r);
    var n := q.sessions[sid].retryCount + 1;
    var done := if ok then Succeed(q1, it) else if n > MAX_RETRIES then Abandon(q1, it) else q1;
    var count := if !ok && n <= MAX_RETRIES then n else 0;
    QuietOrdered(q, done);
    SetRetryCountOrdered(done, sid, count);
    VacateOrdered(SetRetryCount(done, sid, count), sid);
    v := Vacate(SetRetryCount(done, sid, count), sid);
  }

  /** In every reachable state: a waiting task started at the end of another goes, by kind and then
      by arrival, before every task left waiting whose session is inactive. */
  lemma StartsWaitingByKind(cap: int, q: State, r: RunnerId, ok: bool, w: Item, x: Item)
    requires Reachable(cap, q) && Enabled(q, DoFinish(r, ok))
    requires var q' := Apply(q, DoFinish(r, ok));
      w in q.waiting && w !in q'.waiting && x in q'.waiting && !Session(q', x.task.session).active
    ensures x in q.waiting && KindBefore(w, x)
  {
    hide StartFromWaiting, Finish, Before, KindBefore, FromApi, Reachable;
    ReachableInv(cap, q);
    AllFromRequests(cap, q);
    GoodOrder(q);
    var v := FinishStarts(q, r, ok);
    WaitingShrinks(v, x);
    StartsInOrder(v, w, x);
    PriorityIsRank(w, x);
  }

  // ---- The scheduled flag -------------------------------------------------------------------

  /** A session's flag tells whether the task it is running is a scheduled one. */
  ghost predicate FlagsTell(q: State) {
    forall s | s in q.workers :: q.workers[s] < q.env.clock && FlagTells(q, s)
  }

  predicate FlagTells(q: State, s: SessionId)
    requires s in q.workers
  {
    q.workers[s] in q.env.running ==>
      (Session(q, s).isScheduledTask <==> q.env.running[q.workers[s]].task.kind.Scheduled?)
  }

  lemma StartFlags(q: State, it: Item)
    requires FlagsTell(q)
    ensures FlagsTell(Start(q, it))
  {
    var q' := Start(q, it);
    forall s | s in q'.workers ensures q'.workers[s] < q'.env.clock && FlagTells(q', s) {
      if s != it.task.session { assert FlagTells(q, s); }
    }
  }

  lemma {:induction false} StartFromWaitingFlags(q: State)
    requires FlagsTell(q)
    ensures FlagsTell(StartFromWaiting(q))
    decreases |q.waiting|
  {
    hide SortByPriority, FirstIdle, Start;
    if q.waiting != [] && q.activeCount < q.cap {
      var w := SortByPriority(q.waiting);
      var i := FirstIdle(q, w);
      if i < |w| {
        var q1 := q.(waiting := w[..i] + w[i + 1..]);
        SameFlags(q, q1);
        StartFlags(q1, w[i]);
        StartWaiting(q1, w[i]);
        StartFromWaitingFlags(Start(q1, w[i]));
      } else {
        SameFlags(q, q.(waiting := w));
      }
    }
  }

  lemma StartWaiting(q: State, it: Item)
    ensures Start(q, it).waiting == q.waiting
  {}

  /** Nothing the flags depend on has changed, except that runners and workers may be gone. */
  lemma SameFlags(q: State, q': State)
    requires FlagsTell(q) && q'.env.clock >= q.env.clock
    requires forall s | s in q'.workers :: s in q.workers && q'.workers[s] == q.workers[s]
    requires forall r | r in q'.env.running :: r in q.env.running && q'.env.running[r] == q.env.running[r]
    requires forall s :: Session(q', s).isScheduledTask == Session(q, s).isScheduledTask
    ensures FlagsTell(q')
  {
    hide Session;
    forall s | s in q'.workers ensures q'.workers[s] < q'.env.clock && FlagTells(q', s) { assert FlagTells(q, s); }
  }

  lemma AdmitFlags(q: State, it: Item)
    requires FlagsTell(q)
    ensures FlagsTell(Admit(q, it))
  {
    hide SortByPriority, SomeTaskPreempts, Start;
    if !Session(q, it.task.session).active && q.activeCount < q.cap {
      StartFlags(q, it);
    } else {
      SameFlags(q, Admit(q, it));
    }
  }

  lemma FirstIsOwn(q: State, sid: SessionId)
    requires Ordered(q) && sid in q.sessions && q.sessions[sid].pending != []
    ensures SortByPriority(q.sessions[sid].pending) == q.sessions[sid].pending
    ensures q.sessions[sid].pending[0].task.session == sid
  {
    assert SessionOrdered(sid, q.sessions[sid], q.env.clock);
    SortSorted(q.sessions[sid].pending);
    assert q.sessions[sid].pending[0] in q.sessions[sid].pending;
  }

  lemma CountedOrdered(q: State, q1: State, sid: SessionId, n: int)
    requires Ordered(q) && q1.(env := q.env) == q && q1.env.clock >= q.env.clock && sid in q.sessions
    ensures Ordered(SetRetryCount(q1, sid, n))
  {
    QuietOrdered(q, q1);
    SetRetryCountOrdered(q1, sid, n);
  }

  lemma AfterTaskFlags(q: State, sid: SessionId)
    requires FlagsTell(q) && Ordered(q) && sid in q.sessions
    ensures FlagsTell(AfterTask(q, sid)) && FlagsTell(ReleaseSlot(q, sid))
  {
    hide SortByPriority, StartFromWaiting, Ordered;
    SameFlags(q, Vacate(q, sid));
    StartFromWaitingFlags(Vacate(q, sid));
    if q.sessions[sid].pending != [] {
      var q' := AfterTask(q, sid);
      RunsLeastPending(q, sid);
      FirstIsOwn(q, sid);
      forall s | s in q'.workers ensures q'.workers[s] < q'.env.clock && FlagTells(q', s) {
        if s != sid { assert FlagTells(q, s); }
      }
    }
  }

  lemma FinishFlags(q: State, r: RunnerId, ok: bool)
    requires FlagsTell(q) && Ordered(q) && Enabled(q, DoFinish(r, ok))
    ensures FlagsTell(Finish(q, r, ok))
  {
    hide AfterTask, ReleaseSlot, Ordered;
    var it := q.env.running[r];
    var sid := it.task.session;
    var q1 := RemoveRunner(q, r);
    var n := q.sessions[sid].retryCount + 1;
    CountedOrdered(q, q1, sid, n);
    CountedOrdered(q, Succeed(q1, it), sid, 0);
    CountedOrdered(q, Abandon(q1, it), sid, 0);
    if ok {
      SameFlags(q, SetRetryCount(Succeed(q1, it), sid, 0));
      AfterTaskFlags(SetRetryCount(Succeed(q1, it), sid, 0), sid);
    } else if n > MAX_RETRIES {
      SameFlags(q, SetRetryCount(Abandon(q1, it), sid, 0));
      AfterTaskFlags(SetRetryCount(Abandon(q1, it), sid, 0), sid);
    } else {
      SameFlags(q, SetRetryCount(q1, sid, n));
      AfterTaskFlags(SetRetryCount(q1, sid, n), sid);
      var q2 := ReleaseSlot(SetRetryCount(q1, sid, n), sid);
      SameFlags(q2, ArmTimer(q2, it, RetryDelay(n)));
    }
  }

  lemma StepFlags(q: State, step: Step)
    requires FlagsTell(q) && Ordered(q) && Enabled(q, step)
    ensures FlagsTell(Apply(q, step))
  {
    hide FlagsTell, Admit, Finish, TaskOf, RetryRequest, Ordered;
    match step
    case DoEnqueue(r) =>
      if !q.shuttingDown {
        var it := Item(q.env.clock, q.env.clock, TaskOf(r));
        SameFlags(q, Accept(q, it));
        AdmitFlags(Accept(q, it), it);
      }
    case DoFinish(r, ok) => FinishFlags(q, r, ok);
    case DoFire(t) =>
      var q1 := RemoveTimer(q, t);
      var it := q.env.timers[t].item;
      var r := RetryRequest(it.task);
      if q.shuttingDown || r.None? {
        SameFlags(q, Drop(q1, it));
      } else {
        SameFlags(q, Tick(q1));
        AdmitFlags(Tick(q1), Item(it.origin, q1.env.clock, TaskOf(r.value)));
      }
    case _ => SameFlags(q, Apply(q, step));
  }

  lemma {:induction false} RunFlags(q: State, steps: seq<Step>)
    requires Inv(q) && FlagsTell(q) && IsRun(q, steps)
    ensures FlagsTell(After(q, steps))
    decreases |steps|
  {
    hide Inv, FlagsTell, Apply, Enabled;
    if steps != [] {
      GoodOrder(q);
      StepFlags(q, steps[0]);
      StepInv(q, steps[0]);
      RunFlags(Apply(q, steps[0]), steps[1..]);
    }
  }

  /** In every reachable state a running session's flag tells the kind of the task it runs. */
  lemma ReachableFlags(cap: int, q: State, s: SessionId)
    requires Reachable(cap, q) && s in q.workers && s in q.sessions && q.workers[s] in q.env.running
    ensures q.sessions[s].isScheduledTask <==> q.env.running[q.workers[s]].task.kind.Scheduled?
  {
    var steps :| IsRun(Init(cap), steps) && After(Init(cap), steps) == q;
    InitInv(cap);
    RunFlags(Init(cap), steps);
    assert FlagTells(q, s);
  }

  // ---- What else a step of the queue is for -------------------------------------------------

  /** After the shutdown has begun an enqueue changes nothing; the shutdown itself changes only that. */
  lemma ShutdownRefuses(q: State, r: Request)
    ensures var q' := Apply(q, DoShutdown);
      && q'.shuttingDown && q'.(shuttingDown := q.shuttingDown) == q && Apply(q', DoEnqueue(r)) == q'
  {
    hide Admit;
  }

  /** A success is entered as one; so is giving up, which is what the failure after n = MAX_RETRIES
      others is; neither arms a timer. */
  lemma EndIsEntered(q: State, r: RunnerId, ok: bool, n: nat)
    requires Enabled(q, DoFinish(r, ok)) && n == q.sessions[q.env.running[r].task.session].retryCount
    requires ok || n >= MAX_RETRIES
    ensures var q', a := Apply(q, DoFinish(r, ok)), multiset{KeyOf(q.env.running[r])};
      && q'.env.succeeded == q.env.succeeded + (if ok then a else multiset{})
      && q'.env.abandoned == q.env.abandoned + (if ok then multiset{} else a)
      && q'.env.timers == q.env.timers
  {
    hide AfterTask, ReleaseSlot, Pow2;
    var it := q.env.running[r];
    var sid := it.task.session;
    var q1 := RemoveRunner(q, r);
    EndBooks(SetRetryCount(Succeed(q1, it), sid, 0), sid);
    EndBooks(SetRetryCount(Abandon(q1, it), sid, 0), sid);
  }

  lemma {:induction false} StartKeepsMarks(q: State, sid: SessionId)
    ensures var s, s' := Session(q, sid), Session(StartFromWaiting(q), sid);
      s'.idleWaiting == s.idleWaiting && s'.retryCount == s.retryCount && s'.ipcInputDir == s.ipcInputDir
    decreases |q.waiting|
  {
    hide SortByPriority, FirstIdle;
    if q.waiting != [] && q.activeCount < q.cap {
      var w := SortByPriority(q.waiting);
      var i := FirstIdle(q, w);
      if i < |w| { StartKeepsMarks(Start(q.(waiting := w[..i] + w[i + 1..]), w[i]), sid); }
    }
  }

  predicate Rested(q: State, q': State, sid: SessionId)
    requires sid in q.sessions
  {
    var s, s' := q.sessions[sid], Session(q', sid);
    !s'.idleWaiting && s'.retryCount == s.retryCount && s'.ipcInputDir == s.ipcInputDir
  }

  lemma EndMarks(q: State, sid: SessionId)
    requires sid in q.sessions
    ensures Rested(q, AfterTask(q, sid), sid) && Rested(q, ReleaseSlot(q, sid), sid)
  {
    hide SortByPriority, StartFromWaiting;
    StartKeepsMarks(Vacate(q, sid), sid);
  }

  /** However a task ends, its session is no longer marked idle and keeps its directory; its retry count
      is 0 after a success or after giving up and one more after any other failure. */
  lemma EndResets(q: State, r: RunnerId, ok: bool, n: nat)
    requires Enabled(q, DoFinish(r, ok)) && n == q.sessions[q.env.running[r].task.session].retryCount
    ensures var sid := q.env.running[r].task.session;
      var s' := Session(Apply(q, DoFinish(r, ok)), sid);
      && !s'.idleWaiting && s'.ipcInputDir == q.sessions[sid].ipcInputDir
      && s'.retryCount == if ok || n >= MAX_RETRIES then 0 else n + 1
  {
    hide AfterTask, ReleaseSlot, Pow2;
    var it := q.env.running[r];
    var sid := it.task.session;
    var q1 := RemoveRunner(q, r);
    EndMarks(SetRetryCount(Succeed(q1, it), sid, 0), sid);
    EndMarks(SetRetryCount(Abandon(q1, it), sid, 0), sid);
    EndMarks(SetRetryCount(q1, sid, n + 1), sid);
  }

  lemma FailureShape(q: State, r: RunnerId, n: nat)
    requires Enabled(q, DoFinish(r, false))
    requires n == q.sessions[q.env.running[r].task.session].retryCount < MAX_RETRIES
    ensures var it := q.env.running[r];
      Apply(q, DoFinish(r, false)) ==
        ArmTimer(ReleaseSlot(SetRetryCount(RemoveRunner(q, r), it.task.session, n + 1), it.task.session), it, 5 * Pow2(n))
  {
    hide ReleaseSlot, AfterTask, Pow2;
  }

  lemma CountBooks(q: State, sid: SessionId, n: int)
    requires sid in q.sessions
    ensures sid in SetRetryCount(q, sid, n).sessions && SetRetryCount(q, sid, n).env == q.env
  {}

  /** Any other failure arms one timer for the same item, of 5 seconds doubled n times, and is
      entered as nothing yet. */
  lemma FailureIsTimed(q: State, r: RunnerId, n: nat) returns (t: TimerId)
    requires Good(q) && Enabled(q, DoFinish(r, false))
    requires n == q.sessions[q.env.running[r].task.session].retryCount < MAX_RETRIES
    ensures var q', it := Apply(q, DoFinish(r, false)), q.env.running[r];
      && q'.env.succeeded == q.env.succeeded && q'.env.abandoned == q.env.abandoned
      && t !in q.env.timers && q'.env.timers == q.env.timers[t := Timer(it, 5 * Pow2(n))]
  {
    TimersBefore(q);
    FailureShape(q, r, n);
    hide Good, ReleaseSlot, Pow2, Apply, SetRetryCount, KeyOf;
    var sid := q.env.running[r].task.session;
    var q1 := SetRetryCount(RemoveRunner(q, r), sid, n + 1);
    CountBooks(RemoveRunner(q, r), sid, n + 1);
    EndBooks(q1, sid);
    t := ReleaseSlot(q1, sid).env.clock;
  }

  lemma TimersBefore(q: State)
    requires Good(q)
    ensures forall t | t in q.env.timers :: t < q.env.clock
  {
    hide Ordered, WorkConserving, RetryCounts;
  }

  lemma {:induction false} StartBooksSame(q: State)
    ensures var q' := StartFromWaiting(q);
      && q'.env.succeeded == q.env.succeeded && q'.env.abandoned == q.env.abandoned
      && q'.env.timers == q.env.timers && q'.env.clock >= q.env.clock
    decreases |q.waiting|
  {
    hide SortByPriority, FirstIdle;
    if q.waiting != [] && q.activeCount < q.cap {
      var w := SortByPriority(q.waiting);
      var i := FirstIdle(q, w);
      if i < |w| { StartBooksSame(Start(q.(waiting := w[..i] + w[i + 1..]), w[i])); }
    }
  }

  lemma EndBooks(q: State, sid: SessionId)
    requires sid in q.sessions
    ensures forall q' | q' == AfterTask(q, sid) || q' == ReleaseSlot(q, sid) ::
      && q'.env.succeeded == q.env.succeeded && q'.env.abandoned == q.env.abandoned
      && q'.env.timers == q.env.timers && q'.env.clock >= q.env.clock
  {
    hide SortByPriority, StartFromWaiting;
    StartBooksSame(Vacate(q, sid));
  }

  /** An idle worker is asked to close, in the directory registered last, if and only if work of
      its session is pending. */
  lemma IdleCloses(q: State, sid: SessionId, dir: string)
    requires sid in q.sessions
    ensures var q' := NotifyIdle(RegisterContainer(q, sid, dir), sid);
      && sid in q'.sessions && q'.sessions[sid].idleWaiting
      && q'.env.sentinels == q.env.sentinels + (if q.sessions[sid].pending != [] then {dir} else {})
    ensures NotifyIdle(UnregisterContainer(q, sid), sid).env.sentinels == q.env.sentinels
  {}
}
