/** Priority order: what the stable sort does, and which task the queue picks next. */
module QueueOrder {
  import opened Wrappers
  import opened Queue

  /** Less by (priority, arrival). */
  predicate Before(a: Item, b: Item) {
    a.task.priority < b.task.priority || (a.task.priority == b.task.priority && a.arrival < b.arrival)
  }

  ghost predicate Sorted(s: seq<Item>) {
    forall i, j | 0 <= i < j < |s| :: Before(s[i], s[j])
  }

  ghost predicate ByPriority(s: seq<Item>) {
    forall i, j | 0 <= i < j < |s| :: s[i].task.priority <= s[j].task.priority
  }

  ghost predicate ArrivedBefore(s: seq<Item>, t: nat) {
    forall i | 0 <= i < |s| :: s[i].arrival < t
  }

  function OfPriority(s: seq<Item>, p: int): seq<Item> {
    if s == [] then []
    else if s[|s| - 1].task.priority == p then OfPriority(s[..|s| - 1], p) + [s[|s| - 1]]
    else OfPriority(s[..|s| - 1], p)
  }

  lemma {:induction false} InsertSorts(s: seq<Item>, x: Item)
    requires ByPriority(s)
    ensures ByPriority(Insert(s, x))
    ensures forall y | y in Insert(s, x) :: y in s || y == x
  {
    if s == [] || s[|s| - 1].task.priority <= x.task.priority {
    } else {
      InsertSorts(s[..|s| - 1], x);
      var r := Insert(s[..|s| - 1], x);
      assert forall i | 0 <= i < |r| :: r[i] in r;
    }
  }

  lemma {:induction false} InsertKeepsOrder(s: seq<Item>, x: Item, p: int)
    requires ByPriority(s)
    ensures OfPriority(Insert(s, x), p) == OfPriority(s, p) + (if x.task.priority == p then [x] else [])
  {
    if s == [] || s[|s| - 1].task.priority <= x.task.priority {
      assert (s + [x])[..|s|] == s;
    } else {
      var n := |s| - 1;
      InsertKeepsOrder(s[..n], x, p);
      assert Insert(s, x)[..n + 1] == Insert(s[..n], x);
    }
  }

  /** The sort is Python's: its result is ordered by priority, and within one priority it is
      the input's own items in the input's own order. */
  lemma {:induction false} SortIsStable(s: seq<Item>)
    ensures ByPriority(SortByPriority(s))
    ensures forall p :: OfPriority(SortByPriority(s), p) == OfPriority(s, p)
  {
    if s == [] {
    } else {
      var n := |s| - 1;
      SortIsStable(s[..n]);
      InsertSorts(SortByPriority(s[..n]), s[n]);
      forall p ensures OfPriority(SortByPriority(s), p) == OfPriority(s, p) {
        InsertKeepsOrder(SortByPriority(s[..n]), s[n], p);
        assert OfPriority(SortByPriority(s[..n]), p) == OfPriority(s[..n], p);
      }
    }
  }

  /** A list in (priority, arrival) order is a fixed point of the sort. */
  lemma {:induction false} SortSorted(s: seq<Item>)
    requires Sorted(s)
    ensures SortByPriority(s) == s
  {
    if s == [] {
    } else {
      var n := |s| - 1;
      SortSorted(s[..n]);
      assert s[..n] + [s[n]] == s;
    }
  }

  lemma {:induction false} InsertLatest(s: seq<Item>, x: Item)
    requires Sorted(s) && ArrivedBefore(s, x.arrival)
    ensures Sorted(Insert(s, x))
    ensures multiset(Insert(s, x)) == multiset(s) + multiset{x}
  {
    if s == [] || s[|s| - 1].task.priority <= x.task.priority {
    } else {
      var n := |s| - 1;
      assert s == s[..n] + [s[n]];
      InsertLatest(s[..n], x);
      var r := Insert(s[..n], x);
      forall i | 0 <= i < |r| ensures Before(r[i], s[n]) {
        assert r[i] in multiset(r);
        assert r[i] in s[..n] || r[i] == x;
      }
    }
  }

  /** Appending the newest item and sorting keeps (priority, arrival) order. */
  lemma AppendLatest(s: seq<Item>, x: Item)
    requires Sorted(s) && ArrivedBefore(s, x.arrival)
    ensures Sorted(SortByPriority(s + [x]))
    ensures multiset(SortByPriority(s + [x])) == multiset(s) + multiset{x}
    ensures forall y | y in SortByPriority(s + [x]) :: y in s || y == x
    ensures x in SortByPriority(s + [x])
  {
    assert (s + [x])[..|s|] == s;
    SortSorted(s);
    InsertLatest(s, x);
    var r := SortByPriority(s + [x]);
    forall y | y in r ensures y in s || y == x { assert y in multiset(r); }
    assert x in multiset(r);
  }

  lemma RemoveKeepsSorted(s: seq<Item>, i: nat)
    requires Sorted(s) && i < |s|
    ensures Sorted(s[..i] + s[i + 1..])
  {}

  /** The order half of the invariant: every list is in (priority, arrival) order, holds only
      tasks of known sessions, and holds nothing that arrives later than now. */
  ghost predicate Ordered(q: State) {
    && Sorted(q.waiting) && ArrivedBefore(q.waiting, q.env.clock)
    && (forall w | w in q.waiting :: w.task.session in q.sessions)
    && (forall s | s in q.sessions :: SessionOrdered(s, q.sessions[s], q.env.clock))
  }

  ghost predicate SessionOrdered(sid: SessionId, s: SessionState, clock: nat) {
    && Sorted(s.pending) && ArrivedBefore(s.pending, clock)
    && (forall p | p in s.pending :: p.task.session == sid)
  }

  lemma PutSession(q: State, sid: SessionId, s: SessionState)
    requires Ordered(q) && SessionOrdered(sid, s, q.env.clock)
    ensures Ordered(q.(sessions := q.sessions[sid := s]))
  {}

  lemma PutWaiting(q: State, w: seq<Item>)
    requires Ordered(q) && Sorted(w) && ArrivedBefore(w, q.env.clock)
    requires forall x | x in w :: x.task.session in q.sessions
    ensures Ordered(q.(waiting := w))
  {}

  lemma AppendArrived(s: seq<Item>, x: Item, t: nat)
    requires ArrivedBefore(s, t) && x.arrival < t
    requires forall y | y in SortByPriority(s + [x]) :: y in s || y == x
    ensures ArrivedBefore(SortByPriority(s + [x]), t)
  {
    var r := SortByPriority(s + [x]);
    forall i | 0 <= i < |r| ensures r[i].arrival < t { assert r[i] in r; }
  }

  lemma StartOrdered(q: State, it: Item)
    requires Ordered(q)
    ensures Ordered(Start(q, it))
  {}

  // `_maybe_start_from_waiting`, one started task at a time.

  predicate CanStart(q: State) {
    q.activeCount < q.cap && FirstIdle(q, q.waiting) < |q.waiting|
  }

  function StartOne(q: State): State
    requires CanStart(q)
  {
    var i := FirstIdle(q, q.waiting);
    Start(q.(waiting := q.waiting[..i] + q.waiting[i + 1..]), q.waiting[i])
  }

  lemma StartsOneByOne(q: State)
    requires Ordered(q)
    ensures StartFromWaiting(q) == if CanStart(q) then StartFromWaiting(StartOne(q)) else q
    ensures CanStart(q) ==> |StartOne(q).waiting| == |q.waiting| - 1
  {
    hide SortByPriority;
    SortSorted(q.waiting);
  }

  lemma StartOneOrdered(q: State)
    requires Ordered(q) && CanStart(q)
    ensures Ordered(StartOne(q))
  {
    var i := FirstIdle(q, q.waiting);
    RemoveKeepsSorted(q.waiting, i);
    StartOrdered(q.(waiting := q.waiting[..i] + q.waiting[i + 1..]), q.waiting[i]);
  }

  lemma {:induction false} StartFromWaitingOrdered(q: State)
    requires Ordered(q)
    ensures Ordered(StartFromWaiting(q))
    decreases |q.waiting|
  {
    hide Ordered, CanStart, StartOne, StartFromWaiting;
    StartsOneByOne(q);
    if CanStart(q) {
      StartOneOrdered(q);
      StartFromWaitingOrdered(StartOne(q));
    }
  }

  lemma AdmitOrdered(q: State, it: Item)
    requires Ordered(q) && ArrivedBefore(q.waiting, it.arrival) && it.arrival < q.env.clock
    requires forall s | s in q.sessions :: ArrivedBefore(q.sessions[s].pending, it.arrival)
    ensures Ordered(Admit(q, it))
  {
    var s := Session(q, it.task.session);
    if s.active {
      AppendLatest(s.pending, it);
      AppendArrived(s.pending, it, q.env.clock);
      PutSession(q, it.task.session, s.(pending := SortByPriority(s.pending + [it])));
    } else if q.activeCount >= q.cap {
      AppendLatest(q.waiting, it);
      AppendArrived(q.waiting, it, q.env.clock);
      PutSession(q, it.task.session, s);
      PutWaiting(q.(sessions := q.sessions[it.task.session := s]), SortByPriority(q.waiting + [it]));
    } else {
      StartOrdered(q, it);
    }
  }

  lemma EnqueueOrdered(q: State, r: Request)
    requires Ordered(q)
    ensures Ordered(Enqueue(q, r))
  {
    var it := Item(q.env.clock, q.env.clock, TaskOf(r));
    AdmitOrdered(Accept(q, it), it);
  }

  lemma SetRetryCountOrdered(q: State, sid: SessionId, n: int)
    requires Ordered(q) && sid in q.sessions
    ensures Ordered(SetRetryCount(q, sid, n))
  {
    PutSession(q, sid, q.sessions[sid].(retryCount := n));
  }

  lemma VacateOrdered(q: State, sid: SessionId)
    requires Ordered(q) && sid in q.sessions
    ensures Ordered(Vacate(q, sid))
  {
    PutSession(q, sid, q.sessions[sid].(active := false, idleWaiting := false));
  }

  lemma ReleaseSlotOrdered(q: State, sid: SessionId)
    requires Ordered(q) && sid in q.sessions
    ensures Ordered(ReleaseSlot(q, sid))
  {
    VacateOrdered(q, sid);
    StartFromWaitingOrdered(Vacate(q, sid));
  }

  lemma RestOrdered(q: State, sid: SessionId)
    requires Ordered(q) && sid in q.sessions && q.sessions[sid].pending != []
    ensures SortByPriority(q.sessions[sid].pending) == q.sessions[sid].pending
    ensures forall s: SessionState | s.pending == q.sessions[sid].pending[1..] :: SessionOrdered(sid, s, q.env.clock)
  {
    SortSorted(q.sessions[sid].pending);
  }

  lemma QuietLaunch(q: State, q': State)
    requires Ordered(q) && q'.sessions == q.sessions && q'.waiting == q.waiting && q'.env.clock >= q.env.clock
    ensures Ordered(q')
  {}

  lemma AfterTaskOrdered(q: State, sid: SessionId)
    requires Ordered(q) && sid in q.sessions
    ensures Ordered(AfterTask(q, sid))
  {
    hide StartFromWaiting, Vacate, Ordered, SortByPriority;
    var s := q.sessions[sid];
    if s.pending == [] {
      ReleaseSlotOrdered(q, sid);
    } else {
      RestOrdered(q, sid);
      var s' := s.(pending := s.pending[1..], idleWaiting := false, isScheduledTask := s.pending[0].task.kind == Scheduled);
      PutSession(q, sid, s');
      QuietLaunch(q.(sessions := q.sessions[sid := s']), AfterTask(q, sid));
    }
  }

  lemma HandleFailureOrdered(q: State, it: Item)
    requires Ordered(q) && it.task.session in q.sessions && q.sessions[it.task.session].retryCount >= 0
    ensures Ordered(HandleFailure(q, it))
  {
    hide StartFromWaiting, Vacate;
    var sid := it.task.session;
    var n := q.sessions[sid].retryCount + 1;
    if n > MAX_RETRIES {
      SetRetryCountOrdered(Abandon(q, it), sid, 0);
      AfterTaskOrdered(SetRetryCount(Abandon(q, it), sid, 0), sid);
    } else {
      SetRetryCountOrdered(q, sid, n);
      ReleaseSlotOrdered(SetRetryCount(q, sid, n), sid);
    }
  }

  lemma FinishOrdered(q: State, r: RunnerId, ok: bool)
    requires Ordered(q) && Enabled(q, DoFinish(r, ok))
    ensures Ordered(Finish(q, r, ok))
  {
    var it := q.env.running[r];
    var sid := it.task.session;
    var q1 := RemoveRunner(q, r);
    if ok {
      SetRetryCountOrdered(Succeed(q1, it), sid, 0);
      AfterTaskOrdered(SetRetryCount(Succeed(q1, it), sid, 0), sid);
    } else {
      HandleFailureOrdered(q1, it);
    }
  }

  lemma FireOrdered(q: State, t: TimerId)
    requires Ordered(q) && t in q.env.timers
    ensures Ordered(Fire(q, t))
  {
    var it := q.env.timers[t].item;
    var q1 := RemoveTimer(q, t);
    var r := RetryRequest(it.task);
    if !q.shuttingDown && r.Some? {
      AdmitOrdered(Tick(q1), Item(it.origin, q1.env.clock, TaskOf(r.value)));
    }
  }

  lemma StepOrdered(q: State, step: Step)
    requires Ordered(q) && Enabled(q, step)
    ensures Ordered(Apply(q, step))
  {
    hide Enqueue, Finish, Fire;
    match step
    case DoEnqueue(r) => EnqueueOrdered(q, r);
    case DoFinish(r, ok) => FinishOrdered(q, r, ok);
    case DoFire(t) => FireOrdered(q, t);
    case DoShutdown =>
    case DoNotifyIdle(sid) =>
      if sid in q.sessions { PutSession(q, sid, q.sessions[sid].(idleWaiting := true)); }
    case DoRegister(sid, dir) => PutSession(q, sid, Session(q, sid).(ipcInputDir := Some(dir)));
    case DoUnregister(sid) =>
      if sid in q.sessions { PutSession(q, sid, q.sessions[sid].(ipcInputDir := None)); }
  }

  // ---- Which task runs next ---------------------------------------------------------------

  lemma OrderedWaiting(q: State)
    requires Ordered(q)
    ensures Sorted(q.waiting)
  {}

  lemma FirstIdleIsLeast(q: State, w: seq<Item>)
    requires Sorted(w)
    ensures var i := FirstIdle(q, w);
            && (i == |w| ==> forall x | x in w :: Session(q, x.task.session).active)
            && (forall x | x in w && !Session(q, x.task.session).active :: i < |w| && (x == w[i] || Before(w[i], x)))
  {
    hide Session;
    var i := FirstIdle(q, w);
    forall x | x in w && !Session(q, x.task.session).active ensures i < |w| && (x == w[i] || Before(w[i], x)) {
      var j :| 0 <= j < |w| && w[j] == x;
      assert i <= j;
      if i < j { assert Before(w[i], w[j]); }
    }
  }

  /** When the queue starts a waiting task, it is the least by (priority, arrival) of those
      whose session is not active, and it leaves the rest in order. */
  lemma StartsLeastIdle(q: State)
    requires Ordered(q) && q.waiting != [] && q.activeCount < q.cap
    ensures var i := FirstIdle(q, q.waiting);
            if i == |q.waiting| then
              && StartFromWaiting(q) == q
              && (forall w | w in q.waiting :: Session(q, w.task.session).active)
            else
              && StartFromWaiting(q) ==
                 StartFromWaiting(Start(q.(waiting := q.waiting[..i] + q.waiting[i + 1..]), q.waiting[i]))
              && (forall w | w in q.waiting && !Session(q, w.task.session).active ::
                    w == q.waiting[i] || Before(q.waiting[i], w))
  {
    hide Ordered, SortByPriority, StartFromWaiting, Start;
    StartsOneByOne(q);
    OrderedWaiting(q);
    FirstIdleIsLeast(q, q.waiting);
  }

  /** The next task of a session is the least of its pending tasks, and the rest stay pending. */
  lemma RunsLeastPending(q: State, sid: SessionId)
    requires Ordered(q) && sid in q.sessions && q.sessions[sid].pending != []
    ensures var p := q.sessions[sid].pending;
            var q' := AfterTask(q, sid);
            && sid in q'.workers && q'.workers[sid] in q'.env.running
            && q'.env.running[q'.workers[sid]] == p[0]
            && (forall w | w in p[1..] :: Before(p[0], w))
            && sid in q'.sessions && q'.sessions[sid].pending == p[1..]
            && q'.activeCount == q.activeCount && q'.waiting == q.waiting
  {
    var p := q.sessions[sid].pending;
    SortSorted(p);
    assert p[0].task.session == sid;
  }

  /** The preemption guard never refuses: any task queued behind an idle worker asks that
      worker to close, whatever the two priorities are. */
  lemma PreemptionIgnoresPriority(q: State, it: Item)
    requires Session(q, it.task.session).active
    ensures var s := Session(q, it.task.session);
            Admit(q, it).env.sentinels ==
            q.env.sentinels + (if s.idleWaiting && s.ipcInputDir.Some? then {s.ipcInputDir.value} else {})
  {
    var p := SortByPriority(Session(q, it.task.session).pending + [it]);
    assert p[|p| - 1].task.priority < p[|p| - 1].task.priority + 1;
  }
}
