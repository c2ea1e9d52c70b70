/** The queue as the class it is: fields updated step by step, each step proved equal to the
    corresponding function on states, so that every guarantee about runs holds of the object. */
module SessionQueues {
  import opened Wrappers
  import opened Queue
  import opened QueueRuns

  class SessionQueue {
    const maxConcurrent: int
    var sessions: map<SessionId, SessionState>
    var waiting: seq<Item>
    var activeCount: int
    var shuttingDown: bool
    var activeWorkers: map<SessionId, RunnerId>

    /** The event loop's side: what runs, which timers are armed, and the ledger. */
    var env: Env

    ghost function Abs(): State
      reads this
    {
      State(maxConcurrent, sessions, waiting, activeCount, shuttingDown, activeWorkers, env)
    }

    ghost predicate Valid()
      reads this
    {
      Inv(Abs())
    }

    constructor (maxConcurrent: int)
      ensures Valid() && Abs() == Init(maxConcurrent)
    {
      this.maxConcurrent := maxConcurrent;
      sessions, waiting, activeCount, shuttingDown, activeWorkers := map[], [], 0, false, map[];
      env := Env(map[], map[], multiset{}, multiset{}, multiset{}, multiset{}, {}, 0);
      new;
      InitInv(maxConcurrent);
    }

    // ---- Public methods -------------------------------------------------------------------

    method Enqueue(r: Request)
      requires Valid()
      modifies this
      ensures Valid() && Abs() == Apply(old(Abs()), DoEnqueue(r))
    {
      hide Inv, Admit;
      ghost var q := Abs();
      StepInv(q, DoEnqueue(r));
      if shuttingDown {
        return;
      }
      var it := Item(env.clock, env.clock, TaskOf(r));
      env := env.(accepted := env.accepted + multiset{KeyOf(it)}, clock := env.clock + 1);
      AdmitTask(it);
    }

    /** `shutdown`, up to the wait for the active workers. */
    method BeginShutdown()
      requires Valid()
      modifies this`shuttingDown
      ensures Valid() && Abs() == Apply(old(Abs()), DoShutdown)
    {
      hide Inv;
      StepInv(Abs(), DoShutdown);
      shuttingDown := true;
    }

    method NotifyIdle(sid: SessionId)
      requires Valid()
      modifies this
      ensures Valid() && Abs() == Apply(old(Abs()), DoNotifyIdle(sid))
    {
      hide Inv;
      StepInv(Abs(), DoNotifyIdle(sid));
      if sid !in sessions {
        return;
      }
      sessions := sessions[sid := sessions[sid].(idleWaiting := true)];
      if sessions[sid].pending != [] {
        SendClose(sid);
      }
    }

    method RegisterContainer(sid: SessionId, dir: string)
      requires Valid()
      modifies this
      ensures Valid() && Abs() == Apply(old(Abs()), DoRegister(sid, dir))
    {
      hide Inv;
      StepInv(Abs(), DoRegister(sid, dir));
      SetDefault(sid);
      sessions := sessions[sid := sessions[sid].(ipcInputDir := Some(dir))];
      assert sessions == old(sessions)[sid := sessions[sid]];
    }

    method UnregisterContainer(sid: SessionId)
      requires Valid()
      modifies this
      ensures Valid() && Abs() == Apply(old(Abs()), DoUnregister(sid))
    {
      hide Inv;
      StepInv(Abs(), DoUnregister(sid));
      if sid in sessions {
        sessions := sessions[sid := sessions[sid].(ipcInputDir := None)];
      }
    }

    // ---- What the event loop calls --------------------------------------------------------

    /** The rest of `_run_task` once its coroutine has ended. */
    method RunnerEnds(r: RunnerId, success: bool)
      requires Valid() && r in env.running
      modifies this
      ensures Valid() && Enabled(old(Abs()), DoFinish(r, success))
      ensures Abs() == Apply(old(Abs()), DoFinish(r, success))
    {
      hide Inv, Queue.AfterTask, Queue.HandleFailure;
      RunnerCanEnd(Abs(), r, success);
      StepInv(Abs(), DoFinish(r, success));
      var it := env.running[r];
      var sid := it.task.session;
      env := env.(running := env.running - {r});
      if success {
        env := env.(succeeded := env.succeeded + multiset{KeyOf(it)});
        sessions := sessions[sid := sessions[sid].(retryCount := 0)];
        AfterTask(sid);
      } else {
        HandleFailure(it);
      }
    }

    /** The rest of `_delayed_retry` once its sleep has ended. */
    method TimerExpires(t: TimerId)
      requires Valid() && t in env.timers
      modifies this
      ensures Valid() && Abs() == Apply(old(Abs()), DoFire(t))
    {
      hide Inv, Admit;
      StepInv(Abs(), DoFire(t));
      var it := env.timers[t].item;
      env := env.(timers := env.timers - {t});
      var request := RetryRequest(it.task);
      if shuttingDown || request.None? {
        env := env.(dropped := env.dropped + multiset{KeyOf(it)});
      } else {
        var retried := Item(it.origin, env.clock, TaskOf(request.value));
        env := env.(clock := env.clock + 1);
        AdmitTask(retried);
      }
    }

    // ---- Internals ------------------------------------------------------------------------

    method SetDefault(sid: SessionId)
      modifies this`sessions
      ensures Abs() == old(Abs()).(sessions := old(sessions)[sid := Session(old(Abs()), sid)])
    {
      if sid !in sessions {
        sessions := sessions[sid := FRESH_SESSION];
      } else {
        assert sessions == sessions[sid := sessions[sid]];
      }
    }

    method SendClose(sid: SessionId)
      requires sid in sessions
      modifies this`env
      ensures Abs() == Queue.SendClose(old(Abs()), sessions[sid])
    {
      if sessions[sid].ipcInputDir.Some? {
        env := env.(sentinels := env.sentinels + {sessions[sid].ipcInputDir.value});
      }
    }

    /** `asyncio.create_task(self._run_task(item))`, recorded in `_active_workers`. */
    method Launch(it: Item)
      modifies this`env, this`activeWorkers
      ensures Abs() == Queue.Launch(old(Abs()), it)
    {
      var runner := env.clock;
      env := env.(running := env.running[runner := it], clock := runner + 1);
      activeWorkers := activeWorkers[it.task.session := runner];
    }

    method AdmitTask(it: Item)
      modifies this
      ensures Abs() == Admit(old(Abs()), it)
    {
      hide SortByPriority, SomeTaskPreempts;
      var sid := it.task.session;
      SetDefault(sid);
      var sess := sessions[sid];
      if sess.active {
        var pending := SortByPriority(sess.pending + [it]);
        sessions := sessions[sid := sess.(pending := pending)];
        if sess.idleWaiting && SomeTaskPreempts(pending) {
          SendClose(sid);
        }
        return;
      }
      if activeCount >= maxConcurrent {
        waiting := SortByPriority(waiting + [it]);
        return;
      }
      activeCount := activeCount + 1;
      sessions := sessions[sid := sess.(active := true, isScheduledTask := it.task.kind == Scheduled)];
      Launch(it);
    }

    method HandleFailure(it: Item)
      requires it.task.session in sessions && sessions[it.task.session].retryCount >= 0
      modifies this
      ensures Abs() == Queue.HandleFailure(old(Abs()), it)
    {
      hide Queue.AfterTask, Queue.ReleaseSlot, RetryDelay;
      var sid := it.task.session;
      var attempt := sessions[sid].retryCount + 1;
      if attempt > MAX_RETRIES {
        env := env.(abandoned := env.abandoned + multiset{KeyOf(it)});
        sessions := sessions[sid := sessions[sid].(retryCount := 0)];
        AfterTask(sid);
        return;
      }
      sessions := sessions[sid := sessions[sid].(retryCount := attempt)];
      ReleaseSlot(sid);
      env := env.(timers := env.timers[env.clock := Timer(it, RetryDelay(attempt))], clock := env.clock + 1);
    }

    method ReleaseSlot(sid: SessionId)
      requires sid in sessions
      modifies this
      ensures Abs() == Queue.ReleaseSlot(old(Abs()), sid)
    {
      sessions := sessions[sid := sessions[sid].(active := false, idleWaiting := false)];
      activeCount := Max(0, activeCount - 1);
      activeWorkers := activeWorkers - {sid};
      MaybeStartFromWaiting();
    }

    method AfterTask(sid: SessionId)
      requires sid in sessions
      modifies this
      ensures Abs() == Queue.AfterTask(old(Abs()), sid)
    {
      var sess := sessions[sid];
      activeWorkers := activeWorkers - {sid};
      if sess.pending != [] {
        var pending := SortByPriority(sess.pending);
        var next := pending[0];
        sessions := sessions[sid := sess.(pending := pending[1..], idleWaiting := false,
                                          isScheduledTask := next.task.kind == Scheduled)];
        Launch(next);
      } else {
        sessions := sessions[sid := sess.(active := false, idleWaiting := false)];
        activeCount := Max(0, activeCount - 1);
        MaybeStartFromWaiting();
      }
    }

    /** The scan of `_waiting` for the first task whose session is not active. */
    method FindIdle() returns (i: nat)
      ensures i == FirstIdle(Abs(), waiting)
    {
      i := 0;
      while i < |waiting|
        invariant i <= |waiting|
        invariant forall j | 0 <= j < i :: Session(Abs(), waiting[j].task.session).active
      {
        var sid := waiting[i].task.session;
        if sid !in sessions || !sessions[sid].active {
          assert FirstIdle(Abs(), waiting) == i;
          return;
        }
        i := i + 1;
      }
    }

    method MaybeStartFromWaiting()
      modifies this
      ensures Abs() == StartFromWaiting(old(Abs()))
    {
      hide SortByPriority, FirstIdle, Start;
      while |waiting| > 0 && activeCount < maxConcurrent
        invariant StartFromWaiting(Abs()) == StartFromWaiting(old(Abs()))
        decreases |waiting|
      {
        ghost var q := Abs();
        waiting := SortByPriority(waiting);
        var i := FindIdle();
        assert i == FirstIdle(q, SortByPriority(q.waiting)) by { SameIdle(Abs(), q, waiting); }
        if i == |waiting| {
          return;
        }
        var picked := waiting[i];
        waiting := waiting[..i] + waiting[i + 1..];
        StartPicked(picked);
      }
    }

    method StartPicked(it: Item)
      modifies this
      ensures Abs() == Start(old(Abs()), it) && waiting == old(waiting)
    {
      var sid := it.task.session;
      SetDefault(sid);
      sessions := sessions[sid := sessions[sid].(active := true, isScheduledTask := it.task.kind == Scheduled)];
      activeCount := activeCount + 1;
      Launch(it);
      assert sessions == old(sessions)[sid := sessions[sid]];
    }
  }

  lemma {:induction false} SameIdle(q: State, q': State, w: seq<Item>)
    requires q'.sessions == q.sessions
    ensures FirstIdle(q, w) == FirstIdle(q', w)
  {
    if w != [] { SameIdle(q, q', w[1..]); }
  }
}
