/** The session queue as a value: its fields, its environment, and one function per atomic step.

    No critical section of the queue awaits, so its lock is never contended and each of
    enqueue, a runner's end, a retry timer's expiry and the start of a shutdown is one step.
    The environment part (`Env`) is the bookkeeping the asyncio loop does for the queue, plus a
    ledger of what became of every accepted task. */
module Queue {
  import opened Wrappers

  const MAX_RETRIES: int := 5
  const BASE_RETRY_S: int := 5

  type SessionId = string
  type RunnerId = nat
  type TimerId = nat

  /** The identity of a scheduled coroutine function. */
  type ScheduledFn = nat

  datatype Kind = Planner | Executor | Handoff | Scheduled

  datatype Task = Task(
    priority: int,
    session: SessionId,
    kind: Kind,
    scheduledFn: Option<ScheduledFn>,
    taskId: Option<string>,
    direction: Option<string>)

  /** A call of one of the four public enqueue methods. */
  datatype Request =
    | EnqueuePlanner(session: SessionId)
    | EnqueueExecutor(session: SessionId)
    | EnqueueHandoff(session: SessionId, direction: string)
    | EnqueueScheduled(session: SessionId, taskId: string, fn: ScheduledFn)

  function TaskOf(r: Request): Task {
    match r
    case EnqueuePlanner(s) => Task(3, s, Planner, None, None, None)
    case EnqueueExecutor(s) => Task(2, s, Executor, None, None, None)
    case EnqueueHandoff(s, d) => Task(1, s, Handoff, None, None, Some(d))
    case EnqueueScheduled(s, id, fn) => Task(0, s, Scheduled, Some(fn), Some(id), None)
  }

  /** The call a retry timer makes when it expires; None when no branch applies. */
  function RetryRequest(t: Task): Option<Request> {
    if t.kind == Planner then Some(EnqueuePlanner(t.session))
    else if t.kind == Executor then Some(EnqueueExecutor(t.session))
    else if t.kind == Handoff && t.direction.Some? then Some(EnqueueHandoff(t.session, t.direction.value))
    else if t.kind == Scheduled && t.scheduledFn.Some? && t.taskId.Some? && t.taskId.value != "" then
      Some(EnqueueScheduled(t.session, t.taskId.value, t.scheduledFn.value))
    else None
  }

  /** A queued task. `origin` identifies the accepted task through its retries; `arrival` is
      the moment of the latest enqueue. */
  datatype Item = Item(origin: nat, arrival: nat, task: Task)

  /** An accepted task, as the ledger counts it. */
  datatype Accepted = Accepted(origin: nat, task: Task)

  function KeyOf(it: Item): Accepted { Accepted(it.origin, it.task) }

  datatype SessionState = SessionState(
    active: bool,
    idleWaiting: bool,
    isScheduledTask: bool,
    pending: seq<Item>,
    ipcInputDir: Option<string>,
    retryCount: int)

  const FRESH_SESSION := SessionState(false, false, false, [], None, 0)

  datatype Timer = Timer(item: Item, delay: int)

  datatype Env = Env(
    running: map<RunnerId, Item>,
    timers: map<TimerId, Timer>,
    accepted: multiset<Accepted>,
    succeeded: multiset<Accepted>,
    abandoned: multiset<Accepted>,
    dropped: multiset<Accepted>,
    sentinels: set<string>,
    clock: nat)

  datatype State = State(
    cap: int,
    sessions: map<SessionId, SessionState>,
    waiting: seq<Item>,
    activeCount: int,
    shuttingDown: bool,
    workers: map<SessionId, RunnerId>,
    env: Env)

  function Init(cap: int): State {
    State(cap, map[], [], 0, false, map[],
          Env(map[], map[], multiset{}, multiset{}, multiset{}, multiset{}, {}, 0))
  }

  /** `_sessions.setdefault(sid, ...)`, read only. */
  function Session(q: State, sid: SessionId): SessionState {
    if sid in q.sessions then q.sessions[sid] else FRESH_SESSION
  }

  // ---- list.sort(key=priority) ------------------------------------------------------------

  function Insert(s: seq<Item>, x: Item): (r: seq<Item>)
    ensures |r| == |s| + 1
  {
    if s == [] || s[|s| - 1].task.priority <= x.task.priority then s + [x]
    else Insert(s[..|s| - 1], x) + [s[|s| - 1]]
  }

  /** Python's stable sort by priority. */
  function SortByPriority(s: seq<Item>): (r: seq<Item>)
    ensures |r| == |s|
  {
    if s == [] then [] else Insert(SortByPriority(s[..|s| - 1]), s[|s| - 1])
  }

  // ---- Steps ------------------------------------------------------------------------------

  function SendClose(q: State, s: SessionState): State {
    if s.ipcInputDir.None? then q
    else q.(env := q.env.(sentinels := q.env.sentinels + {s.ipcInputDir.value}))
  }

  /** The guard in front of the idle preemption of an active session. */
  predicate SomeTaskPreempts(pending: seq<Item>)
    requires pending != []
  {
    exists i | 0 <= i < |pending| :: pending[i].task.priority < pending[|pending| - 1].task.priority + 1
  }

  /** `asyncio.create_task(self._run_task(item))`, registered under the item's session. */
  function Launch(q: State, it: Item): State {
    q.(workers := q.workers[it.task.session := q.env.clock],
       env := q.env.(running := q.env.running[q.env.clock := it], clock := q.env.clock + 1))
  }

  /** Take a slot for the item's session and launch it. */
  function Start(q: State, it: Item): State {
    var s := Session(q, it.task.session).(active := true, isScheduledTask := it.task.kind == Scheduled);
    Launch(q.(activeCount := q.activeCount + 1, sessions := q.sessions[it.task.session := s]), it)
  }

  /** The body of `_enqueue` below the shutdown test. */
  function Admit(q: State, it: Item): State {
    var sid := it.task.session;
    var s := Session(q, sid);
    if s.active then
      var s' := s.(pending := SortByPriority(s.pending + [it]));
      var q' := q.(sessions := q.sessions[sid := s']);
      if s'.idleWaiting && SomeTaskPreempts(s'.pending) then SendClose(q', s') else q'
    else if q.activeCount >= q.cap then
      q.(sessions := q.sessions[sid := s], waiting := SortByPriority(q.waiting + [it]))
    else
      Start(q, it)
  }

  // The ledger and the environment.

  function Accept(q: State, it: Item): State {
    q.(env := q.env.(accepted := q.env.accepted + multiset{KeyOf(it)}, clock := q.env.clock + 1))
  }

  function Succeed(q: State, it: Item): State {
    q.(env := q.env.(succeeded := q.env.succeeded + multiset{KeyOf(it)}))
  }

  function Abandon(q: State, it: Item): State {
    q.(env := q.env.(abandoned := q.env.abandoned + multiset{KeyOf(it)}))
  }

  function Drop(q: State, it: Item): State {
    q.(env := q.env.(dropped := q.env.dropped + multiset{KeyOf(it)}))
  }

  function RemoveRunner(q: State, r: RunnerId): State {
    q.(env := q.env.(running := q.env.running - {r}))
  }

  function ArmTimer(q: State, it: Item, delay: int): State {
    q.(env := q.env.(timers := q.env.timers[q.env.clock := Timer(it, delay)], clock := q.env.clock + 1))
  }

  function RemoveTimer(q: State, t: TimerId): State {
    q.(env := q.env.(timers := q.env.timers - {t}))
  }

  function Tick(q: State): State { q.(env := q.env.(clock := q.env.clock + 1)) }

  /** A client's call of one of the public enqueue methods. */
  function Enqueue(q: State, r: Request): State {
    if q.shuttingDown then q
    else
      var it := Item(q.env.clock, q.env.clock, TaskOf(r));
      Admit(Accept(q, it), it)
  }

  /** The position of the first waiting item whose session is not active, or the length. */
  function FirstIdle(q: State, w: seq<Item>): (i: nat)
    ensures i <= |w|
    ensures forall j | 0 <= j < i :: Session(q, w[j].task.session).active
    ensures i < |w| ==> !Session(q, w[i].task.session).active
  {
    if w == [] || !Session(q, w[0].task.session).active then 0 else FirstIdle(q, w[1..]) + 1
  }

  /** `_maybe_start_from_waiting`. */
  function StartFromWaiting(q: State): State
    decreases |q.waiting|
  {
    if q.waiting == [] || q.activeCount >= q.cap then q
    else
      var w := SortByPriority(q.waiting);
      var i := FirstIdle(q, w);
      if i == |w| then q.(waiting := w)
      else StartFromWaiting(Start(q.(waiting := w[..i] + w[i + 1..]), w[i]))
  }

  /** The session gives up its slot: the common part of `_release_slot` and `_after_task`. */
  function Vacate(q: State, sid: SessionId): State
    requires sid in q.sessions
  {
    q.(sessions := q.sessions[sid := q.sessions[sid].(active := false, idleWaiting := false)],
       activeCount := Max(0, q.activeCount - 1),
       workers := q.workers - {sid})
  }

  function ReleaseSlot(q: State, sid: SessionId): State
    requires sid in q.sessions
  {
    StartFromWaiting(Vacate(q, sid))
  }

  /** `_after_task`: run the session's next pending task in the same slot, or give the slot up. */
  function AfterTask(q: State, sid: SessionId): State
    requires sid in q.sessions
  {
    var s := q.sessions[sid];
    if s.pending == [] then ReleaseSlot(q, sid)
    else
      var p := SortByPriority(s.pending);
      var s' := s.(pending := p[1..], idleWaiting := false, isScheduledTask := p[0].task.kind == Scheduled);
      Launch(q.(sessions := q.sessions[sid := s'], workers := q.workers - {sid}), p[0])
  }

  function SetRetryCount(q: State, sid: SessionId, n: int): State
    requires sid in q.sessions
  {
    q.(sessions := q.sessions[sid := q.sessions[sid].(retryCount := n)])
  }

  function Pow2(n: nat): nat { if n == 0 then 1 else 2 * Pow2(n - 1) }

  function RetryDelay(attempt: int): int
    requires attempt >= 1
  {
    BASE_RETRY_S * Pow2(attempt - 1)
  }

  function HandleFailure(q: State, it: Item): State
    requires it.task.session in q.sessions
    requires q.sessions[it.task.session].retryCount >= 0
  {
    var sid := it.task.session;
    var n := q.sessions[sid].retryCount + 1;
    if n > MAX_RETRIES then AfterTask(SetRetryCount(Abandon(q, it), sid, 0), sid)
    else ArmTimer(ReleaseSlot(SetRetryCount(q, sid, n), sid), it, RetryDelay(n))
  }

  /** The end of a runner: its coroutine returned true, or it returned false or raised. */
  function Finish(q: State, r: RunnerId, success: bool): State
    requires r in q.env.running
    requires q.env.running[r].task.session in q.sessions
    requires q.sessions[q.env.running[r].task.session].retryCount >= 0
  {
    var it := q.env.running[r];
    var sid := it.task.session;
    if success then AfterTask(SetRetryCount(Succeed(RemoveRunner(q, r), it), sid, 0), sid)
    else HandleFailure(RemoveRunner(q, r), it)
  }

  /** The end of a retry's backoff sleep. */
  function Fire(q: State, t: TimerId): State
    requires t in q.env.timers
  {
    var it := q.env.timers[t].item;
    var q1 := RemoveTimer(q, t);
    var r := RetryRequest(it.task);
    if q1.shuttingDown || r.None? then Drop(q1, it)
    else Admit(Tick(q1), Item(it.origin, q1.env.clock, TaskOf(r.value)))
  }

  function BeginShutdown(q: State): State { q.(shuttingDown := true) }

  function NotifyIdle(q: State, sid: SessionId): State {
    if sid !in q.sessions then q
    else
      var s := q.sessions[sid].(idleWaiting := true);
      var q' := q.(sessions := q.sessions[sid := s]);
      if s.pending != [] then SendClose(q', s) else q'
  }

  function RegisterContainer(q: State, sid: SessionId, dir: string): State {
    q.(sessions := q.sessions[sid := Session(q, sid).(ipcInputDir := Some(dir))])
  }

  function UnregisterContainer(q: State, sid: SessionId): State {
    if sid !in q.sessions then q
    else q.(sessions := q.sessions[sid := q.sessions[sid].(ipcInputDir := None)])
  }

  // ---- Runs -------------------------------------------------------------------------------

  datatype Step =
    | DoEnqueue(request: Request)
    | DoFinish(runner: RunnerId, success: bool)
    | DoFire(timer: TimerId)
    | DoShutdown
    | DoNotifyIdle(session: SessionId)
    | DoRegister(session: SessionId, dir: string)
    | DoUnregister(session: SessionId)

  /** Only a running task can end, and only an armed timer can expire. */
  predicate Enabled(q: State, step: Step) {
    match step
    case DoFinish(r, _) =>
      && r in q.env.running
      && q.env.running[r].task.session in q.sessions
      && q.sessions[q.env.running[r].task.session].retryCount >= 0
    case DoFire(t) => t in q.env.timers
    case _ => true
  }

  function Apply(q: State, step: Step): State
    requires Enabled(q, step)
  {
    match step
    case DoEnqueue(r) => Enqueue(q, r)
    case DoFinish(r, ok) => Finish(q, r, ok)
    case DoFire(t) => Fire(q, t)
    case DoShutdown => BeginShutdown(q)
    case DoNotifyIdle(s) => NotifyIdle(q, s)
    case DoRegister(s, d) => RegisterContainer(q, s, d)
    case DoUnregister(s) => UnregisterContainer(q, s)
  }

  /** The steps can be taken one after the other from q. */
  predicate IsRun(q: State, steps: seq<Step>)
    decreases |steps|
  {
    steps == [] || (Enabled(q, steps[0]) && IsRun(Apply(q, steps[0]), steps[1..]))
  }

  function After(q: State, steps: seq<Step>): State
    requires IsRun(q, steps)
    decreases |steps|
  {
    if steps == [] then q else After(Apply(q, steps[0]), steps[1..])
  }
}
