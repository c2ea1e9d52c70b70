/** The drift-corrected scheduler: next-run arithmetic in microseconds, the tick over a table of
    tasks, and which slots a sequence of ticks fires. */
module Scheduler {
  import opened Wrappers

  datatype Kind = Once | Interval | Cron | Other(name: string)

  datatype Task = Task(
    id: string, kind: Kind, seconds: Option<int>, cron: Option<string>, zone: string,
    nextRun: Option<int>, enabled: bool)

  /** The cron library: expression, time zone, now. */
  type Croniter = (string, string, int) -> Result<int, string>

  function Period(seconds: int): int { seconds * 1_000_000 }

  /** The first slot after the anchor that lies in the future, without the loop. */
  function NextSlot(anchor: int, period: int, now: int): int
    requires period > 0
  {
    if now < anchor then anchor + period else anchor + ((now - anchor) / period + 1) * period
  }

  function NextRun(croniter: Croniter, t: Task, now: int): Result<Option<int>, string> {
    match t.kind
    case Once => Ok(if t.nextRun.Some? && now < t.nextRun.value then t.nextRun else None)
    case Interval =>
      if t.seconds.None? || t.seconds.value <= 0 then Err("interval task must have a positive interval_s")
      else if t.nextRun.None? then Ok(Some(now + Period(t.seconds.value)))
      else Ok(Some(NextSlot(t.nextRun.value, Period(t.seconds.value), now)))
    case Cron =>
      if t.cron.None? then Err("cron task must have a cron_expr")
      else
        var r := croniter(t.cron.value, t.zone, now);
        if r.Ok? then Ok(Some(r.value)) else Err(r.error)
    case Other(name) => Err("unknown schedule_type")
  }

  // ---- The loop and its closed form ---------------------------------------------------------

  lemma Times(a: int, b: int, d: int)
    requires d > 0
    ensures a <= b ==> a * d <= b * d
  {}

  lemma DivExact(k: int, d: int, r: int)
    requires d > 0 && 0 <= r < d
    ensures (k * d + r) / d == k
  {
    var q := (k * d + r) / d;
    Times(q + 1, k, d);
    Times(k + 1, q, d);
  }

  lemma NextSlotAt(anchor: int, period: int, now: int, k: int)
    requires period > 0 && k >= 1 && now < anchor + k * period
    requires k == 1 || anchor + (k - 1) * period <= now
    ensures NextSlot(anchor, period, now) == anchor + k * period
  {
    assert (k - 1) * period == k * period - period;
    Times(1, k - 1, period);
    if now >= anchor {
      DivExact(k - 1, period, now - anchor - (k - 1) * period);
    }
  }

  /** The next run is the least `anchor + k * period`, k >= 1, above `now`. */
  lemma NextSlotLeast(anchor: int, period: int, now: int) returns (k: int)
    requires period > 0
    ensures k >= 1 && NextSlot(anchor, period, now) == anchor + k * period > now
    ensures forall j: int :: 1 <= j < k ==> anchor + j * period <= now
  {
    k := if now < anchor then 1 else (now - anchor) / period + 1;
    if now >= anchor {
      var q := (now - anchor) / period;
      assert now - anchor == q * period + (now - anchor) % period;
      assert (q + 1) * period == q * period + period;
      forall j: int | 1 <= j < k ensures anchor + j * period <= now {
        assert j * period <= q * period;
      }
    }
  }

  method ComputeNextRun(croniter: Croniter, t: Task, now: int) returns (r: Result<Option<int>, string>)
    ensures r == NextRun(croniter, t, now)
  {
    match t.kind {
      case Once =>
        if t.nextRun.None? { return Ok(None); }
        if now < t.nextRun.value { return Ok(t.nextRun); }
        return Ok(None);
      case Interval =>
        if t.seconds.None? || t.seconds.value <= 0 { return Err("interval task must have a positive interval_s"); }
        var period := Period(t.seconds.value);
        if t.nextRun.None? { return Ok(Some(now + period)); }
        var next := t.nextRun.value + period;
        ghost var k := 1;
        while next <= now
          invariant k >= 1 && next == t.nextRun.value + k * period
          invariant k == 1 || t.nextRun.value + (k - 1) * period <= now
          decreases now - next
        {
          assert (k + 1) * period == k * period + period;
          next := next + period;
          k := k + 1;
        }
        NextSlotAt(t.nextRun.value, period, now, k);
        return Ok(Some(next));
      case Cron =>
        if t.cron.None? { return Err("cron task must have a cron_expr"); }
        var next := croniter(t.cron.value, t.zone, now);
        return if next.Ok? then Ok(Some(next.value)) else Err(next.error);
      case Other(_) =>
        return Err("unknown schedule_type");
    }
  }

  // ---- The table of tasks -------------------------------------------------------------------

  /** The dictionary of tasks in insertion order; every task sits under its own id. */
  ghost predicate DistinctIds(table: seq<Task>) {
    forall i, j | 0 <= i < j < |table| :: table[i].id != table[j].id
  }

  datatype Firing = Firing(id: string, slot: int, at: int)

  datatype Ticked = Ticked(table: seq<Task>, fired: seq<Firing>, error: Option<string>)

  predicate Due(t: Task, now: int) { t.enabled && t.nextRun.Some? && t.nextRun.value <= now }

  datatype Handled = Handled(kept: seq<Task>, fired: seq<Firing>, error: Option<string>)

  /** What a tick does with one task: a due task fires; a `once` task then leaves the table, any
      other gets its next run. A task whose next run cannot be computed has fired all the same. */
  function TickTask(croniter: Croniter, t: Task, now: int): (r: Handled)
    ensures |r.kept| <= 1
  {
    if !Due(t, now) then Handled([t], [], None)
    else
      var fired := [Firing(t.id, t.nextRun.value, now)];
      if t.kind.Once? then Handled([], fired, None)
      else
        var next := NextRun(croniter, t, now);
        if next.Err? then Handled([t], fired, Some(next.error))
        else Handled([t.(nextRun := next.value)], fired, None)
  }

  /** A tick handles the tasks in table order and stops at the first error. */
  function TickTable(croniter: Croniter, table: seq<Task>, now: int): Ticked {
    if table == [] then Ticked([], [], None)
    else
      var h := TickTask(croniter, table[0], now);
      if h.error.Some? then Ticked(h.kept + table[1..], h.fired, h.error)
      else
        var rest := TickTable(croniter, table[1..], now);
        Ticked(h.kept + rest.table, h.fired + rest.fired, rest.error)
  }

  function Position(table: seq<Task>, id: string): (k: nat)
    ensures k <= |table|
    ensures k < |table| ==> table[k].id == id
    ensures forall i | 0 <= i < k :: table[i].id != id
  {
    if table == [] then 0 else if table[0].id == id then 0 else 1 + Position(table[1..], id)
  }

  function Put(table: seq<Task>, t: Task): seq<Task> {
    var k := Position(table, t.id);
    if k < |table| then table[k := t] else table + [t]
  }

  function Pop(table: seq<Task>, id: string): seq<Task> {
    var k := Position(table, id);
    if k < |table| then table[..k] + table[k + 1..] else table
  }

  function RegisterIn(croniter: Croniter, table: seq<Task>, t: Task, now: int): Result<seq<Task>, string> {
    if t.nextRun.Some? then Ok(Put(table, t))
    else
      var next := NextRun(croniter, t, now);
      if next.Err? then Err(next.error) else Ok(Put(table, t.(nextRun := next.value)))
  }

  /** A task as the object the scheduler updates in place. */
  class ScheduledTask {
    const id: string
    const kind: Kind
    const seconds: Option<int>
    const cron: Option<string>
    const zone: string
    var nextRun: Option<int>
    var enabled: bool

    function View(): Task
      reads this
    {
      Task(id, kind, seconds, cron, zone, nextRun, enabled)
    }

    constructor (t: Task)
      ensures View() == t
    {
      id, kind, seconds, cron, zone := t.id, t.kind, t.seconds, t.cron, t.zone;
      nextRun, enabled := t.nextRun, t.enabled;
    }
  }

  function Views(tasks: seq<ScheduledTask>): (r: seq<Task>)
    reads tasks
    ensures |r| == |tasks|
  {
    seq(|tasks|, i requires 0 <= i < |tasks| reads tasks => tasks[i].View())
  }

  /** The first i tasks of the table have been handled: this is what they have become, and the
      rest of the tick is the tick of the rest. */
  ghost predicate Sofar(croniter: Croniter, table: seq<Task>, now: int, i: nat, kept: seq<Task>, fired: seq<Firing>) {
    && i <= |table|
    && var rest := TickTable(croniter, table[i..], now);
       TickTable(croniter, table, now) == Ticked(kept + rest.table, fired + rest.fired, rest.error)
  }

  lemma NothingTicked(croniter: Croniter, table: seq<Task>, now: int)
    ensures Sofar(croniter, table, now, 0, [], [])
  {
    assert table[0..] == table;
  }

  lemma AllTicked(croniter: Croniter, table: seq<Task>, now: int, kept: seq<Task>, fired: seq<Firing>)
    requires Sofar(croniter, table, now, |table|, kept, fired)
    ensures TickTable(croniter, table, now) == Ticked(kept, fired, None)
  {}

  lemma TickNext(croniter: Croniter, table: seq<Task>, now: int, i: nat, kept: seq<Task>, fired: seq<Firing>)
    requires i < |table| && Sofar(croniter, table, now, i, kept, fired)
    ensures var h := TickTask(croniter, table[i], now);
      if h.error.None? then Sofar(croniter, table, now, i + 1, kept + h.kept, fired + h.fired)
      else TickTable(croniter, table, now) == Ticked(kept + h.kept + table[i + 1..], fired + h.fired, h.error)
  {
    hide TickTask;
    assert table[i..][1..] == table[i + 1..];
  }

  lemma ViewsFirst(tasks: seq<ScheduledTask>)
    requires tasks != []
    ensures Views(tasks)[0] == tasks[0].View() && Views(tasks[1..]) == Views(tasks)[1..]
  {}

  lemma ViewsAppend(tasks: seq<ScheduledTask>, more: seq<ScheduledTask>)
    ensures Views(tasks + more) == Views(tasks) + Views(more)
  {}

  lemma ViewsEmpty()
    ensures Views([]) == []
  {}

  class DriftCorrectedScheduler {
    /** The task dictionary in insertion order. */
    var tasks: seq<ScheduledTask>

    ghost predicate Valid()
      reads this
    {
      forall i, j | 0 <= i < j < |tasks| :: tasks[i].id != tasks[j].id
    }

    function Table(): seq<Task>
      reads this, tasks
    {
      Views(tasks)
    }

    constructor ()
      ensures Valid() && Table() == []
    {
      tasks := [];
    }

    method Find(id: string) returns (k: nat)
      ensures k == Position(Table(), id) <= |tasks|
      ensures k < |tasks| ==> tasks[k].id == id
      ensures forall i | 0 <= i < k :: tasks[i].id != id
    {
      k := 0;
      while k < |tasks| && tasks[k].id != id
        invariant k <= |tasks|
        invariant forall i | 0 <= i < k :: tasks[i].id != id
      {
        k := k + 1;
      }
      PositionAt(Table(), id, k);
    }

    /** `tasks[task.id] = task`: in its old place when the id is known, at the end otherwise. */
    method Store(task: ScheduledTask)
      requires Valid()
      modifies this
      ensures Valid() && task in tasks
      ensures Table() == Put(old(Table()), task.View())
    {
      hide Position;
      var k := Find(task.id);
      tasks := if k < |tasks| then tasks[k := task] else tasks + [task];
      assert tasks[k] == task;
      ghost var want := Put(old(Table()), task.View());
      assert k == Position(old(Table()), task.id);
      assert |Table()| == |want|;
      forall i | 0 <= i < |want| ensures Table()[i] == want[i] {}
      assert Table() == want;
    }

    method Register(croniter: Croniter, task: ScheduledTask, now: int) returns (error: Option<string>)
      requires Valid()
      modifies this, task
      ensures Valid()
      ensures var r := RegisterIn(croniter, old(Table()), old(task.View()), now);
        if r.Err? then error == Some(r.error) && Table() == old(Table())
        else error == None && Table() == r.value && task in tasks
    {
      if task.nextRun.None? {
        var next := ComputeNextRun(croniter, task.View(), now);
        if next.Err? { return Some(next.error); }
        task.nextRun := next.value;
      }
      PutSame(old(Table()), Table(), task.View());
      Store(task);
      error := None;
    }

    method Unregister(id: string)
      requires Valid()
      modifies this
      ensures Valid() && Table() == Pop(old(Table()), id)
      ensures forall k | 0 <= k < |old(tasks)| && old(tasks)[k].id == id ::
        tasks == old(tasks)[..k] + old(tasks)[k + 1..]
    {
      hide Position;
      var k := Find(id);
      ghost var was := Table();
      if k < |tasks| {
        tasks := tasks[..k] + tasks[k + 1..];
        assert Table() == was[..k] + was[k + 1..];
      }
    }

    /** Unregistering the task between two stretches of the table. */
    method Drop(task: ScheduledTask, ghost kept: seq<ScheduledTask>, ghost rest: seq<ScheduledTask>)
      requires Valid() && tasks == kept + [task] + rest
      modifies this
      ensures Valid() && tasks == kept + rest
    {
      hide Position, Views;
      ghost var k := |kept|;
      assert tasks[k] == task && tasks[..k] == kept && tasks[k + 1..] == rest;
      Unregister(task.id);
    }

    method HandleTask(
        croniter: Croniter, task: ScheduledTask, now: int, ghost kept: seq<ScheduledTask>, ghost rest: seq<ScheduledTask>)
        returns (fired: seq<Firing>, error: Option<string>, ghost still: seq<ScheduledTask>)
      requires Valid() && tasks == kept + [task] + rest
      modifies this, task
      ensures Valid() && tasks == kept + still + rest
      ensures Handled(Views(still), fired, error) == TickTask(croniter, old(task.View()), now)
      ensures Views(kept) == old(Views(kept)) && Views(rest) == old(Views(rest))
    {
      hide NextRun, Position;
      assert forall i | 0 <= i < |kept| :: kept[i] == tasks[i] && tasks[|kept|] == task;
      assert forall i | 0 <= i < |rest| :: rest[i] == tasks[|kept| + 1 + i];
      fired, error, still := [], None, [task];
      if task.enabled && task.nextRun.Some? && task.nextRun.value <= now {
        fired := [Firing(task.id, task.nextRun.value, now)];
        if task.kind.Once? {
          Drop(task, kept, rest);
          still := [];
        } else {
          var next := ComputeNextRun(croniter, task.View(), now);
          if next.Err? {
            error := Some(next.error);
          } else {
            task.nextRun := next.value;
          }
        }
      }
    }

    /** Fires every due task of the table at the time of the call, in order. */
    method Tick(croniter: Croniter, now: int) returns (fired: seq<Firing>, error: Option<string>)
      requires Valid()
      modifies this, tasks
      ensures Valid()
      ensures Ticked(Table(), fired, error) == TickTable(croniter, old(Table()), now)
    {
      hide TickTable, TickTask, Position, Sofar, Views;
      ghost var table := Table();
      ghost var kept: seq<ScheduledTask>, done: seq<Task> := [], [];
      ViewsEmpty();
      var snapshot := tasks;
      fired, error := [], None;
      NothingTicked(croniter, table, now);
      var i := 0;
      while i < |snapshot|
        invariant i <= |snapshot| == |table| && Valid()
        invariant tasks == kept + snapshot[i..] && snapshot == old(tasks)
        invariant Views(snapshot[i..]) == table[i..] && Views(kept) == done
        invariant Sofar(croniter, table, now, i, done, fired)
      {
        ViewsFirst(snapshot[i..]);
        ghost var rest := snapshot[i + 1..];
        assert snapshot[i..][1..] == rest && table[i..][1..] == table[i + 1..];
        assert tasks == kept + [snapshot[i]] + rest;
        TickNext(croniter, table, now, i, done, fired);
        var firings, raised, still := HandleTask(croniter, snapshot[i], now, kept, rest);
        ViewsAppend(kept, still);
        ViewsAppend(kept + still, rest);
        fired := fired + firings;
        if raised.Some? {
          return fired, raised;
        }
        kept, done := kept + still, done + Views(still);
        i := i + 1;
      }
      assert tasks == kept;
      AllTicked(croniter, table, now, done, fired);
    }
  }

  /** Two tables with the same ids that differ only where the new task goes. */
  lemma PutSame(table: seq<Task>, other: seq<Task>, t: Task)
    requires |table| == |other| && DistinctIds(table)
    requires forall i | 0 <= i < |table| :: table[i].id == other[i].id && (table[i].id == t.id || table[i] == other[i])
    ensures Put(table, t) == Put(other, t)
  {
    hide Position;
    PositionAt(table, t.id, Position(other, t.id));
  }

  lemma {:induction false} PositionAt(table: seq<Task>, id: string, k: nat)
    requires k <= |table| && (k < |table| ==> table[k].id == id)
    requires forall i | 0 <= i < k :: table[i].id != id
    ensures Position(table, id) == k
  {}
}
