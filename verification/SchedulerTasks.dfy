/** What single tasks do over whole runs of the scheduler: a `once` task fires once and is gone, a task that
    is disabled or has no next run never fires, a cron task follows its library. */
module SchedulerTasks {
  import opened Wrappers
  import opened Scheduler
  import opened SchedulerSlots

  // ---- The next run, kind by kind -----------------------------------------------------------

  /** A `once` task keeps its time while that is still to come and has none otherwise. */
  lemma OnceNext(croniter: Croniter, t: Task, now: int)
    requires t.kind.Once?
    ensures var r := NextRun(croniter, t, now);
      && r.Ok? && (r.value == t.nextRun || r.value == None)
      && (r.value.Some? <==> t.nextRun.Some? && now < t.nextRun.value)
  {}

  /** An interval task needs a positive interval. Its first run is one interval from now, and each
      later one the first time above now that is a whole number of intervals after its last. */
  lemma IntervalNext(croniter: Croniter, t: Task, now: int)
    requires t.kind.Interval?
    ensures var r := NextRun(croniter, t, now);
      && (r.Ok? <==> t.seconds.Some? && t.seconds.value > 0)
      && (r.Ok? ==> r.value.Some? && now < r.value.value)
      && (r.Ok? && t.nextRun.None? ==> r.value.value == now + t.seconds.value * 1_000_000)
      && (r.Ok? && t.nextRun.Some? ==> WholeIntervals(t.nextRun.value, t.seconds.value, r.value.value))
      && (r.Ok? && t.nextRun.Some? ==>
            forall u | now < u && WholeIntervals(t.nextRun.value, t.seconds.value, u) :: r.value.value <= u)
  {
    hide NextSlot;
    if t.seconds.Some? && t.seconds.value > 0 && t.nextRun.Some? {
      var next, period := t.nextRun.value, Period(t.seconds.value);
      var k := NextSlotLeast(next, period, now);
      forall u | now < u && WholeIntervals(next, t.seconds.value, u) ensures next + k * period <= u {
        var j :| j >= 1 && u == next + j * (t.seconds.value * 1_000_000);
        assert j < k ==> next + j * period <= now;
        Times(k, j, period);
      }
      assert next + k * period == next + k * (t.seconds.value * 1_000_000);
    }
  }

  ghost predicate WholeIntervals(from: int, seconds: int, at: int) {
    exists j :: j >= 1 && at == from + j * (seconds * 1_000_000)
  }

  /** A cron task asks its library, with its own expression and zone; any other kind is refused. */
  lemma CronNext(croniter: Croniter, t: Task, now: int)
    requires !t.kind.Once? && !t.kind.Interval?
    ensures var r := NextRun(croniter, t, now);
      && (r.Ok? <==> t.kind.Cron? && t.cron.Some? && croniter(t.cron.value, t.zone, now).Ok?)
      && (r.Ok? ==> r.value == Some(croniter(t.cron.value, t.zone, now).value))
  {}

  // ---- Registering and unregistering --------------------------------------------------------

  /** Storing a task puts it in its old place when its id is known and at the end otherwise. */
  lemma PutTells(table: seq<Task>, t: Task)
    requires DistinctIds(table)
    ensures forall k | 0 <= k < |table| && table[k].id == t.id :: Put(table, t) == table[k := t]
    ensures !HasId(table, t.id) ==> Put(table, t) == table + [t]
  {}

  lemma PopTells(table: seq<Task>, id: string)
    requires DistinctIds(table)
    ensures forall k | 0 <= k < |table| && table[k].id == id :: Pop(table, id) == table[..k] + table[k + 1..]
    ensures !HasId(table, id) ==> Pop(table, id) == table
    ensures !HasId(Pop(table, id), id)
  {
    hide Position;
    var k, popped := Position(table, id), Pop(table, id);
    forall i | 0 <= i < |popped| ensures popped[i].id != id {
      assert popped[i] == table[if i < k then i else i + 1];
    }
  }

  /** A registered task keeps the time it brings; without one it gets its next run, or is refused. */
  lemma RegisterTells(croniter: Croniter, table: seq<Task>, t: Task, now: int)
    ensures var r := RegisterIn(croniter, table, t, now);
      && (r.Err? <==> t.nextRun.None? && NextRun(croniter, t, now).Err?)
      && (r.Ok? && t.nextRun.Some? ==> r.value == Put(table, t))
      && (r.Ok? && t.nextRun.None? ==> r.value == Put(table, t.(nextRun := NextRun(croniter, t, now).value)))
  {
    hide NextRun, Put;
  }

  // ---- The order of a tick ------------------------------------------------------------------

  /** The due tasks of a table, in table order. */
  function DueIn(table: seq<Task>, now: int): seq<Task> {
    if table == [] then []
    else if table[0].enabled && table[0].nextRun.Some? && table[0].nextRun.value <= now then [table[0]] + DueIn(table[1..], now)
    else DueIn(table[1..], now)
  }

  ghost predicate FiredInTurn(due: seq<Task>, now: int, fired: seq<Firing>) {
    && |fired| == |due|
    && forall i | 0 <= i < |due| :: fired[i].id == due[i].id && Some(fired[i].slot) == due[i].nextRun && fired[i].at == now
  }

  lemma FiredNext(t: Task, due: seq<Task>, now: int, fired: seq<Firing>)
    requires FiredInTurn(due, now, fired) && t.nextRun.Some?
    ensures FiredInTurn([t] + due, now, [Firing(t.id, t.nextRun.value, now)] + fired)
  {
    var all, more := [t] + due, [Firing(t.id, t.nextRun.value, now)] + fired;
    forall i | 0 <= i < |all|
      ensures more[i].id == all[i].id && Some(more[i].slot) == all[i].nextRun && more[i].at == now
    {
      if i > 0 { assert all[i] == due[i - 1] && more[i] == fired[i - 1]; }
    }
  }

  /** A tick without error fires the due tasks, each once, in table order. */
  lemma {:induction false} TickFires(croniter: Croniter, table: seq<Task>, now: int)
    requires TickTable(croniter, table, now).error == None
    ensures FiredInTurn(DueIn(table, now), now, TickTable(croniter, table, now).fired)
    decreases |table|
  {
    hide NextRun, FiredInTurn;
    if table == [] {
      NoneInTurn(now);
    } else {
      TickFires(croniter, table[1..], now);
      var rest := TickTable(croniter, table[1..], now).fired;
      if Due(table[0], now) { FiredNext(table[0], DueIn(table[1..], now), now, rest); } else { assert [] + rest == rest; }
    }
  }

  lemma NoneInTurn(now: int)
    ensures FiredInTurn([], now, [])
  {}

  /** A tick that raises has done what the tick of the earlier tasks does, and has fired the task
      it failed at; that task and those after it stand as they were. */
  lemma {:induction false} TickStops(croniter: Croniter, table: seq<Task>, now: int) returns (k: nat)
    requires TickTable(croniter, table, now).error.Some?
    ensures k < |table| && table[k].enabled && table[k].nextRun.Some? && table[k].nextRun.value <= now
    ensures !table[k].kind.Once? && NextRun(croniter, table[k], now) == Err(TickTable(croniter, table, now).error.value)
    ensures var r, before := TickTable(croniter, table, now), TickTable(croniter, table[..k], now);
      && before.error == None && r.table == before.table + table[k..]
      && r.fired == before.fired + [Firing(table[k].id, table[k].nextRun.value, now)]
    decreases |table|
  {
    hide NextRun;
    var h := TickTask(croniter, table[0], now);
    if h.error.Some? {
      k := 0;
      assert table[..0] == [] && table[0..] == table == [table[0]] + table[1..];
    } else {
      k := TickStops(croniter, table[1..], now);
      k := k + 1;
      assert table[..k][1..] == table[1..][..k - 1] && table[1..][k - 1..] == table[k..];
    }
  }

  // ---- A task that leaves the table ---------------------------------------------------------

  lemma PutAbsent(table: seq<Task>, t: Task, id: string)
    requires !HasId(table, id) && t.id != id
    ensures !HasId(Put(table, t), id)
  {
    hide Position;
    var put := Put(table, t);
    forall i | 0 <= i < |put| ensures put[i].id != id {
      if i < |table| { assert table[i].id != id; }
    }
  }

  lemma PopAbsent(table: seq<Task>, other: string, id: string)
    requires !HasId(table, id)
    ensures !HasId(Pop(table, other), id)
  {
    hide Position;
    var k, popped := Position(table, other), Pop(table, other);
    forall i | 0 <= i < |popped| ensures popped[i].id != id {
      assert popped[i] == table[if i < k then i else i + 1];
    }
  }

  lemma RegisterAbsent(croniter: Croniter, table: seq<Task>, t: Task, now: int, id: string)
    requires !HasId(table, id) && t.id != id
    ensures var r := RegisterIn(croniter, table, t, now); r.Ok? ==> !HasId(r.value, id)
  {
    hide NextRun, Put, HasId;
    PutAbsent(table, t, id);
    var next := NextRun(croniter, t, now);
    if next.Ok? { PutAbsent(table, t.(nextRun := next.value), id); }
  }

  /** An id that no table entry has neither fires nor comes back. */
  lemma {:induction false} StaysAbsent(croniter: Croniter, table: seq<Task>, ops: seq<Op>, id: string)
    requires !HasId(table, id) && Untouched(ops, id)
    ensures !HasId(Run(croniter, table, ops).table, id) && FiredBy(Run(croniter, table, ops).fired, id) == []
    decreases |ops|
  {
    hide TickTable, FiredBy, Put, Pop, HasId;
    if ops == [] {
      FiredNone(id);
    } else {
      match ops[0]
      case Tick(now) =>
        var r := TickTable(croniter, table, now);
        TickIds(croniter, table, now, id);
        if r.error.None? {
          StaysAbsent(croniter, r.table, ops[1..], id);
          FiredByAppend(r.fired, Run(croniter, r.table, ops[1..]).fired, id);
        }
      case Register(task, at) =>
        RegisterAbsent(croniter, table, task, at, id);
        var r := RegisterIn(croniter, table, task, at);
        StaysAbsent(croniter, if r.Ok? then r.value else table, ops[1..], id);
      case Unregister(other) =>
        PopAbsent(table, other, id);
        StaysAbsent(croniter, Pop(table, other), ops[1..], id);
    }
  }

  lemma FiredNone(id: string)
    ensures FiredBy([], id) == []
  {}

  /** A task of which a tick keeps nothing is out of the table. */
  lemma {:induction false} TickDrops(croniter: Croniter, table: seq<Task>, now: int, t: Task)
    requires DistinctIds(table) && t in table && TickTable(croniter, table, now).error == None
    requires TickTask(croniter, t, now).kept == []
    ensures !HasId(TickTable(croniter, table, now).table, t.id)
    decreases |table|
  {
    hide NextRun;
    if table[0] == t {
      assert !HasId(table[1..], t.id);
      TickIds(croniter, table[1..], now, t.id);
    } else {
      TickDrops(croniter, table[1..], now, t);
    }
  }

  // ---- The once task ------------------------------------------------------------------------

  /** Tick i is the first not before s. */
  ghost predicate FirstReaches(clock: seq<int>, s: int, i: int) {
    0 <= i < |clock| && s <= clock[i] && forall j | 0 <= j < i :: clock[j] < s
  }

  ghost predicate NoneReaches(clock: seq<int>, s: int) { forall j | 0 <= j < |clock| :: clock[j] < s }

  lemma FirstOf(now: int, later: seq<int>, s: int)
    ensures NoneReaches([now] + later, s) <==> now < s && NoneReaches(later, s)
    ensures forall i :: FirstReaches([now] + later, s, i) <==> if s <= now then i == 0 else FirstReaches(later, s, i - 1)
  {
    var clock := [now] + later;
    assert clock[0] == now && forall j | 0 <= j < |later| :: later[j] == clock[j + 1];
    forall i ensures FirstReaches(clock, s, i) <==> if s <= now then i == 0 else FirstReaches(later, s, i - 1) {
      if now < s && FirstReaches(later, s, i - 1) {
        forall j | 0 <= j < i ensures clock[j] < s { if j > 0 { assert later[j - 1] < s; } }
      }
    }
  }

  predicate Waits(t: Task) { t.enabled && t.kind.Once? && t.nextRun.Some? }

  /** What one tick does with a waiting `once` task: nothing before its time, and at it one firing,
      after which nothing is left of it. */
  lemma OnceTick(croniter: Croniter, table: seq<Task>, now: int, t: Task)
    requires DistinctIds(table) && t in table && Waits(t) && TickTable(croniter, table, now).error == None
    ensures var r, s := TickTable(croniter, table, now), t.nextRun.value;
      && DistinctIds(r.table)
      && (now < s ==> t in r.table && FiredBy(r.fired, t.id) == [])
      && (s <= now ==> !HasId(r.table, t.id) && FiredBy(r.fired, t.id) == [Fired(s, now)])
  {
    hide TickTable, DistinctIds, HasId;
    TickDistinct(croniter, table, now);
    TickAlone(croniter, table, now, t);
    var h := TickTask(croniter, t, now);
    if now < t.nextRun.value { assert t in h.kept; } else { TickDrops(croniter, table, now, t); }
  }

  /** Fired at the first tick not before its time, and then gone; without such a tick, never fired and
      unchanged. */
  ghost predicate FiresOnce(t: Task, clock: seq<int>, r: Ran)
    requires t.nextRun.Some?
  {
    var s := t.nextRun.value;
    && (NoneReaches(clock, s) ==> FiredBy(r.fired, t.id) == [] && t in r.table)
    && forall i | FirstReaches(clock, s, i) :: FiredBy(r.fired, t.id) == [Fired(s, clock[i])] && !HasId(r.table, t.id)
  }

  lemma NoneFired(croniter: Croniter, table: seq<Task>, t: Task)
    requires t in table && t.nextRun.Some?
    ensures FiresOnce(t, ClockOf([]), Run(croniter, table, []))
  {}

  lemma FiresLater(t: Task, now: int, later: seq<int>, r: Ran, r': Ran)
    requires t.nextRun.Some? && now < t.nextRun.value && FiresOnce(t, later, r')
    requires r.table == r'.table && FiredBy(r.fired, t.id) == FiredBy(r'.fired, t.id)
    ensures FiresOnce(t, [now] + later, r)
  {
    hide NoneReaches, HasId, FiredBy;
    var clock, s := [now] + later, t.nextRun.value;
    FirstOf(now, later, s);
    forall i | FirstReaches(clock, s, i)
      ensures FiredBy(r.fired, t.id) == [Fired(s, clock[i])] && !HasId(r.table, t.id)
    {
      InLater(now, later, s, i);
    }
  }

  lemma InLater(now: int, later: seq<int>, s: int, i: int)
    requires now < s && FirstReaches([now] + later, s, i)
    ensures FirstReaches(later, s, i - 1) && ([now] + later)[i] == later[i - 1]
  {
    FirstOf(now, later, s);
  }

  lemma FiresNow(t: Task, now: int, later: seq<int>, r: Ran)
    requires t.nextRun.Some? && t.nextRun.value <= now
    requires FiredBy(r.fired, t.id) == [Fired(t.nextRun.value, now)] && !HasId(r.table, t.id)
    ensures FiresOnce(t, [now] + later, r)
  {
    hide HasId, FiredBy;
    FirstOf(now, later, t.nextRun.value);
  }

  /** The promise for a `once` task, in a run of any tasks: it fires at the first tick not before its
      time, then no entry of the table has its id; while there is no such tick it never fires and
      stands as it was registered. */
  lemma {:induction false} OnceFiresOnce(croniter: Croniter, table: seq<Task>, ops: seq<Op>, t: Task)
    requires DistinctIds(table) && t in table && Waits(t) && Untouched(ops, t.id)
    requires Run(croniter, table, ops).error == None
    ensures FiresOnce(t, ClockOf(ops), Run(croniter, table, ops))
    decreases |ops|
  {
    hide DistinctIds, TickTable, FiredBy, Put, Pop, HasId;
    hide NoneReaches, FirstReaches, FiresOnce;
    var s, clock := t.nextRun.value, ClockOf(ops);
    if ops == [] {
      NoneFired(croniter, table, t);
    } else {
      var rest, later := ops[1..], ClockOf(ops[1..]);
      match ops[0]
      case Tick(now) =>
        var r := TickTable(croniter, table, now);
        OnceTick(croniter, table, now, t);
        FiredByAppend(r.fired, Run(croniter, r.table, rest).fired, t.id);
        assert clock == [now] + later;
        FirstOf(now, later, s);
        if now < s {
          OnceFiresOnce(croniter, r.table, rest, t);
          FiresLater(t, now, later, Run(croniter, table, ops), Run(croniter, r.table, rest));
        } else {
          StaysAbsent(croniter, r.table, rest, t.id);
          FiresNow(t, now, later, Run(croniter, table, ops));
        }
      case Register(task, at) =>
        RegisterKeeps(croniter, table, task, at, t);
        var r := RegisterIn(croniter, table, task, at);
        OnceFiresOnce(croniter, if r.Ok? then r.value else table, rest, t);
      case Unregister(id) =>
        PopKeeps(table, id, t);
        OnceFiresOnce(croniter, Pop(table, id), rest, t);
    }
  }

  lemma {:induction false} RunPrefix(croniter: Croniter, table: seq<Task>, ops: seq<Op>, n: nat)
    requires n <= |ops| && Run(croniter, table, ops).error == None
    ensures Run(croniter, table, ops[..n]).error == None
    decreases n
  {
    hide TickTable, Put, Pop, NextRun;
    if n > 0 {
      assert ops[..n][1..] == ops[1..][..n - 1];
      match ops[0]
      case Tick(now) => RunPrefix(croniter, TickTable(croniter, table, now).table, ops[1..], n - 1);
      case Register(task, at) =>
        var r := RegisterIn(croniter, table, task, at);
        RunPrefix(croniter, if r.Ok? then r.value else table, ops[1..], n - 1);
      case Unregister(id) => RunPrefix(croniter, Pop(table, id), ops[1..], n - 1);
    }
  }

  lemma {:induction false} FirstReached(clock: seq<int>, s: int) returns (i: int)
    requires !NoneReaches(clock, s)
    ensures FirstReaches(clock, s, i)
    decreases |clock|
  {
    assert clock == [clock[0]] + clock[1..];
    FirstOf(clock[0], clock[1..], s);
    if s <= clock[0] { i := 0; } else { i := FirstReached(clock[1..], s); i := i + 1; }
  }

  lemma UntouchedPrefix(ops: seq<Op>, id: string, n: nat)
    requires n <= |ops| && Untouched(ops, id)
    ensures Untouched(ops[..n], id)
  {}

  lemma InIsHas(table: seq<Task>, t: Task)
    requires t in table
    ensures HasId(table, t.id)
  {}

  lemma GoneIsGone(table: seq<Task>, t: Task)
    requires !HasId(table, t.id)
    ensures t !in table
  {}

  /** At every point of the run the task is in the table, unchanged, exactly until that tick. */
  lemma OnceStandsUntil(croniter: Croniter, table: seq<Task>, ops: seq<Op>, t: Task, n: nat)
    requires DistinctIds(table) && t in table && Waits(t) && Untouched(ops, t.id) && n <= |ops|
    requires Run(croniter, table, ops).error == None
    ensures var r, clock := Run(croniter, table, ops[..n]), ClockOf(ops[..n]);
      && (t in r.table <==> NoneReaches(clock, t.nextRun.value))
      && (t in r.table <==> HasId(r.table, t.id))
  {
    hide DistinctIds, TickTable, FiredBy, Run, Untouched, NoneReaches, FirstReaches;
    UntouchedPrefix(ops, t.id, n);
    RunPrefix(croniter, table, ops, n);
    OnceFiresOnce(croniter, table, ops[..n], t);
    var clock := ClockOf(ops[..n]);
    if !NoneReaches(clock, t.nextRun.value) {
      var i := FirstReached(clock, t.nextRun.value);
      GoneIsGone(Run(croniter, table, ops[..n]).table, t);
    } else {
      InIsHas(Run(croniter, table, ops[..n]).table, t);
    }
  }

  // ---- Tasks that never fire ----------------------------------------------------------------

  /** A disabled task, and one without a next run, stands as it is and never fires. */
  lemma {:induction false} SilentNeverFires(croniter: Croniter, table: seq<Task>, ops: seq<Op>, t: Task)
    requires DistinctIds(table) && t in table && (!t.enabled || t.nextRun.None?) && Untouched(ops, t.id)
    requires Run(croniter, table, ops).error == None
    ensures FiredBy(Run(croniter, table, ops).fired, t.id) == [] && t in Run(croniter, table, ops).table
    decreases |ops|
  {
    hide DistinctIds, TickTable, FiredBy, Put, Pop;
    if ops == [] {
      FiredNone(t.id);
    } else {
      match ops[0]
      case Tick(now) =>
        var r := TickTable(croniter, table, now);
        TickDistinct(croniter, table, now);
        TickAlone(croniter, table, now, t);
        FiredNone(t.id);
        assert t in TickTask(croniter, t, now).kept;
        SilentNeverFires(croniter, r.table, ops[1..], t);
        FiredByAppend(r.fired, Run(croniter, r.table, ops[1..]).fired, t.id);
      case Register(task, at) =>
        RegisterKeeps(croniter, table, task, at, t);
        var r := RegisterIn(croniter, table, task, at);
        SilentNeverFires(croniter, if r.Ok? then r.value else table, ops[1..], t);
      case Unregister(id) =>
        PopKeeps(table, id, t);
        SilentNeverFires(croniter, Pop(table, id), ops[1..], t);
    }
  }

  // ---- The cron task ------------------------------------------------------------------------

  predicate Follows(t: Task) { t.enabled && t.kind.Cron? && t.cron.Some? && t.nextRun.Some? }

  /** The ticks from here on fire what the library said: the slot due now at the first tick that reaches
      it, then the slot the library gives at that tick, and so on. */
  ghost predicate Chain(croniter: Croniter, t: Task, clock: seq<int>, fs: seq<Fired>)
    requires Follows(t)
    decreases |clock|
  {
    if clock == [] then fs == []
    else if clock[0] < t.nextRun.value then Chain(croniter, t, clock[1..], fs)
    else
      var next := croniter(t.cron.value, t.zone, clock[0]);
      && fs != [] && fs[0] == Fired(t.nextRun.value, clock[0])
      && next.Ok? && Chain(croniter, t.(nextRun := Some(next.value)), clock[1..], fs[1..])
  }

  /** In a run of any tasks a cron task follows its library, tick by tick. */
  lemma {:induction false} CronFollows(croniter: Croniter, table: seq<Task>, ops: seq<Op>, t: Task)
    requires DistinctIds(table) && t in table && Follows(t) && Untouched(ops, t.id)
    requires Run(croniter, table, ops).error == None
    ensures Chain(croniter, t, ClockOf(ops), FiredBy(Run(croniter, table, ops).fired, t.id))
    decreases |ops|
  {
    hide DistinctIds, TickTable, FiredBy, Put, Pop, Chain;
    if ops == [] {
      FiredNone(t.id);
      NoTicks(croniter, t);
    } else {
      var rest := ops[1..];
      match ops[0]
      case Tick(now) =>
        var r := TickTable(croniter, table, now);
        TickDistinct(croniter, table, now);
        TickAlone(croniter, table, now, t);
        CronTick(croniter, t, now);
        var t' := TickTask(croniter, t, now).kept[0];
        CronFollows(croniter, r.table, rest, t');
        FiredByAppend(r.fired, Run(croniter, r.table, rest).fired, t.id);
        ChainNext(croniter, t, now, ClockOf(rest), FiredBy(Run(croniter, r.table, rest).fired, t.id));
      case Register(task, at) =>
        RegisterKeeps(croniter, table, task, at, t);
        var r := RegisterIn(croniter, table, task, at);
        CronFollows(croniter, if r.Ok? then r.value else table, rest, t);
      case Unregister(id) =>
        PopKeeps(table, id, t);
        CronFollows(croniter, Pop(table, id), rest, t);
    }
  }

  lemma NoTicks(croniter: Croniter, t: Task)
    requires Follows(t)
    ensures Chain(croniter, t, [], [])
  {}

  lemma CronTick(croniter: Croniter, t: Task, now: int)
    requires Follows(t) && TickTask(croniter, t, now).error == None
    ensures var h := TickTask(croniter, t, now);
      && h.kept != [] && Follows(h.kept[0]) && h.kept[0].id == t.id
      && (now < t.nextRun.value ==> h.kept[0] == t && FiredBy(h.fired, t.id) == [])
      && (now >= t.nextRun.value ==> FiredBy(h.fired, t.id) == [Fired(t.nextRun.value, now)])
      && (now >= t.nextRun.value ==> croniter(t.cron.value, t.zone, now) == Ok(h.kept[0].nextRun.value))
      && (now >= t.nextRun.value ==> h.kept[0] == t.(nextRun := h.kept[0].nextRun))
  {}

  lemma ChainNext(croniter: Croniter, t: Task, now: int, clock: seq<int>, fs: seq<Fired>)
    requires Follows(t) && TickTask(croniter, t, now).error == None && TickTask(croniter, t, now).kept != []
    requires var t' := TickTask(croniter, t, now).kept[0]; Follows(t') && Chain(croniter, t', clock, fs)
    ensures Chain(croniter, t, [now] + clock, FiredBy(TickTask(croniter, t, now).fired, t.id) + fs)
  {
    CronTick(croniter, t, now);
    var all := [now] + clock;
    assert all[1..] == clock;
    if now >= t.nextRun.value {
      assert ([Fired(t.nextRun.value, now)] + fs)[1..] == fs;
    } else {
      assert [] + fs == fs;
    }
  }
}
