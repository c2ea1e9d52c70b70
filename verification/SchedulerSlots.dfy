/** Which slots an interval task fires, over whole runs of the scheduler. */
module SchedulerSlots {
  import opened Wrappers
  import opened Scheduler

  // ---- One interval task against a clock ----------------------------------------------------

  datatype Fired = Fired(slot: int, at: int)

  function Firings(next: int, period: int, clock: seq<int>): seq<Fired>
    requires period > 0
    decreases |clock|
  {
    if clock == [] then []
    else if next <= clock[0] then
      [Fired(next, clock[0])] + Firings(NextSlot(next, period, clock[0]), period, clock[1..])
    else Firings(next, period, clock[1..])
  }

  function NextAfter(next: int, period: int, clock: seq<int>): int
    requires period > 0
    decreases |clock|
  {
    if clock == [] then next
    else if next <= clock[0] then NextAfter(NextSlot(next, period, clock[0]), period, clock[1..])
    else NextAfter(next, period, clock[1..])
  }

  ghost predicate NonDecreasing(clock: seq<int>) {
    forall i, j | 0 <= i <= j < |clock| :: clock[i] <= clock[j]
  }

  function Slot(next: int, period: int, n: nat): int { next + n * period }

  predicate Covers(f: Fired, s: int) { f.slot <= s <= f.at }

  lemma SlotShift(next: int, period: int, k: nat, n: nat)
    ensures Slot(Slot(next, period, k), period, n) == Slot(next, period, k + n)
  {
    assert k * period + n * period == (k + n) * period;
  }

  lemma SlotOrder(next: int, period: int, m: nat, n: nat)
    requires period > 0
    ensures m <= n <==> Slot(next, period, m) <= Slot(next, period, n)
  {
    Times(m, n, period);
    Times(n + 1, m, period);
    assert (n + 1) * period == n * period + period;
  }

  lemma SlotNext(next: int, period: int, n: nat)
    ensures Slot(next, period, 0) == next && Slot(next, period, n + 1) == Slot(next, period, n) + period
  {
    assert (n + 1) * period == n * period + period;
  }

  /** Where the next slot stands among the slots of the anchor. */
  lemma NextIndex(next: int, period: int, now: int) returns (k: nat)
    requires period > 0 && next <= now
    ensures k >= 1 && NextSlot(next, period, now) == Slot(next, period, k) > now >= Slot(next, period, k - 1)
  {
    k := NextSlotLeast(next, period, now);
    if k > 1 { assert next + (k - 1) * period <= now; }
  }

  lemma TailNonDecreasing(clock: seq<int>)
    requires NonDecreasing(clock) && clock != []
    ensures NonDecreasing(clock[1..])
    ensures forall i | 0 <= i < |clock| - 1 :: clock[0] <= clock[1..][i]
  {
    assert forall i | 0 <= i < |clock| - 1 :: clock[1..][i] == clock[i + 1];
  }

  ghost predicate Ordered(next: int, clock: seq<int>, fs: seq<Fired>) {
    && (forall i | 0 <= i < |fs| :: next <= fs[i].slot <= fs[i].at && fs[i].at in clock)
    && (forall i, j | 0 <= i < j < |fs| :: fs[i].at < fs[j].slot)
  }

  lemma OrderedAfter(next: int, next': int, clock: seq<int>, fs: seq<Fired>)
    requires clock != [] && next <= clock[0] < next' && Ordered(next', clock[1..], fs)
    ensures Ordered(next, clock, [Fired(next, clock[0])] + fs)
  {
    var all := [Fired(next, clock[0])] + fs;
    assert forall i | 1 <= i < |all| :: all[i] == fs[i - 1];
  }

  /** Every firing is of a slot no earlier than the anchor, at a tick that reached it, and before the next
      slot fired: the firings are ordered and never overlap. */
  lemma {:induction false} FiringsOrdered(next: int, period: int, clock: seq<int>)
    requires period > 0 && NonDecreasing(clock)
    ensures Ordered(next, clock, Firings(next, period, clock))
    decreases |clock|
  {
    hide NextSlot, Slot;
    if clock != [] {
      TailNonDecreasing(clock);
      var rest := clock[1..];
      if next <= clock[0] {
        var k := NextIndex(next, period, clock[0]);
        FiringsOrdered(Slot(next, period, k), period, rest);
        OrderedAfter(next, Slot(next, period, k), clock, Firings(Slot(next, period, k), period, rest));
      } else {
        FiringsOrdered(next, period, rest);
      }
    }
  }

  /** Missed slots collapse: every slot the clock has reached lies in exactly one firing. */
  lemma {:induction false} SlotCoveredOnce(next: int, period: int, clock: seq<int>, n: nat) returns (i: nat)
    requires period > 0 && NonDecreasing(clock) && clock != []
    requires Slot(next, period, n) <= clock[|clock| - 1]
    ensures var fs := Firings(next, period, clock);
      && i < |fs| && Covers(fs[i], Slot(next, period, n))
      && forall j | 0 <= j < |fs| && j != i :: !Covers(fs[j], Slot(next, period, n))
    decreases |clock|
  {
    hide NextSlot, Slot;
    var fs, s := Firings(next, period, clock), Slot(next, period, n);
    SlotNext(next, period, 0);
    SlotOrder(next, period, 0, n);
    TailNonDecreasing(clock);
    var rest := clock[1..];
    if next <= clock[0] {
      var k := NextIndex(next, period, clock[0]);
      if n < k {
        SlotOrder(next, period, n, k - 1);
        i := 0;
        assert fs[0] == Fired(next, clock[0]);
      } else {
        SlotOrder(next, period, k, n);
        SlotShift(next, period, k, n - k);
        i := SlotCoveredOnce(Slot(next, period, k), period, rest, n - k);
        i := i + 1;
      }
    } else {
      i := SlotCoveredOnce(next, period, rest, n);
    }
    FiringsOrdered(next, period, clock);
    forall j | 0 <= j < |fs| && j != i ensures !Covers(fs[j], s) {
      if j < i { assert fs[j].at < fs[i].slot; } else { assert fs[i].at < fs[j].slot; }
    }
  }

  /** The next run stays congruent to the anchor and in the future. */
  lemma {:induction false} NextStaysAnchored(next: int, period: int, clock: seq<int>) returns (k: nat)
    requires period > 0 && NonDecreasing(clock)
    ensures NextAfter(next, period, clock) == Slot(next, period, k)
    ensures clock != [] ==> clock[|clock| - 1] < NextAfter(next, period, clock)
    ensures k == 0 <==> Firings(next, period, clock) == []
    decreases |clock|
  {
    hide NextSlot, Slot;
    k := 0;
    SlotNext(next, period, 0);
    if clock != [] {
      TailNonDecreasing(clock);
      if next <= clock[0] {
        var m := NextIndex(next, period, clock[0]);
        k := NextStaysAnchored(Slot(next, period, m), period, clock[1..]);
        SlotShift(next, period, m, k);
        SlotOrder(Slot(next, period, m), period, 0, k);
        k := m + k;
      } else {
        k := NextStaysAnchored(next, period, clock[1..]);
        SlotOrder(next, period, 0, k);
      }
    }
  }

  // ---- Exactly once per slot ----------------------------------------------------------------

  /** The slots up to the last tick, each fired once, in order, and nothing else. */
  ghost predicate EachSlotOnce(next: int, period: int, clock: seq<int>, fs: seq<Fired>) {
    && (forall i | 0 <= i < |fs| :: fs[i].slot == Slot(next, period, i))
    && (clock == [] ==> fs == [])
    && (clock != [] ==> forall n: nat :: Slot(next, period, n) <= clock[|clock| - 1] <==> n < |fs|)
  }

  ghost predicate TickWithin(clock: seq<int>, from: int, until: int) {
    exists j :: 0 <= j < |clock| && from <= clock[j] < until
  }

  /** Some tick falls between every slot reached and the one after it. */
  ghost predicate Sampled(next: int, period: int, clock: seq<int>) {
    clock != [] ==> forall n: nat | Slot(next, period, n) <= clock[|clock| - 1] ::
      TickWithin(clock, Slot(next, period, n), Slot(next, period, n) + period)
  }

  lemma TailSampled(next: int, period: int, clock: seq<int>, k: nat)
    requires period > 0 && NonDecreasing(clock) && clock != [] && Sampled(next, period, clock)
    requires clock[0] < Slot(next, period, k)
    ensures Sampled(Slot(next, period, k), period, clock[1..])
  {
    hide Slot;
    var from, rest := Slot(next, period, k), clock[1..];
    if rest != [] {
      forall n: nat | Slot(from, period, n) <= rest[|rest| - 1]
        ensures TickWithin(rest, Slot(from, period, n), Slot(from, period, n) + period)
      {
        SlotShift(next, period, k, n);
        SlotOrder(next, period, k, k + n);
        assert rest[|rest| - 1] == clock[|clock| - 1];
        var s := Slot(next, period, k + n);
        assert TickWithin(clock, s, s + period);
        var j :| 0 <= j < |clock| && s <= clock[j] < s + period;
        assert rest[j - 1] == clock[j];
      }
    }
  }

  lemma NoneOnce(next: int, period: int)
    ensures EachSlotOnce(next, period, [], [])
  {}

  lemma SampledSoon(next: int, period: int, clock: seq<int>)
    requires period > 0 && NonDecreasing(clock) && Sampled(next, period, clock) && clock != [] && next <= clock[0]
    ensures clock[0] < next + period
  {
    SlotNext(next, period, 0);
    assert clock[0] <= clock[|clock| - 1];
    assert TickWithin(clock, Slot(next, period, 0), Slot(next, period, 0) + period);
    var j :| 0 <= j < |clock| && next <= clock[j] < next + period;
    assert clock[0] <= clock[j];
  }

  lemma {:induction false} SampledIsOnce(next: int, period: int, clock: seq<int>)
    requires period > 0 && NonDecreasing(clock) && Sampled(next, period, clock)
    ensures EachSlotOnce(next, period, clock, Firings(next, period, clock))
    decreases |clock|
  {
    hide NextSlot, Slot, EachSlotOnce, NonDecreasing;
    if clock == [] { NoneOnce(next, period); return; }
    var now, rest := clock[0], clock[1..];
    TailNonDecreasing(clock);
    if next <= now {
      SampledSoon(next, period, clock);
      var k := NextIndex(next, period, now);
      SlotNext(next, period, 0);
      SlotOrder(next, period, 1, k - 1);
      assert k == 1;
      TailSampled(next, period, clock, 1);
      SampledIsOnce(Slot(next, period, 1), period, rest);
      OnceAfter(next, period, clock, Firings(Slot(next, period, 1), period, rest));
    } else {
      SlotNext(next, period, 0);
      TailSampled(next, period, clock, 0);
      SampledIsOnce(next, period, rest);
      OnceLater(next, period, clock, Firings(next, period, rest));
    }
  }

  lemma OnceAfter(next: int, period: int, clock: seq<int>, fs: seq<Fired>)
    requires period > 0 && clock != [] && next <= clock[0] < Slot(next, period, 1) && NonDecreasing(clock)
    requires EachSlotOnce(Slot(next, period, 1), period, clock[1..], fs)
    ensures EachSlotOnce(next, period, clock, [Fired(next, clock[0])] + fs)
  {
    hide Slot;
    SlotNext(next, period, 0);
    var all, rest := [Fired(next, clock[0])] + fs, clock[1..];
    forall i | 0 <= i < |all| ensures all[i].slot == Slot(next, period, i) {
      if i > 0 { SlotShift(next, period, 1, i - 1); assert all[i] == fs[i - 1]; }
    }
    forall n: nat ensures Slot(next, period, n) <= clock[|clock| - 1] <==> n < |all| {
      SlotOrder(next, period, 1, n);
      if n > 0 {
        SlotShift(next, period, 1, n - 1);
        if rest != [] { assert rest[|rest| - 1] == clock[|clock| - 1]; }
      }
    }
  }

  lemma OnceLater(next: int, period: int, clock: seq<int>, fs: seq<Fired>)
    requires period > 0 && clock != [] && clock[0] < next && NonDecreasing(clock)
    requires EachSlotOnce(next, period, clock[1..], fs)
    ensures EachSlotOnce(next, period, clock, fs)
  {
    hide Slot;
    SlotNext(next, period, 0);
    var rest := clock[1..];
    if rest == [] {
      forall n: nat ensures !(Slot(next, period, n) <= clock[|clock| - 1]) { SlotOrder(next, period, 0, n); }
    }
  }

  lemma InClock(clock: seq<int>, at: int)
    requires NonDecreasing(clock) && at in clock
    ensures at <= clock[|clock| - 1]
  {}

  lemma OnceIsSampled(next: int, period: int, clock: seq<int>)
    requires period > 0 && NonDecreasing(clock)
    requires EachSlotOnce(next, period, clock, Firings(next, period, clock))
    ensures Sampled(next, period, clock)
  {
    hide NextSlot, Slot, Firings, NonDecreasing;
    var fs := Firings(next, period, clock);
    FiringsOrdered(next, period, clock);
    if clock != [] {
      forall n: nat | Slot(next, period, n) <= clock[|clock| - 1]
        ensures TickWithin(clock, Slot(next, period, n), Slot(next, period, n) + period)
      {
        SlotNext(next, period, n);
        assert n < |fs| && fs[n].slot == Slot(next, period, n);
        if n + 1 < |fs| { assert fs[n].at < fs[n + 1].slot; }
        if n + 1 == |fs| { assert Slot(next, period, n + 1) > clock[|clock| - 1] >= fs[n].at by { InClock(clock, fs[n].at); } }
        var j :| 0 <= j < |clock| && clock[j] == fs[n].at;
      }
    }
  }

  /** Every slot reached is fired exactly once if and only if some tick falls within one interval
      after each of them. */
  lemma ExactlyOncePerSlot(next: int, period: int, clock: seq<int>)
    requires period > 0 && NonDecreasing(clock)
    ensures EachSlotOnce(next, period, clock, Firings(next, period, clock)) <==> Sampled(next, period, clock)
  {
    if Sampled(next, period, clock) { SampledIsOnce(next, period, clock); }
    if EachSlotOnce(next, period, clock, Firings(next, period, clock)) { OnceIsSampled(next, period, clock); }
  }

  ghost predicate GapsAtMost(clock: seq<int>, gap: int) {
    forall j | 0 < j < |clock| :: clock[j] - clock[j - 1] <= gap
  }

  lemma {:induction false} FirstTickFrom(clock: seq<int>, s: int, j: nat) returns (i: nat)
    requires j < |clock| && s <= clock[j]
    ensures i <= j && s <= clock[i] && (i == 0 || clock[i - 1] < s)
    decreases j
  {
    if j == 0 || clock[j - 1] < s { i := j; } else { i := FirstTickFrom(clock, s, j - 1); }
  }

  /** Polling at least once per interval, from before the second slot on, fires each slot once. */
  lemma PollingKeepsUp(next: int, period: int, clock: seq<int>)
    requires period > 0 && NonDecreasing(clock) && GapsAtMost(clock, period)
    requires clock != [] ==> clock[0] < next + period
    ensures EachSlotOnce(next, period, clock, Firings(next, period, clock))
  {
    if clock != [] {
      forall n: nat | Slot(next, period, n) <= clock[|clock| - 1]
        ensures TickWithin(clock, Slot(next, period, n), Slot(next, period, n) + period)
      {
        SlotOrder(next, period, 0, n);
        var i := FirstTickFrom(clock, Slot(next, period, n), |clock| - 1);
        if i > 0 { assert clock[i] - clock[i - 1] <= period; }
      }
    }
    ExactlyOncePerSlot(next, period, clock);
  }

  /** Firings are always of the anchor's own slots. */
  lemma {:induction false} FiringsAnchored(next: int, period: int, clock: seq<int>, i: nat) returns (k: nat)
    requires period > 0 && i < |Firings(next, period, clock)|
    ensures Firings(next, period, clock)[i].slot == Slot(next, period, k)
    decreases |clock|
  {
    hide NextSlot, Slot;
    SlotNext(next, period, 0);
    if next > clock[0] {
      k := FiringsAnchored(next, period, clock[1..], i);
    } else if i == 0 {
      k := 0;
    } else {
      var m := NextIndex(next, period, clock[0]);
      k := FiringsAnchored(Slot(next, period, m), period, clock[1..], i - 1);
      SlotShift(next, period, m, k);
      k := m + k;
    }
  }

  // ---- Runs of the whole scheduler ----------------------------------------------------------

  datatype Op = Tick(now: int) | Register(task: Task, at: int) | Unregister(id: string)

  datatype Ran = Ran(table: seq<Task>, fired: seq<Firing>, error: Option<string>)

  /** A failed registration changes nothing; an error inside a tick ends the polling loop. */
  function Run(croniter: Croniter, table: seq<Task>, ops: seq<Op>): Ran
    decreases |ops|
  {
    if ops == [] then Ran(table, [], None)
    else
      match ops[0]
      case Tick(now) =>
        var r := TickTable(croniter, table, now);
        if r.error.Some? then Ran(r.table, r.fired, r.error)
        else
          var rest := Run(croniter, r.table, ops[1..]);
          rest.(fired := r.fired + rest.fired)
      case Register(task, at) =>
        var r := RegisterIn(croniter, table, task, at);
        Run(croniter, if r.Ok? then r.value else table, ops[1..])
      case Unregister(id) => Run(croniter, Pop(table, id), ops[1..])
  }

  function ClockOf(ops: seq<Op>): seq<int>
    decreases |ops|
  {
    if ops == [] then []
    else if ops[0].Tick? then [ops[0].now] + ClockOf(ops[1..])
    else ClockOf(ops[1..])
  }

  /** No operation re-registers or removes this task. */
  ghost predicate Untouched(ops: seq<Op>, id: string) {
    forall i | 0 <= i < |ops| ::
      match ops[i]
      case Tick(_) => true
      case Register(task, _) => task.id != id
      case Unregister(other) => other != id
  }

  function FiredBy(fired: seq<Firing>, id: string): seq<Fired>
    decreases |fired|
  {
    if fired == [] then []
    else if fired[0].id == id then [Fired(fired[0].slot, fired[0].at)] + FiredBy(fired[1..], id)
    else FiredBy(fired[1..], id)
  }

  lemma {:induction false} FiredByAppend(a: seq<Firing>, b: seq<Firing>, id: string)
    ensures FiredBy(a + b, id) == FiredBy(a, id) + FiredBy(b, id)
    decreases |a|
  {
    if a == [] {
      assert a + b == b;
    } else {
      assert (a + b)[1..] == a[1..] + b;
      FiredByAppend(a[1..], b, id);
    }
  }

  ghost predicate HasId(table: seq<Task>, id: string) {
    exists i :: 0 <= i < |table| && table[i].id == id
  }

  /** A tick adds no ids, and fires only tasks of the table. */
  lemma {:induction false} TickIds(croniter: Croniter, table: seq<Task>, now: int, id: string)
    requires !HasId(table, id)
    ensures !HasId(TickTable(croniter, table, now).table, id)
    ensures FiredBy(TickTable(croniter, table, now).fired, id) == []
    decreases |table|
  {
    hide NextRun;
    if table != [] {
      assert table[0].id != id;
      var h := TickTask(croniter, table[0], now);
      var rest := TickTable(croniter, table[1..], now);
      TickIds(croniter, table[1..], now, id);
      FiredByAppend(h.fired, rest.fired, id);
    }
  }

  lemma {:induction false} TickDistinct(croniter: Croniter, table: seq<Task>, now: int)
    requires DistinctIds(table)
    ensures DistinctIds(TickTable(croniter, table, now).table)
    decreases |table|
  {
    hide NextRun;
    if table != [] {
      var h := TickTask(croniter, table[0], now);
      TickDistinct(croniter, table[1..], now);
      assert !HasId(table[1..], table[0].id);
      TickIds(croniter, table[1..], now, table[0].id);
    }
  }

  /** In a tick without error each task is handled as if it were alone in the table. */
  lemma {:induction false} TickAlone(croniter: Croniter, table: seq<Task>, now: int, t: Task)
    requires DistinctIds(table) && t in table && TickTable(croniter, table, now).error == None
    ensures var r, h := TickTable(croniter, table, now), TickTask(croniter, t, now);
      && h.error == None && (forall u | u in h.kept :: u in r.table)
      && FiredBy(r.fired, t.id) == FiredBy(h.fired, t.id)
    decreases |table|
  {
    hide TickTask;
    var h := TickTask(croniter, table[0], now);
    var rest := TickTable(croniter, table[1..], now);
    FiredByAppend(h.fired, rest.fired, t.id);
    if table[0] == t {
      assert !HasId(table[1..], t.id);
      TickIds(croniter, table[1..], now, t.id);
    } else {
      TickAlone(croniter, table[1..], now, t);
      FiresOwn(croniter, table[0], now, t.id);
    }
  }

  lemma FiresOwn(croniter: Croniter, t: Task, now: int, id: string)
    ensures t.id != id ==> FiredBy(TickTask(croniter, t, now).fired, id) == []
  {
    hide NextRun;
  }

  predicate Repeats(t: Task) {
    t.enabled && t.kind.Interval? && t.nextRun.Some? && t.seconds.Some? && t.seconds.value > 0
  }

  /** What one tick does with an interval task, in the terms of `Firings`. */
  lemma TickRepeats(croniter: Croniter, t: Task, now: int)
    requires Repeats(t)
    ensures var next, period := t.nextRun.value, Period(t.seconds.value);
      && TickTask(croniter, t, now).kept == [t.(nextRun := Some(NextAfter(next, period, [now])))]
      && FiredBy(TickTask(croniter, t, now).fired, t.id) == Firings(next, period, [now])
  {}

  lemma FiringsSplit(next: int, period: int, now: int, clock: seq<int>)
    requires period > 0
    ensures Firings(next, period, [now] + clock)
         == Firings(next, period, [now]) + Firings(NextAfter(next, period, [now]), period, clock)
    ensures NextAfter(next, period, [now] + clock) == NextAfter(NextAfter(next, period, [now]), period, clock)
  {
    assert ([now] + clock)[1..] == clock;
  }

  lemma PutKeeps(table: seq<Task>, u: Task, t: Task)
    requires DistinctIds(table) && t in table && u.id != t.id
    ensures DistinctIds(Put(table, u)) && t in Put(table, u)
  {
    var k := Position(table, u.id);
    var i :| 0 <= i < |table| && table[i] == t;
    assert Put(table, u)[i] == t;
  }

  lemma PopDistinct(table: seq<Task>, id: string)
    requires DistinctIds(table)
    ensures DistinctIds(Pop(table, id))
  {
    hide Position;
    var k, popped := Position(table, id), Pop(table, id);
    assert forall i | 0 <= i < |popped| :: popped[i] == table[if i < k then i else i + 1];
  }

  lemma PopHolds(table: seq<Task>, id: string, t: Task)
    requires t in table && id != t.id
    ensures t in Pop(table, id)
  {
    hide Position;
    var k := Position(table, id);
    var i :| 0 <= i < |table| && table[i] == t;
    if k < |table| { assert Pop(table, id)[if i < k then i else i - 1] == t; }
  }

  lemma PopKeeps(table: seq<Task>, id: string, t: Task)
    requires DistinctIds(table) && t in table && id != t.id
    ensures DistinctIds(Pop(table, id)) && t in Pop(table, id)
  {
    hide Pop, DistinctIds;
    PopDistinct(table, id);
    PopHolds(table, id, t);
  }

  /** Whatever else the scheduler runs, an interval task fires exactly as if it were alone. */
  lemma {:induction false} RunFires(croniter: Croniter, table: seq<Task>, ops: seq<Op>, t: Task)
    requires DistinctIds(table) && t in table && Repeats(t) && Untouched(ops, t.id)
    requires Run(croniter, table, ops).error == None
    ensures var r, next, period := Run(croniter, table, ops), t.nextRun.value, Period(t.seconds.value);
      && FiredBy(r.fired, t.id) == Firings(next, period, ClockOf(ops))
      && t.(nextRun := Some(NextAfter(next, period, ClockOf(ops)))) in r.table
    decreases |ops|
  {
    hide DistinctIds, TickTable, TickTask, FiredBy, Firings, NextAfter, Put, Pop;
    var next, period := t.nextRun.value, Period(t.seconds.value);
    if ops == [] {
      NoOps(next, period, t.id);
    } else {
      match ops[0]
      case Tick(now) =>
        var r := TickTable(croniter, table, now);
        TickDistinct(croniter, table, now);
        TickAlone(croniter, table, now, t);
        TickRepeats(croniter, t, now);
        var t' := t.(nextRun := Some(NextAfter(next, period, [now])));
        assert t' in TickTask(croniter, t, now).kept;
        RunFires(croniter, r.table, ops[1..], t');
        FiredByAppend(r.fired, Run(croniter, r.table, ops[1..]).fired, t.id);
        FiringsSplit(next, period, now, ClockOf(ops[1..]));
      case Register(task, at) =>
        RegisterKeeps(croniter, table, task, at, t);
        var r := RegisterIn(croniter, table, task, at);
        RunFires(croniter, if r.Ok? then r.value else table, ops[1..], t);
      case Unregister(id) =>
        PopKeeps(table, id, t);
        RunFires(croniter, Pop(table, id), ops[1..], t);
    }
  }

  lemma NoOps(next: int, period: int, id: string)
    requires period > 0
    ensures Firings(next, period, []) == [] && NextAfter(next, period, []) == next && FiredBy([], id) == []
  {}

  lemma RegisterKeeps(croniter: Croniter, table: seq<Task>, task: Task, at: int, t: Task)
    requires DistinctIds(table) && t in table && task.id != t.id
    ensures var r := RegisterIn(croniter, table, task, at);
      r.Ok? ==> DistinctIds(r.value) && t in r.value
  {
    hide Put, DistinctIds, NextRun;
    PutKeeps(table, task, t);
    var next := NextRun(croniter, task, at);
    if next.Ok? { PutKeeps(table, task.(nextRun := next.value), t); }
  }

  /** The promise of the scheduler, for one interval task in a run of any tasks: polled at least
      once per interval, each of its slots fires exactly once. */
  lemma RunFiresEachSlotOnce(croniter: Croniter, table: seq<Task>, ops: seq<Op>, t: Task)
    requires DistinctIds(table) && t in table && Repeats(t) && Untouched(ops, t.id)
    requires Run(croniter, table, ops).error == None && NonDecreasing(ClockOf(ops))
    ensures var next, period, clock := t.nextRun.value, t.seconds.value * 1_000_000, ClockOf(ops);
      var fs := FiredBy(Run(croniter, table, ops).fired, t.id);
      && (EachSlotOnce(next, period, clock, fs) <==> Sampled(next, period, clock))
      && (GapsAtMost(clock, period) && (clock != [] ==> clock[0] < next + period) ==> EachSlotOnce(next, period, clock, fs))
  {
    var next, period, clock := t.nextRun.value, t.seconds.value * 1_000_000, ClockOf(ops);
    hide EachSlotOnce, Sampled, GapsAtMost, NonDecreasing, Run, Firings;
    RunFires(croniter, table, ops, t);
    ExactlyOncePerSlot(next, period, clock);
    if GapsAtMost(clock, period) && (clock != [] ==> clock[0] < next + period) { PollingKeepsUp(next, period, clock); }
  }

  /** A tick raises exactly when some due task that repeats has no valid schedule. */
  lemma {:induction false} TickRaises(croniter: Croniter, table: seq<Task>, now: int)
    ensures TickTable(croniter, table, now).error.Some? <==>
            exists t :: t in table && t.enabled && t.nextRun.Some? && t.nextRun.value <= now && !t.kind.Once?
                      && NextRun(croniter, t, now).Err?
    decreases |table|
  {
    hide NextRun;
    if table != [] { TickRaises(croniter, table[1..], now); }
  }
}
