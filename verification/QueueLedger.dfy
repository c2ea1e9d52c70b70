/** What becomes of every accepted task: conservation, and no stranded work. */
module QueueLedger {
  import opened Wrappers
  import opened Queue
  import opened QueueOrder
  import opened QueueSlots

  // ---- Counting the tasks held in a list or a map ------------------------------------------

  function KeySeq(s: seq<Item>): seq<Accepted> { seq(|s|, i requires 0 <= i < |s| => KeyOf(s[i])) }

  ghost function Keys(s: seq<Item>): multiset<Accepted> { multiset(KeySeq(s)) }

  ghost function PendingKeys(s: SessionState): multiset<Accepted> { Keys(s.pending) }

  ghost function ItemKeys(it: Item): multiset<Accepted> { multiset{KeyOf(it)} }

  ghost function TimerKeys(t: Timer): multiset<Accepted> { multiset{KeyOf(t.item)} }

  ghost function Total<K(!new), V>(m: map<K, V>, f: V -> multiset<Accepted>): multiset<Accepted> {
    if m == map[] then multiset{}
    else
      var k :| k in m;
      f(m[k]) + Total(m - {k}, f)
  }

  lemma {:induction false} TotalSplit<K(!new), V>(m: map<K, V>, k: K, f: V -> multiset<Accepted>)
    requires k in m
    ensures Total(m, f) == f(m[k]) + Total(m - {k}, f)
    decreases |m|
  {
    var j :| j in m && Total(m, f) == f(m[j]) + Total(m - {j}, f);
    if j != k {
      SizeOfDrop(m, j);
      SizeOfDrop(m, k);
      TotalSplit(m - {j}, k, f);
      TotalSplit(m - {k}, j, f);
      assert m - {j} - {k} == m - {k} - {j};
    }
  }

  lemma TotalAdd<K(!new), V>(m: map<K, V>, k: K, v: V, f: V -> multiset<Accepted>)
    requires k !in m
    ensures Total(m[k := v], f) == Total(m, f) + f(v)
  {
    TotalSplit(m[k := v], k, f);
    assert m[k := v] - {k} == m;
  }

  lemma KeysConcat(a: seq<Item>, b: seq<Item>)
    ensures Keys(a + b) == Keys(a) + Keys(b)
  {
    assert KeySeq(a + b) == KeySeq(a) + KeySeq(b);
  }

  lemma KeysOne(x: Item)
    ensures Keys([x]) == multiset{KeyOf(x)}
  {
    assert KeySeq([x]) == [KeyOf(x)];
  }

  lemma {:induction false} KeysInsert(s: seq<Item>, x: Item)
    ensures Keys(Insert(s, x)) == Keys(s) + multiset{KeyOf(x)}
  {
    hide Keys;
    KeysOne(x);
    if s == [] || s[|s| - 1].task.priority <= x.task.priority {
      KeysConcat(s, [x]);
    } else {
      var n := |s| - 1;
      KeysInsert(s[..n], x);
      KeysConcat(Insert(s[..n], x), [s[n]]);
      KeysConcat(s[..n], [s[n]]);
      assert s == s[..n] + [s[n]];
    }
  }

  lemma {:induction false} KeysSort(s: seq<Item>)
    ensures Keys(SortByPriority(s)) == Keys(s)
  {
    hide Keys;
    if s != [] {
      var n := |s| - 1;
      KeysSort(s[..n]);
      KeysInsert(SortByPriority(s[..n]), s[n]);
      KeysOne(s[n]);
      KeysConcat(s[..n], [s[n]]);
      assert s == s[..n] + [s[n]];
    }
  }

  lemma KeysRemove(s: seq<Item>, i: nat)
    requires i < |s|
    ensures Keys(s) == Keys(s[..i] + s[i + 1..]) + multiset{KeyOf(s[i])}
  {
    hide Keys;
    KeysConcat(s[..i], s[i + 1..]);
    KeysConcat(s[..i], [s[i]]);
    KeysConcat(s[..i] + [s[i]], s[i + 1..]);
    KeysOne(s[i]);
    assert s == s[..i] + [s[i]] + s[i + 1..];
  }

  lemma KeysAppend(s: seq<Item>, x: Item)
    ensures Keys(SortByPriority(s + [x])) == Keys(s) + multiset{KeyOf(x)}
  {
    KeysSort(s + [x]);
    KeysConcat(s, [x]);
    KeysOne(x);
  }

  lemma TotalHolds<K(!new), V>(m: map<K, V>, k: K, a: Accepted, f: V -> multiset<Accepted>)
    requires k in m && a in f(m[k])
    ensures a in Total(m, f)
  {
    TotalSplit(m, k, f);
  }

  // ---- The ledger -------------------------------------------------------------------------

  ghost function Pending(q: State): multiset<Accepted> { Total(q.sessions, PendingKeys) }

  ghost function Running(q: State): multiset<Accepted> { Total(q.env.running, ItemKeys) }

  ghost function InBackoff(q: State): multiset<Accepted> { Total(q.env.timers, TimerKeys) }

  /** The tasks the queue still holds. */
  ghost function Live(q: State): multiset<Accepted> {
    Keys(q.waiting) + Pending(q) + Running(q) + InBackoff(q)
  }

  ghost function Settled(q: State): multiset<Accepted> {
    q.env.succeeded + q.env.abandoned + q.env.dropped
  }

  /** Accepted tasks are pairwise different and came through the public methods. */
  ghost predicate Distinct(q: State) {
    && (forall a | a in q.env.accepted :: q.env.accepted[a] == 1 && a.origin < q.env.clock && FromApi(a.task))
    && (forall a, b | a in q.env.accepted && b in q.env.accepted && a.origin == b.origin :: a == b)
  }

  ghost predicate FromApi(t: Task) { exists r :: TaskOf(r) == t }

  predicate Unretryable(t: Task) { t.kind == Scheduled && t.taskId == Some("") }

  /** A retry re-enqueues the very task that failed, with its kind, direction, function, id and
      priority; the one task it gives up is a scheduled one with an empty id. */
  lemma RetryKeepsTask(t: Task)
    requires FromApi(t)
    ensures RetryRequest(t).Some? <==> !Unretryable(t)
    ensures RetryRequest(t).Some? ==> TaskOf(RetryRequest(t).value) == t
  {}

  /** The pending tasks of every session but sid. */
  ghost function OtherPending(q: State, sid: SessionId): multiset<Accepted> {
    Total(q.sessions - {sid}, PendingKeys)
  }

  lemma PendingSplit(q: State, sid: SessionId)
    ensures Pending(q) == OtherPending(q, sid) + Keys(Session(q, sid).pending)
  {
    if sid in q.sessions {
      TotalSplit(q.sessions, sid, PendingKeys);
    } else {
      assert q.sessions - {sid} == q.sessions;
    }
  }

  lemma PutSessionPending(q: State, q': State, sid: SessionId)
    requires sid in q'.sessions && q'.sessions == q.sessions[sid := q'.sessions[sid]]
    ensures Pending(q') == OtherPending(q, sid) + Keys(q'.sessions[sid].pending)
  {
    assert q'.sessions - {sid} == q.sessions - {sid};
    TotalSplit(q'.sessions, sid, PendingKeys);
  }

  /** Session updates that leave the pending list alone leave the ledger alone. */
  lemma SamePending(q: State, q': State, sid: SessionId)
    requires sid in q'.sessions && q'.sessions == q.sessions[sid := q'.sessions[sid]]
    requires q'.sessions[sid].pending == Session(q, sid).pending
    ensures Pending(q') == Pending(q)
  {
    hide Keys, Pending, OtherPending;
    PendingSplit(q, sid);
    PutSessionPending(q, q', sid);
  }

  lemma StartLive(q: State, it: Item)
    requires q.env.clock !in q.env.running
    ensures Live(Start(q, it)) == Live(q) + multiset{KeyOf(it)}
  {
    var q' := Start(q, it);
    assert Pending(q') == Pending(q) by { SamePending(q, q', it.task.session); }
    assert Running(q') == Running(q) + multiset{KeyOf(it)} by { TotalAdd(q.env.running, q.env.clock, it, ItemKeys); }
    assert Keys(q'.waiting) == Keys(q.waiting) && InBackoff(q') == InBackoff(q);
    hide *;
  }

  lemma AdmitLive(q: State, it: Item)
    requires q.env.clock !in q.env.running
    ensures Live(Admit(q, it)) == Live(q) + multiset{KeyOf(it)}
  {
    hide SortByPriority, Start, Keys, Pending, Running, InBackoff;
    var sid := it.task.session;
    var s := Session(q, sid);
    var q' := Admit(q, it);
    if s.active {
      KeysAppend(s.pending, it);
      PendingSplit(q, sid);
      PutSessionPending(q, q', sid);
      assert Running(q') == Running(q) && InBackoff(q') == InBackoff(q) by { SameEnv(q, q'); }
    } else if q.activeCount >= q.cap {
      KeysAppend(q.waiting, it);
      SamePending(q, q', sid);
      assert Running(q') == Running(q) && InBackoff(q') == InBackoff(q) by { SameEnv(q, q'); }
    } else {
      StartLive(q, it);
    }
  }

  lemma SameEnv(q: State, q': State)
    requires q'.env.running == q.env.running && q'.env.timers == q.env.timers
    ensures Running(q') == Running(q) && InBackoff(q') == InBackoff(q)
  {}

  /** The fields of the ledger a step leaves alone. */
  ghost predicate SameBooks(q: State, q': State) {
    && Settled(q') == Settled(q) && q'.env.dropped == q.env.dropped
    && q'.env.accepted == q.env.accepted && q'.env.clock >= q.env.clock
    && q'.env.timers == q.env.timers && q'.shuttingDown == q.shuttingDown
  }

  lemma StartOneLive(q: State)
    requires CanStart(q) && Slots(q)
    ensures Live(StartOne(q)) == Live(q) && SameBooks(q, StartOne(q))
  {
    hide Keys, Slots, Start, SameBooks, Pending, Running, InBackoff;
    var i := FirstIdle(q, q.waiting);
    var q1 := q.(waiting := q.waiting[..i] + q.waiting[i + 1..]);
    KeysRemove(q.waiting, i);
    assert q1.env.clock !in q1.env.running by { FreshRunner(q); }
    assert Pending(q1) == Pending(q) && Running(q1) == Running(q) && InBackoff(q1) == InBackoff(q) by {
      SameEnv(q, q1);
      SameSessions(q, q1);
    }
    StartLive(q1, q.waiting[i]);
    StartBooks(q1, q.waiting[i]);
    assert SameBooks(q, StartOne(q)) by { WaitingBooks(q, q1, StartOne(q)); }
  }

  lemma SameSessions(q: State, q': State)
    requires q'.sessions == q.sessions
    ensures Pending(q') == Pending(q)
  {}

  lemma WaitingBooks(q: State, q1: State, q2: State)
    requires SameBooks(q1, q2) && q1 == q.(waiting := q1.waiting)
    ensures SameBooks(q, q2)
  {}

  lemma FreshRunner(q: State)
    requires Slots(q)
    ensures q.env.clock !in q.env.running
  {}

  lemma StartBooks(q: State, it: Item)
    ensures SameBooks(q, Start(q, it))
  {}

  lemma {:induction false} StartFromWaitingLive(q: State)
    requires Ordered(q) && Slots(q)
    ensures Live(StartFromWaiting(q)) == Live(q) && SameBooks(q, StartFromWaiting(q))
    decreases |q.waiting|
  {
    hide Ordered, Slots, CanStart, StartOne, StartFromWaiting, Live;
    StartsOneByOne(q);
    if CanStart(q) {
      StartOneOrdered(q);
      StartOneSlots(q);
      StartOneLive(q);
      StartFromWaitingLive(StartOne(q));
    }
  }

  lemma ReleaseSlotLive(q: State, sid: SessionId)
    requires Ordered(q) && SlotsBut(q, Some(sid)) && sid in q.sessions
    ensures Live(ReleaseSlot(q, sid)) == Live(q) && SameBooks(q, ReleaseSlot(q, sid))
  {
    hide Ordered, SlotsBut, Live, SameBooks, StartFromWaiting, Vacate;
    VacateOrdered(q, sid);
    VacateSlots(q, sid);
    VacateLive(q, sid);
    StartFromWaitingLive(Vacate(q, sid));
    BooksChain(q, Vacate(q, sid), ReleaseSlot(q, sid));
  }

  lemma VacateLive(q: State, sid: SessionId)
    requires sid in q.sessions
    ensures Live(Vacate(q, sid)) == Live(q) && SameBooks(q, Vacate(q, sid))
  {
    SamePending(q, Vacate(q, sid), sid);
    SameEnv(q, Vacate(q, sid));
  }

  lemma BooksChain(q: State, q1: State, q2: State)
    requires SameBooks(q, q1) && SameBooks(q1, q2)
    ensures SameBooks(q, q2)
  {}

  lemma RelaunchPending(q: State, q': State, sid: SessionId)
    requires sid in q.sessions && q.sessions[sid].pending != []
    requires sid in q'.sessions && q'.sessions == q.sessions[sid := q'.sessions[sid]]
    requires q'.sessions[sid].pending == q.sessions[sid].pending[1..]
    ensures Pending(q) == Pending(q') + multiset{KeyOf(q.sessions[sid].pending[0])}
  {
    hide Keys, Pending, OtherPending;
    var p := q.sessions[sid].pending;
    KeysRemove(p, 0);
    assert p[..0] + p[1..] == p[1..];
    PendingSplit(q, sid);
    PutSessionPending(q, q', sid);
  }

  lemma RelaunchLive(q: State, q': State, sid: SessionId, it: Item)
    requires sid in q.sessions && q.sessions[sid].pending != [] && it == q.sessions[sid].pending[0]
    requires sid in q'.sessions && q'.sessions == q.sessions[sid := q'.sessions[sid]]
    requires q'.sessions[sid].pending == q.sessions[sid].pending[1..]
    requires q.env.clock !in q.env.running && q'.env.running == q.env.running[q.env.clock := it]
    requires q'.env.timers == q.env.timers && q'.waiting == q.waiting
    ensures Live(q') == Live(q)
  {
    var p := q.sessions[sid].pending;
    assert Pending(q) == Pending(q') + multiset{KeyOf(it)} by { RelaunchPending(q, q', sid); }
    assert Running(q') == Running(q) + multiset{KeyOf(it)} by {
      hide Total;
      TotalAdd(q.env.running, q.env.clock, it, ItemKeys);
    }
    assert InBackoff(q') == InBackoff(q) && Keys(q'.waiting) == Keys(q.waiting);
    hide Pending, Running, InBackoff, Keys;
    Shift(Keys(q.waiting), Pending(q'), Running(q), InBackoff(q), multiset{KeyOf(it)});
  }

  lemma Shift(w: multiset<Accepted>, p: multiset<Accepted>, r: multiset<Accepted>, t: multiset<Accepted>, k: multiset<Accepted>)
    ensures w + (p + k) + r + t == w + p + (r + k) + t
  {}

  lemma AfterTaskLive(q: State, sid: SessionId)
    requires Ordered(q) && SlotsBut(q, Some(sid)) && sid in q.sessions
    ensures Live(AfterTask(q, sid)) == Live(q) && SameBooks(q, AfterTask(q, sid))
  {
    hide SlotsBut, Live, ReleaseSlot, Sorted;
    var s := q.sessions[sid];
    if s.pending == [] {
      ReleaseSlotLive(q, sid);
    } else {
      SortSorted(s.pending);
      assert s.pending[0] in s.pending;
      assert q.env.clock !in q.env.running by { FreshRunnerBut(q, sid); }
      RelaunchLive(q, AfterTask(q, sid), sid, s.pending[0]);
    }
  }

  lemma FreshRunnerBut(q: State, sid: SessionId)
    requires SlotsBut(q, Some(sid))
    ensures q.env.clock !in q.env.running
  {}

  lemma SetRetryCountLive(q: State, sid: SessionId, n: int)
    requires sid in q.sessions
    ensures Live(SetRetryCount(q, sid, n)) == Live(q) && SameBooks(q, SetRetryCount(q, sid, n))
  {
    SamePending(q, SetRetryCount(q, sid, n), sid);
    SameEnv(q, SetRetryCount(q, sid, n));
  }

  lemma ArmTimerLive(q: State, it: Item, delay: int)
    requires q.env.clock !in q.env.timers
    ensures Live(ArmTimer(q, it, delay)) == Live(q) + multiset{KeyOf(it)}
  {
    TotalAdd(q.env.timers, q.env.clock, Timer(it, delay), TimerKeys);
    assert InBackoff(ArmTimer(q, it, delay)) == InBackoff(q) + multiset{KeyOf(it)};
    hide InBackoff, Keys, Pending, Running;
    SameSessions(q, ArmTimer(q, it, delay));
  }

  lemma FreshTimer(q: State)
    requires Slots(q)
    ensures q.env.clock !in q.env.timers
  {}

  /** What a runner's end does with its task: settle it, or put it on a fresh timer. */
  ghost predicate SettledOrTimed(q: State, q': State, it: Item) {
    || (Settled(q') == Settled(q) + multiset{KeyOf(it)} && q'.env.timers == q.env.timers)
    || (Settled(q') == Settled(q) && exists t, d :: Timed(q, q', it, t, d))
  }

  ghost predicate Timed(q: State, q': State, it: Item, t: TimerId, d: int) {
    t !in q.env.timers && q'.env.timers == q.env.timers[t := Timer(it, d)]
  }

  /** A failed task is either given up at the last attempt or put back on a timer. */
  lemma HandleFailureLive(q: State, it: Item)
    requires Ordered(q) && SlotsBut(q, Some(it.task.session)) && RetryCounts(q)
    requires it.task.session in q.sessions && q.sessions[it.task.session].retryCount >= 0
    ensures var q' := HandleFailure(q, it);
            && Live(q') + Settled(q') == Live(q) + Settled(q) + multiset{KeyOf(it)}
            && q'.env.accepted == q.env.accepted && q'.env.dropped == q.env.dropped
            && q'.env.clock >= q.env.clock && q'.shuttingDown == q.shuttingDown
            && SettledOrTimed(q, q', it)
  {
    hide Ordered, SlotsBut, RetryCounts, AfterTask, ReleaseSlot, Live, Settled;
    var sid := it.task.session;
    var hole := Some(sid);
    var n := q.sessions[sid].retryCount + 1;
    if n > MAX_RETRIES {
      assert Live(Abandon(q, it)) == Live(q) && Settled(Abandon(q, it)) == Settled(q) + multiset{KeyOf(it)} by {
        AbandonBooks(q, it);
      }
      KeepsShape(q, Abandon(q, it), sid, 0);
      SetRetryCountLive(Abandon(q, it), sid, 0);
      AfterTaskLive(SetRetryCount(Abandon(q, it), sid, 0), sid);
    } else {
      KeepsShape(q, q, sid, n);
      SetRetryCountLive(q, sid, n);
      ReleaseSlotLive(SetRetryCount(q, sid, n), sid);
      var q1 := ReleaseSlot(SetRetryCount(q, sid, n), sid);
      ReleaseSlotSlots(SetRetryCount(q, sid, n), sid);
      FreshTimer(q1);
      ArmTimerLive(q1, it, RetryDelay(n));
      assert Settled(ArmTimer(q1, it, RetryDelay(n))) == Settled(q1) by { ArmTimerBooks(q1, it, RetryDelay(n)); }
      assert Timed(q, HandleFailure(q, it), it, q1.env.clock, RetryDelay(n));
    }
  }

  lemma AbandonBooks(q: State, it: Item)
    ensures Live(Abandon(q, it)) == Live(q) && Settled(Abandon(q, it)) == Settled(q) + multiset{KeyOf(it)}
  {}

  lemma ArmTimerBooks(q: State, it: Item, delay: int)
    ensures Settled(ArmTimer(q, it, delay)) == Settled(q)
  {}

  lemma KeepsShape(q: State, q1: State, sid: SessionId, n: int)
    requires Ordered(q) && SlotsBut(q, Some(sid)) && Quiet(q, q1) && sid in q.sessions
    ensures Ordered(SetRetryCount(q1, sid, n)) && SlotsBut(SetRetryCount(q1, sid, n), Some(sid))
  {
    hide Ordered, SlotsBut;
    QuietOrdered(q, q1);
    SetRetryCountOrdered(q1, sid, n);
    QuietSlots(q, q1, Some(sid));
    assert forall s :: Active(SetRetryCount(q1, sid, n), s) <==> Active(q1, s);
    SameSlots(q1, SetRetryCount(q1, sid, n), Some(sid));
  }

  lemma FinishLive(q: State, r: RunnerId, ok: bool)
    requires Good(q) && Enabled(q, DoFinish(r, ok))
    ensures var q' := Finish(q, r, ok);
            && Live(q') + Settled(q') == Live(q) + Settled(q)
            && q'.env.accepted == q.env.accepted && q'.env.dropped == q.env.dropped
            && q'.env.clock >= q.env.clock && q'.shuttingDown == q.shuttingDown
            && SettledOrTimed(q, q', q.env.running[r])
  {
    hide Ordered, SlotsBut, RetryCounts, AfterTask, HandleFailure, Live, Settled;
    var it := q.env.running[r];
    var sid := it.task.session;
    var q1 := RemoveRunner(q, r);
    RemoveRunnerSlots(q, r);
    RemoveRunnerKeeps(q, r);
    assert Live(q) == Live(q1) + multiset{KeyOf(it)} && Settled(q1) == Settled(q) by { RemoveRunnerLive(q, r); }
    if ok {
      var q2 := Succeed(q1, it);
      assert Live(q2) == Live(q1) && Settled(q2) == Settled(q1) + multiset{KeyOf(it)} by { SucceedBooks(q1, it); }
      KeepsShape(q1, q2, sid, 0);
      SetRetryCountLive(q2, sid, 0);
      AfterTaskLive(SetRetryCount(q2, sid, 0), sid);
    } else {
      HandleFailureLive(q1, it);
      if t, d :| Timed(q1, HandleFailure(q1, it), it, t, d) {
        assert Timed(q, Finish(q, r, ok), it, t, d);
      }
    }
  }

  lemma RemoveRunnerLive(q: State, r: RunnerId)
    requires r in q.env.running
    ensures Live(q) == Live(RemoveRunner(q, r)) + multiset{KeyOf(q.env.running[r])}
    ensures Settled(RemoveRunner(q, r)) == Settled(q)
  {
    TotalSplit(q.env.running, r, ItemKeys);
  }

  lemma SucceedBooks(q: State, it: Item)
    ensures Live(Succeed(q, it)) == Live(q) && Settled(Succeed(q, it)) == Settled(q) + multiset{KeyOf(it)}
  {}

  lemma AdmitBooks(q: State, it: Item)
    ensures SameBooks(q, Admit(q, it))
  {
    hide SortByPriority, SomeTaskPreempts, Settled;
    assert Settled(Admit(q, it)) == Settled(q) by { AdmitSettled(q, it); }
  }

  lemma AdmitSettled(q: State, it: Item)
    ensures Settled(Admit(q, it)) == Settled(q)
  {
    hide SortByPriority, SomeTaskPreempts;
  }

  // ---- Every step -------------------------------------------------------------------------

  /** Conservation. Every accepted task is in exactly one place: waiting, pending, running, in
      backoff, succeeded, abandoned or dropped. Before a shutdown only a scheduled task with an
      empty id is ever dropped. */
  ghost predicate Conserved(q: State) {
    && Live(q) + Settled(q) == q.env.accepted
    && Distinct(q)
    && (!q.shuttingDown ==> forall a | a in q.env.dropped :: Unretryable(a.task))
  }

  lemma AcceptDistinct(q: State, it: Item)
    requires Distinct(q) && it.origin == q.env.clock && FromApi(it.task)
    ensures Distinct(Accept(q, it))
  {}

  lemma TaskFromApi(r: Request)
    ensures FromApi(TaskOf(r))
  {}

  lemma LaterFreshRunner(q: State, q': State)
    requires Good(q) && q'.env.running == q.env.running && q'.env.clock >= q.env.clock
    ensures q'.env.clock !in q'.env.running
  {}

  lemma EnqueueConserved(q: State, r: Request)
    requires Good(q) && Conserved(q)
    ensures Conserved(Enqueue(q, r))
  {
    hide Good, FromApi, Distinct, Live, Settled, Admit, TaskOf;
    if !q.shuttingDown {
      var it := Item(q.env.clock, q.env.clock, TaskOf(r));
      var q1 := Accept(q, it);
      AcceptDistinct(q, it) by { TaskFromApi(r); }
      LaterFreshRunner(q, q1);
      AcceptBooks(q, it);
      AdmitLive(q1, it);
      AdmitBooks(q1, it);
      LaterDistinct(q1, Admit(q1, it));
    }
  }

  lemma AcceptBooks(q: State, it: Item)
    ensures Live(Accept(q, it)) == Live(q) && Settled(Accept(q, it)) == Settled(q)
  {}

  lemma LaterDistinct(q: State, q': State)
    requires Distinct(q) && q'.env.accepted == q.env.accepted && q'.env.clock >= q.env.clock
    ensures Distinct(q')
  {}

  lemma FinishConserved(q: State, r: RunnerId, ok: bool)
    requires Good(q) && Conserved(q) && Enabled(q, DoFinish(r, ok))
    ensures Conserved(Finish(q, r, ok))
  {
    hide Good, Finish, Live, Settled, Distinct;
    FinishLive(q, r, ok);
    LaterDistinct(q, Finish(q, r, ok));
  }

  /** Every task the queue holds is an accepted one. */
  lemma TimerTaskFromApi(q: State, t: TimerId)
    requires Conserved(q) && t in q.env.timers
    ensures KeyOf(q.env.timers[t].item) in q.env.accepted && FromApi(q.env.timers[t].item.task)
  {
    hide FromApi;
    var a := KeyOf(q.env.timers[t].item);
    TotalHolds(q.env.timers, t, a, TimerKeys);
    assert a in InBackoff(q);
    assert a in Live(q);
    assert a in Live(q) + Settled(q);
  }

  lemma RemoveTimerLive(q: State, t: TimerId)
    requires t in q.env.timers
    ensures Live(q) == Live(RemoveTimer(q, t)) + multiset{KeyOf(q.env.timers[t].item)}
    ensures Settled(RemoveTimer(q, t)) == Settled(q)
  {
    TotalSplit(q.env.timers, t, TimerKeys);
    assert InBackoff(q) == InBackoff(RemoveTimer(q, t)) + multiset{KeyOf(q.env.timers[t].item)};
    hide InBackoff, Keys;
    SameSessions(q, RemoveTimer(q, t));
  }

  lemma FireConserved(q: State, t: TimerId)
    requires Good(q) && Conserved(q) && t in q.env.timers
    ensures Conserved(Fire(q, t))
  {
    hide Good, FromApi, Distinct, Live, Settled, Admit, RetryRequest, TaskOf;
    var it := q.env.timers[t].item;
    var q1 := RemoveTimer(q, t);
    TimerTaskFromApi(q, t);
    RetryKeepsTask(it.task);
    RemoveTimerLive(q, t);
    var r := RetryRequest(it.task);
    if q.shuttingDown || r.None? {
      DropBooks(q1, it);
      LaterDistinct(q, Drop(q1, it));
    } else {
      var it' := Item(it.origin, q1.env.clock, TaskOf(r.value));
      TickBooks(q1);
      LaterFreshRunner(q, Tick(q1));
      AdmitLive(Tick(q1), it');
      AdmitBooks(Tick(q1), it');
      LaterDistinct(q, Fire(q, t));
    }
  }

  lemma DropBooks(q: State, it: Item)
    ensures Live(Drop(q, it)) == Live(q) && Settled(Drop(q, it)) == Settled(q) + multiset{KeyOf(it)}
  {}

  lemma TickBooks(q: State)
    ensures Live(Tick(q)) == Live(q) && Settled(Tick(q)) == Settled(q)
  {}

  lemma OtherStepLive(q: State, step: Step)
    requires !step.DoEnqueue? && !step.DoFinish? && !step.DoFire?
    ensures Live(Apply(q, step)) == Live(q) && Settled(Apply(q, step)) == Settled(q)
  {
    hide Live;
    var q' := Apply(q, step);
    match step
    case DoShutdown => assert Live(q') == Live(q) by { SameSessions(q, q'); SameEnv(q, q'); LiveOf(q, q'); }
    case DoNotifyIdle(sid) => if sid in q.sessions { SameLive(q, q', sid); }
    case DoRegister(sid, _) => SameLive(q, q', sid);
    case DoUnregister(sid) => if sid in q.sessions { SameLive(q, q', sid); }
  }

  lemma OtherStepConserved(q: State, step: Step)
    requires Conserved(q) && !step.DoEnqueue? && !step.DoFinish? && !step.DoFire?
    ensures Conserved(Apply(q, step))
  {
    hide Live, Settled, Distinct;
    var q' := Apply(q, step);
    LaterDistinct(q, q');
    OtherStepLive(q, step);
  }

  lemma SameLive(q: State, q': State, sid: SessionId)
    requires sid in q'.sessions && q'.sessions == q.sessions[sid := q'.sessions[sid]]
    requires q'.sessions[sid].pending == Session(q, sid).pending
    requires q'.waiting == q.waiting && q'.env.running == q.env.running && q'.env.timers == q.env.timers
    ensures Live(q') == Live(q)
  {
    SamePending(q, q', sid);
    SameEnv(q, q');
    LiveOf(q, q');
  }

  lemma LiveOf(q: State, q': State)
    requires q'.waiting == q.waiting && Pending(q') == Pending(q)
    requires Running(q') == Running(q) && InBackoff(q') == InBackoff(q)
    ensures Live(q') == Live(q)
  {}

  lemma StepConserved(q: State, step: Step)
    requires Good(q) && Conserved(q) && Enabled(q, step)
    ensures Conserved(Apply(q, step))
  {
    hide Good, Conserved, Enqueue, Finish, Fire;
    match step
    case DoEnqueue(r) => EnqueueConserved(q, r);
    case DoFinish(r, ok) => FinishConserved(q, r, ok);
    case DoFire(t) => FireConserved(q, t);
    case _ => OtherStepConserved(q, step);
  }
}
