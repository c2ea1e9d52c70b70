/** What a batch of tool calls means, and why any interleaving of its runs means the same.

    A tool is a coroutine: it takes atomic steps on the session state between its awaits, then
    returns an output or raises. `asyncio.gather` lets the calls of a run interleave in any way. */
module DispatchMeaning {
  import opened Wrappers
  import opened Dispatch

  /** A call in progress: suspended at a local state, returned, or raised. */
  datatype Thread<+L, +O> = Suspended(local: L) | Done(output: O) | Raised

  datatype Tools<!L, !S, +O> = Tools(
    registry: Registry,
    start: Call -> L,
    step: (Call, L, S) -> (Thread<L, O>, S),
    unknown: Call -> O)

  datatype Event<+O> = Event(call: Call, output: O)

  /** What a dispatch comes to; `Unfinished` stands for a batch that never returns. */
  datatype Outcome<+S, +O> = Completed(outputs: seq<O>, state: S, trace: seq<Event<O>>) | Crashed | Unfinished

  /** An unknown tool returns an error at once, without running and without a trace event. */
  function Begin<L, S, O>(tools: Tools<L, S, O>, c: Call): Thread<L, O> {
    if c.name in tools.registry then Suspended(tools.start(c)) else Done(tools.unknown(c))
  }

  function Advance<L, S, O>(tools: Tools<L, S, O>, c: Call, t: Thread<L, O>, s: S): (Thread<L, O>, S) {
    match t
    case Suspended(l) => tools.step(c, l, s)
    case _ => (t, s)
  }

  function Logged<L, S, O>(tools: Tools<L, S, O>, c: Call, o: O): seq<Event<O>> {
    if c.name in tools.registry then [Event(c, o)] else []
  }

  // ---- One call on its own ------------------------------------------------------------------

  /** The call after n of its own steps, with nothing else running. */
  function Solo<L, S, O>(tools: Tools<L, S, O>, c: Call, s: S, n: nat): (Thread<L, O>, S) {
    if n == 0 then (Begin(tools, c), s)
    else var (t, s') := Solo(tools, c, s, n - 1); Advance(tools, c, t, s')
  }

  ghost predicate Ends<L, S, O>(tools: Tools<L, S, O>, c: Call, s: S, n: nat) { !Solo(tools, c, s, n).0.Suspended? }

  /** How the call ends when it runs alone from s, if it ends. */
  ghost function Alone<L, S, O>(tools: Tools<L, S, O>, c: Call, s: S): Option<(Thread<L, O>, S)> {
    if n: nat :| Ends(tools, c, s, n) then Some(Solo(tools, c, s, n)) else None
  }

  lemma {:induction false} EndIsFinal<L, S, O>(tools: Tools<L, S, O>, c: Call, s: S, n: nat, m: nat)
    requires Ends(tools, c, s, n) && n <= m
    ensures Solo(tools, c, s, m) == Solo(tools, c, s, n)
    decreases m
  {
    if n < m { EndIsFinal(tools, c, s, n, m - 1); }
  }

  lemma EndIsUnique<L, S, O>(tools: Tools<L, S, O>, c: Call, s: S, n: nat)
    requires Ends(tools, c, s, n)
    ensures Alone(tools, c, s) == Some(Solo(tools, c, s, n))
  {
    var m: nat :| Ends(tools, c, s, m) && Alone(tools, c, s) == Some(Solo(tools, c, s, m));
    if n <= m { EndIsFinal(tools, c, s, n, m); } else { EndIsFinal(tools, c, s, m, n); }
  }

  /** The sequential meaning: each call runs to its end before the next begins. */
  ghost function Meaning<L, S, O>(tools: Tools<L, S, O>, calls: seq<Call>, s: S): Outcome<S, O> {
    if calls == [] then Completed([], s, [])
    else
      match Alone(tools, calls[0], s)
      case None => Unfinished
      case Some((t, s')) =>
        if t.Raised? then Crashed
        else if t.Done? then Then([t.output], Logged(tools, calls[0], t.output), Meaning(tools, calls[1..], s'))
        else Unfinished
  }

  function Then<S, O>(outputs: seq<O>, trace: seq<Event<O>>, rest: Outcome<S, O>): Outcome<S, O> {
    match rest
    case Completed(os, s, tr) => Completed(outputs + os, s, trace + tr)
    case _ => rest
  }

  lemma {:induction false} MeaningAppend<L, S, O>(tools: Tools<L, S, O>, a: seq<Call>, b: seq<Call>, s: S)
    ensures var m := Meaning(tools, a, s);
            Meaning(tools, a + b, s) ==
            if m.Completed? then Then(m.outputs, m.trace, Meaning(tools, b, m.state)) else m
    decreases |a|
  {
    if a == [] {
      assert a + b == b;
      ThenEmpty<S, O>(Meaning(tools, b, s));
    } else {
      assert (a + b)[0] == a[0] && (a + b)[1..] == a[1..] + b;
      if x :| Alone(tools, a[0], s) == Some(x) {
        MeaningAppend(tools, a[1..], b, x.1);
        if x.0.Done? {
          var m1 := Meaning(tools, a[1..], x.1);
          if m1.Completed? {
            ThenThen([x.0.output], Logged(tools, a[0], x.0.output), m1.outputs, m1.trace, Meaning(tools, b, m1.state));
          }
        }
      }
    }
  }

  lemma {:induction false} SoloPath<L, S, O>(tools: Tools<L, S, O>, c: Call, ls: seq<L>, ss: seq<S>, n: nat)
    requires c.name in tools.registry && n < |ls| == |ss| && ls[0] == tools.start(c)
    requires forall i | 0 <= i < |ls| - 1 :: tools.step(c, ls[i], ss[i]) == (Suspended(ls[i + 1]), ss[i + 1])
    ensures Solo(tools, c, ss[0], n) == (Suspended(ls[n]), ss[n])
    decreases n
  {
    if n > 0 {
      SoloPath(tools, c, ls, ss, n - 1);
      assert tools.step(c, ls[n - 1], ss[n - 1]) == (Suspended(ls[n - 1 + 1]), ss[n - 1 + 1]);
    }
  }

  /** What a call means on its own: an unknown tool gives its error and leaves no trace; a known one starts,
      steps from one suspension to the next and ends as its last step does. */
  lemma CallMeans<L, S, O>(tools: Tools<L, S, O>, c: Call, ls: seq<L>, ss: seq<S>)
    requires ls != [] && |ls| == |ss| && ls[0] == tools.start(c)
    requires forall i | 0 <= i < |ls| - 1 :: tools.step(c, ls[i], ss[i]) == (Suspended(ls[i + 1]), ss[i + 1])
    ensures c.name !in tools.registry ==> Meaning(tools, [c], ss[0]) == Completed([tools.unknown(c)], ss[0], [])
    ensures var (t, s) := tools.step(c, ls[|ls| - 1], ss[|ss| - 1]);
      c.name in tools.registry && !t.Suspended? ==>
        Meaning(tools, [c], ss[0]) == if t.Done? then Completed([t.output], s, [Event(c, t.output)]) else Crashed
  {
    assert [c][1..] == [];
    if c.name !in tools.registry {
      assert Ends(tools, c, ss[0], 0);
      EndIsUnique(tools, c, ss[0], 0);
    } else {
      var n := |ls| - 1;
      SoloPath(tools, c, ls, ss, n);
      if !tools.step(c, ls[n], ss[n]).0.Suspended? {
        assert Ends(tools, c, ss[0], n + 1);
        EndIsUnique(tools, c, ss[0], n + 1);
      }
    }
  }

  lemma ThenEmpty<S, O>(rest: Outcome<S, O>)
    ensures Then([], [], rest) == rest
  {
    match rest
    case Completed(os, s, tr) => assert [] + os == os && [] + tr == tr;
    case _ =>
  }

  lemma ThenThen<S, O>(o1: seq<O>, t1: seq<Event<O>>, o2: seq<O>, t2: seq<Event<O>>, rest: Outcome<S, O>)
    ensures Then(o1, t1, Then(o2, t2, rest)) == Then(o1 + o2, t1 + t2, rest)
  {
    match rest
    case Completed(os, s, tr) => assert o1 + (o2 + os) == o1 + o2 + os && t1 + (t2 + tr) == t1 + t2 + tr;
    case _ =>
  }

  // ---- A run under a schedule ---------------------------------------------------------------

  datatype Group<+L, +S, +O> = Group(threads: seq<Thread<L, O>>, state: S, trace: seq<Event<O>>)

  function StartGroup<L, S, O>(tools: Tools<L, S, O>, calls: seq<Call>, s: S): (g: Group<L, S, O>)
    ensures |g.threads| == |calls|
  {
    Group(seq(|calls|, i requires 0 <= i < |calls| => Begin(tools, calls[i])), s, [])
  }

  /** The scheduler resumes thread i: one atomic step, and a trace event if the tool returns. */
  function Resume<L, S, O>(tools: Tools<L, S, O>, calls: seq<Call>, g: Group<L, S, O>, i: nat): (r: Group<L, S, O>)
    requires |g.threads| == |calls|
    ensures |r.threads| == |calls|
  {
    if i >= |calls| || !g.threads[i].Suspended? then g
    else
      var (t, s') := tools.step(calls[i], g.threads[i].local, g.state);
      Group(g.threads[i := t], s', g.trace + if t.Done? then Logged(tools, calls[i], t.output) else [])
  }

  function RunGroup<L, S, O>(tools: Tools<L, S, O>, calls: seq<Call>, s: S, schedule: seq<nat>): (g: Group<L, S, O>)
    ensures |g.threads| == |calls|
    decreases |schedule|
  {
    if schedule == [] then StartGroup(tools, calls, s)
    else
      var n := |schedule| - 1;
      Resume(tools, calls, RunGroup(tools, calls, s, schedule[..n]), schedule[n])
  }

  ghost predicate AllDone<L, O>(threads: seq<Thread<L, O>>) { forall i | 0 <= i < |threads| :: threads[i].Done? }

  ghost predicate SomeRaised<L, O>(threads: seq<Thread<L, O>>) { exists i | 0 <= i < |threads| :: threads[i].Raised? }

  ghost function Outputs<L, O>(threads: seq<Thread<L, O>>): seq<O>
    requires AllDone(threads)
  {
    seq(|threads|, i requires 0 <= i < |threads| => threads[i].output)
  }

  function CallsOf(run: Run): seq<Call> { seq(|run|, i requires 0 <= i < |run| => run[i].call) }

  /** The dispatch loop: run after run, each under its own schedule; `gather` raises as soon as
      one call of the run has raised, and returns the outputs in the run's order. */
  ghost function Exec<L, S, O>(tools: Tools<L, S, O>, runs: seq<Run>, schedules: seq<seq<nat>>, s: S): Outcome<S, O>
    requires |schedules| == |runs|
  {
    if runs == [] then Completed([], s, [])
    else
      var g := RunGroup(tools, CallsOf(runs[0]), s, schedules[0]);
      if SomeRaised(g.threads) then Crashed
      else if !AllDone(g.threads) then Unfinished
      else Then(Outputs(g.threads), g.trace, Exec(tools, runs[1..], schedules[1..], g.state))
  }

  // ---- Safe runs ----------------------------------------------------------------------------

  /** The tool never changes the session state. */
  ghost predicate ReadOnly<L(!new), S(!new), O>(tools: Tools<L, S, O>, c: Call) {
    forall l: L, s: S :: tools.step(c, l, s).1 == s
  }

  /** The `parallel_safe` flags tell the truth. */
  ghost predicate FlagsHold<L(!new), S(!new), O>(tools: Tools<L, S, O>) {
    forall c: Call | c.name in tools.registry && tools.registry[c.name] :: ReadOnly(tools, c)
  }

  lemma {:induction false} SoloReadOnly<L(!new), S(!new), O>(tools: Tools<L, S, O>, c: Call, s: S, n: nat)
    requires ReadOnly(tools, c)
    ensures Solo(tools, c, s, n).1 == s
  {
    if n > 0 { SoloReadOnly(tools, c, s, n - 1); }
  }

  /** The trace events of the calls that have returned, in call order. */
  function Events<L, S, O>(tools: Tools<L, S, O>, calls: seq<Call>, threads: seq<Thread<L, O>>): seq<Event<O>>
    requires |threads| == |calls|
  {
    if calls == [] then []
    else (if threads[0].Done? then Logged(tools, calls[0], threads[0].output) else [])
         + Events(tools, calls[1..], threads[1..])
  }

  lemma {:induction false} EventsUpdate<L, S, O>(
      tools: Tools<L, S, O>, calls: seq<Call>, threads: seq<Thread<L, O>>, i: nat, t: Thread<L, O>)
    requires |threads| == |calls| && i < |calls| && !threads[i].Done?
    ensures multiset(Events(tools, calls, threads[i := t])) ==
            multiset(Events(tools, calls, threads)) + multiset(if t.Done? then Logged(tools, calls[i], t.output) else [])
    decreases |calls|
  {
    hide Logged;
    if i == 0 {
      assert threads[i := t][1..] == threads[1..];
    } else {
      assert threads[i := t][1..] == threads[1..][i - 1 := t];
      EventsUpdate(tools, calls[1..], threads[1..], i - 1, t);
    }
  }

  ghost predicate AtSolo<L, S, O>(tools: Tools<L, S, O>, c: Call, s: S, t: Thread<L, O>) {
    exists n: nat :: Solo(tools, c, s, n).0 == t
  }

  /** A group whose every thread is somewhere on its own solo run, over an unchanged state. */
  ghost predicate Undisturbed<L, S, O>(tools: Tools<L, S, O>, calls: seq<Call>, s: S, g: Group<L, S, O>) {
    && |g.threads| == |calls| && g.state == s
    && (forall i | 0 <= i < |calls| :: AtSolo(tools, calls[i], s, g.threads[i]))
    && multiset(g.trace) == multiset(Events(tools, calls, g.threads))
  }

  /** A call that leaves the session state alone: its tool does, or there is no such tool. */
  ghost predicate Harmless<L(!new), S(!new), O>(tools: Tools<L, S, O>, c: Call) {
    c.name in tools.registry ==> ReadOnly(tools, c)
  }

  lemma {:induction false} SoloUnknown<L, S, O>(tools: Tools<L, S, O>, c: Call, s: S, n: nat)
    requires c.name !in tools.registry
    ensures Solo(tools, c, s, n) == (Done(tools.unknown(c)), s)
  {
    if n > 0 { SoloUnknown(tools, c, s, n - 1); }
  }

  lemma SoloHarmless<L(!new), S(!new), O>(tools: Tools<L, S, O>, c: Call, s: S, n: nat)
    requires Harmless(tools, c)
    ensures Solo(tools, c, s, n).1 == s
    ensures Solo(tools, c, s, n).0.Suspended? ==> ReadOnly(tools, c)
  {
    if c.name in tools.registry { SoloReadOnly(tools, c, s, n); } else { SoloUnknown(tools, c, s, n); }
  }

  lemma {:induction false} NoEventsYet<L, S, O>(tools: Tools<L, S, O>, calls: seq<Call>, threads: seq<Thread<L, O>>)
    requires |threads| == |calls| && forall i | 0 <= i < |calls| :: threads[i].Done? ==> calls[i].name !in tools.registry
    ensures Events(tools, calls, threads) == []
  {
    if calls != [] { NoEventsYet(tools, calls[1..], threads[1..]); }
  }

  lemma {:induction false} SafeGroup<L(!new), S(!new), O>(
      tools: Tools<L, S, O>, calls: seq<Call>, s: S, schedule: seq<nat>)
    requires forall i | 0 <= i < |calls| :: Harmless(tools, calls[i])
    ensures Undisturbed(tools, calls, s, RunGroup(tools, calls, s, schedule))
    decreases |schedule|
  {
    if schedule == [] {
      var g := StartGroup(tools, calls, s);
      NoEventsYet(tools, calls, g.threads);
      forall i | 0 <= i < |calls| ensures AtSolo(tools, calls[i], s, g.threads[i]) {
        assert Solo(tools, calls[i], s, 0).0 == g.threads[i];
      }
    } else {
      var n := |schedule| - 1;
      SafeGroup(tools, calls, s, schedule[..n]);
      ResumeSafe(tools, calls, s, RunGroup(tools, calls, s, schedule[..n]), schedule[n]);
    }
  }

  lemma ResumeSafe<L(!new), S(!new), O>(
      tools: Tools<L, S, O>, calls: seq<Call>, s: S, g: Group<L, S, O>, i: nat)
    requires Undisturbed(tools, calls, s, g)
    requires forall i | 0 <= i < |calls| :: Harmless(tools, calls[i])
    ensures Undisturbed(tools, calls, s, Resume(tools, calls, g, i))
  {
    if i < |calls| && g.threads[i].Suspended? {
      var g' := Resume(tools, calls, g, i);
      EventsUpdate(tools, calls, g.threads, i, g'.threads[i]);
      assert AtSolo(tools, calls[i], s, g.threads[i]);
      var n: nat :| Solo(tools, calls[i], s, n).0 == g.threads[i];
      SoloHarmless(tools, calls[i], s, n);
      assert Solo(tools, calls[i], s, n + 1).0 == g'.threads[i];
      forall j | 0 <= j < |calls| ensures AtSolo(tools, calls[j], s, g'.threads[j]) {
        if j != i { assert g'.threads[j] == g.threads[j]; }
      }
    }
  }

  /** A safe run that returns means what its calls mean one after the other. */
  lemma {:induction false} SafeGroupDone<L(!new), S(!new), O>(
      tools: Tools<L, S, O>, calls: seq<Call>, s: S, threads: seq<Thread<L, O>>)
    requires |threads| == |calls| && AllDone(threads)
    requires forall i | 0 <= i < |calls| :: Harmless(tools, calls[i]) && AtSolo(tools, calls[i], s, threads[i])
    ensures Meaning(tools, calls, s) == Completed(Outputs(threads), s, Events(tools, calls, threads))
    decreases |calls|
  {
    if calls != [] {
      assert AtSolo(tools, calls[0], s, threads[0]);
      var n: nat :| Solo(tools, calls[0], s, n).0 == threads[0];
      assert Ends(tools, calls[0], s, n);
      EndIsUnique(tools, calls[0], s, n);
      SoloHarmless(tools, calls[0], s, n);
      SafeGroupDone(tools, calls[1..], s, threads[1..]);
      assert Outputs(threads) == [threads[0].output] + Outputs(threads[1..]);
    }
  }

  /** A safe run in which a call has raised does not complete sequentially either. */
  lemma {:induction false} SafeGroupRaised<L(!new), S(!new), O>(
      tools: Tools<L, S, O>, calls: seq<Call>, s: S, threads: seq<Thread<L, O>>, i: nat)
    requires |threads| == |calls| && i < |calls| && threads[i].Raised?
    requires forall i | 0 <= i < |calls| :: Harmless(tools, calls[i]) && AtSolo(tools, calls[i], s, threads[i])
    ensures !Meaning(tools, calls, s).Completed?
    decreases |calls|
  {
    if i == 0 {
      assert AtSolo(tools, calls[0], s, threads[0]);
      var n: nat :| Solo(tools, calls[0], s, n).0 == threads[0];
      assert Ends(tools, calls[0], s, n);
      EndIsUnique(tools, calls[0], s, n);
    } else {
      SafeGroupRaised(tools, calls[1..], s, threads[1..], i - 1);
      if x :| Alone(tools, calls[0], s) == Some(x) {
        var n: nat :| Ends(tools, calls[0], s, n) && Solo(tools, calls[0], s, n) == x;
        assert Harmless(tools, calls[0]);
        SoloHarmless(tools, calls[0], s, n);
      }
    }
  }

  // ---- Single-call runs ---------------------------------------------------------------------

  ghost predicate OnSolo<L, S, O>(tools: Tools<L, S, O>, c: Call, s: S, g: Group<L, S, O>, n: nat) {
    && |g.threads| == 1 && (g.threads[0], g.state) == Solo(tools, c, s, n)
    && g.trace == if g.threads[0].Done? then Logged(tools, c, g.threads[0].output) else []
  }

  lemma {:induction false} SingleGroup<L, S, O>(tools: Tools<L, S, O>, c: Call, s: S, schedule: seq<nat>)
    ensures exists n: nat :: OnSolo(tools, c, s, RunGroup(tools, [c], s, schedule), n)
    decreases |schedule|
  {
    var g' := RunGroup(tools, [c], s, schedule);
    if schedule == [] {
      assert OnSolo(tools, c, s, g', 0);
    } else {
      var k := |schedule| - 1;
      SingleGroup(tools, c, s, schedule[..k]);
      var g := RunGroup(tools, [c], s, schedule[..k]);
      var n: nat :| OnSolo(tools, c, s, g, n);
      assert g' == Resume(tools, [c], g, schedule[k]);
      assert OnSolo(tools, c, s, g', if schedule[k] == 0 && g.threads[0].Suspended? then n + 1 else n);
    }
  }

  lemma MeaningOne<L, S, O>(tools: Tools<L, S, O>, c: Call, s: S, g: Group<L, S, O>, n: nat)
    requires OnSolo(tools, c, s, g, n)
    ensures g.threads[0].Done? ==> Meaning(tools, [c], s) == Completed([g.threads[0].output], g.state, g.trace)
    ensures g.threads[0].Raised? ==> Meaning(tools, [c], s) == Crashed
  {
    if !g.threads[0].Suspended? {
      assert Ends(tools, c, s, n);
      EndIsUnique(tools, c, s, n);
      assert [c][1..] == [];
    }
  }

  // ---- The dispatch as a whole --------------------------------------------------------------

  /** Every run of more than one call is made of safe ones: what the default policy builds, and,
      trivially, what the sequential policy builds. */
  ghost predicate LegalRuns(registry: Registry, runs: seq<Run>) {
    forall k | 0 <= k < |runs| :: |runs[k]| == 1 || AllSafe(registry, runs[k])
  }

  function AllCalls(runs: seq<Run>): seq<Call> {
    if runs == [] then [] else CallsOf(runs[0]) + AllCalls(runs[1..])
  }

  /** Equal up to the order of the trace. */
  ghost predicate SameUpToTrace<S, O>(a: Outcome<S, O>, b: Outcome<S, O>) {
    && a.Completed? && b.Completed? && a.outputs == b.outputs && a.state == b.state
    && multiset(a.trace) == multiset(b.trace)
  }

  /** One run: it completes only with its sequential meaning, and raises only where the
      sequential policy would not complete. */
  lemma RunMeansSequence<L(!new), S(!new), O>(tools: Tools<L, S, O>, run: Run, s: S, schedule: seq<nat>)
    requires FlagsHold(tools) && (|run| == 1 || AllSafe(tools.registry, run))
    ensures var g := RunGroup(tools, CallsOf(run), s, schedule);
            && (AllDone(g.threads) ==>
                  SameUpToTrace(Completed(Outputs(g.threads), g.state, g.trace), Meaning(tools, CallsOf(run), s)))
            && (SomeRaised(g.threads) ==> !Meaning(tools, CallsOf(run), s).Completed?)
  {
    var calls := CallsOf(run);
    var g := RunGroup(tools, calls, s, schedule);
    if |run| == 1 {
      assert calls == [calls[0]];
      SingleGroup(tools, calls[0], s, schedule);
      var n: nat :| OnSolo(tools, calls[0], s, g, n);
      MeaningOne(tools, calls[0], s, g, n);
      if AllDone(g.threads) { assert Outputs(g.threads) == [g.threads[0].output]; }
    } else {
      forall i | 0 <= i < |calls| ensures Harmless(tools, calls[i]) {
        assert ParallelSafe(tools.registry, run[i].call.name);
      }
      SafeGroup(tools, calls, s, schedule);
      if AllDone(g.threads) { SafeGroupDone(tools, calls, s, g.threads); }
      if i :| 0 <= i < |g.threads| && g.threads[i].Raised? { SafeGroupRaised(tools, calls, s, g.threads, i); }
    }
  }

  /** Parallel dispatch preserves meaning. With honest flags, whatever the interleaving inside
      each run: if the dispatch completes, its outputs and final state are those of the
      sequential policy, and its trace has the same events; if it raises, the sequential policy
      does not complete either. */
  lemma {:induction false} DispatchMeansSequence<L(!new), S(!new), O>(
      tools: Tools<L, S, O>, runs: seq<Run>, schedules: seq<seq<nat>>, s: S)
    requires FlagsHold(tools) && LegalRuns(tools.registry, runs) && |schedules| == |runs|
    ensures var e := Exec(tools, runs, schedules, s);
            && (e.Completed? ==> SameUpToTrace(e, Meaning(tools, AllCalls(runs), s)))
            && (e.Crashed? ==> !Meaning(tools, AllCalls(runs), s).Completed?)
    decreases |runs|
  {
    hide Meaning, RunGroup, FlagsHold, ParallelSafe, AllSafe;
    if runs == [] {
      EmptyMeaning(tools, s);
    } else {
      var calls := CallsOf(runs[0]);
      assert LegalRuns(tools.registry, runs[1..]);
      RunMeansSequence(tools, runs[0], s, schedules[0]);
      MeaningAppend(tools, calls, AllCalls(runs[1..]), s);
      var g := RunGroup(tools, calls, s, schedules[0]);
      if AllDone(g.threads) {
        DispatchMeansSequence(tools, runs[1..], schedules[1..], g.state);
      }
    }
  }

  lemma EmptyMeaning<L, S, O>(tools: Tools<L, S, O>, s: S)
    ensures Meaning(tools, [], s) == Completed([], s, [])
  {}

  /** The sequential policy is the meaning itself: single-call runs, in whatever number of steps. */
  lemma {:induction false} SequentialIsMeaning<L, S, O>(
      tools: Tools<L, S, O>, runs: seq<Run>, schedules: seq<seq<nat>>, s: S)
    requires |schedules| == |runs| && forall k | 0 <= k < |runs| :: |runs[k]| == 1
    ensures var e := Exec(tools, runs, schedules, s);
            e == Unfinished || e == Meaning(tools, AllCalls(runs), s)
    decreases |runs|
  {
    if runs != [] {
      var calls := CallsOf(runs[0]);
      assert calls == [calls[0]];
      var g := RunGroup(tools, calls, s, schedules[0]);
      SingleGroup(tools, calls[0], s, schedules[0]);
      var n: nat :| OnSolo(tools, calls[0], s, g, n);
      MeaningOne(tools, calls[0], s, g, n);
      MeaningAppend(tools, calls, AllCalls(runs[1..]), s);
      if AllDone(g.threads) {
        assert Outputs(g.threads) == [g.threads[0].output];
        SequentialIsMeaning(tools, runs[1..], schedules[1..], g.state);
      }
    }
  }

  /** The dispatch of the default policy against that of the sequential one, both driven to an
      end: one raises exactly when the other does, and otherwise they agree. */
  lemma ParallelAgreesWithSequential<L(!new), S(!new), O>(
      tools: Tools<L, S, O>, calls: seq<Call>, s: S,
      runs: seq<Run>, schedules: seq<seq<nat>>, singles: seq<Run>, turns: seq<seq<nat>>)
    requires FlagsHold(tools)
    requires Grouped(tools.registry, runs) && Flatten(runs) == Enumerate(calls) && |schedules| == |runs|
    requires Flatten(singles) == Enumerate(calls) && |turns| == |singles|
    requires forall k | 0 <= k < |singles| :: |singles[k]| == 1
    requires Exec(tools, runs, schedules, s) != Unfinished && Exec(tools, singles, turns, s) != Unfinished
    ensures var parallel, sequential := Exec(tools, runs, schedules, s), Exec(tools, singles, turns, s);
            if sequential.Crashed? then parallel.Crashed? else SameUpToTrace(parallel, sequential)
  {
    hide Exec, Meaning, FlagsHold;
    CallsInOrder(runs, calls);
    CallsInOrder(singles, calls);
    DispatchMeansSequence(tools, runs, schedules, s);
    SequentialIsMeaning(tools, singles, turns, s);
  }

  lemma {:induction false} AllCallsAppend(runs: seq<Run>, run: Run)
    ensures AllCalls(runs + [run]) == AllCalls(runs) + CallsOf(run)
    decreases |runs|
  {
    if runs == [] {
      assert [run][1..] == [];
    } else {
      assert (runs + [run])[1..] == runs[1..] + [run];
      AllCallsAppend(runs[1..], run);
    }
  }

  lemma {:induction false} AllCallsFlatten(runs: seq<Run>)
    ensures AllCalls(runs) == CallsOf(Flatten(runs))
    decreases |runs|
  {
    if runs != [] {
      var k := |runs| - 1;
      AllCallsFlatten(runs[..k]);
      AllCallsAppend(runs[..k], runs[k]);
      assert runs == runs[..k] + [runs[k]];
    }
  }

  /** The runs hold the calls of the batch, in the batch's order. */
  lemma CallsInOrder(runs: seq<Run>, calls: seq<Call>)
    requires Flatten(runs) == Enumerate(calls)
    ensures AllCalls(runs) == calls
  {
    AllCallsFlatten(runs);
  }

  /** Each call, and so each unsafe one, starts from the state the earlier calls leave behind
      sequentially: it sees all earlier effects and no later one. */
  lemma RunSeesEarlierEffects<L(!new), S(!new), O>(
      tools: Tools<L, S, O>, runs: seq<Run>, schedules: seq<seq<nat>>, s: S, k: nat)
    requires FlagsHold(tools) && LegalRuns(tools.registry, runs) && |schedules| == |runs| && k <= |runs|
    requires Exec(tools, runs[..k], schedules[..k], s).Completed?
    ensures Meaning(tools, AllCalls(runs[..k]), s).Completed?
    ensures Exec(tools, runs[..k], schedules[..k], s).state == Meaning(tools, AllCalls(runs[..k]), s).state
    ensures Exec(tools, runs, schedules, s) ==
            var e := Exec(tools, runs[..k], schedules[..k], s);
            Then(e.outputs, e.trace, Exec(tools, runs[k..], schedules[k..], e.state))
  {
    hide Exec, Meaning, FlagsHold, AllSafe;
    DispatchMeansSequence(tools, runs[..k], schedules[..k], s);
    assert runs == runs[..k] + runs[k..] && schedules == schedules[..k] + schedules[k..];
    ExecAppend(tools, runs[..k], schedules[..k], runs[k..], schedules[k..], s);
  }

  lemma {:induction false} ExecAppend<L, S, O>(
      tools: Tools<L, S, O>, a: seq<Run>, sa: seq<seq<nat>>, b: seq<Run>, sb: seq<seq<nat>>, s: S)
    requires |sa| == |a| && |sb| == |b| && Exec(tools, a, sa, s).Completed?
    ensures Exec(tools, a + b, sa + sb, s) ==
            var e := Exec(tools, a, sa, s);
            Then(e.outputs, e.trace, Exec(tools, b, sb, e.state))
    decreases |a|
  {
    if a == [] {
      assert a + b == b && sa + sb == sb;
      ThenEmpty<S, O>(Exec(tools, b, sb, s));
    } else {
      assert (a + b)[0] == a[0] && (a + b)[1..] == a[1..] + b;
      assert (sa + sb)[0] == sa[0] && (sa + sb)[1..] == sa[1..] + sb;
      var g := RunGroup(tools, CallsOf(a[0]), s, sa[0]);
      ExecAppend(tools, a[1..], sa[1..], b, sb, g.state);
      var e1 := Exec(tools, a[1..], sa[1..], g.state);
      ThenThen(Outputs(g.threads), g.trace, e1.outputs, e1.trace, Exec(tools, b, sb, e1.state));
    }
  }
}
