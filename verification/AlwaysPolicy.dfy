/** The policy that runs a whole batch at once: for which batches it has the sequential meaning. */
module AlwaysPolicy {
  import opened Dispatch
  import opened DispatchMeaning

  predicate Known(registry: Registry, c: Call) { c.name in registry }

  /** All known calls are of safe tools, or there is at most one. */
  predicate SafeTogether(registry: Registry, calls: seq<Call>) {
    || (forall i | 0 <= i < |calls| && calls[i].name in registry :: registry[calls[i].name])
    || (forall i, j | 0 <= i < |calls| && 0 <= j < |calls| && calls[i].name in registry && calls[j].name in registry :: i == j)
  }

  /** What the batch does under this schedule is what its calls do one after the other. */
  ghost predicate Agrees<L, S, O>(tools: Tools<L, S, O>, calls: seq<Call>, s: S, schedule: seq<nat>) {
    var g := RunGroup(tools, calls, s, schedule);
    && (AllDone(g.threads) ==>
          SameUpToTrace(Completed(Outputs(g.threads), g.state, g.trace), Meaning(tools, calls, s)))
    && (SomeRaised(g.threads) ==> !Meaning(tools, calls, s).Completed?)
  }

  // ---- If -----------------------------------------------------------------------------------

  lemma AllSafeAgrees<L(!new), S(!new), O>(tools: Tools<L, S, O>, calls: seq<Call>, s: S, schedule: seq<nat>)
    requires FlagsHold(tools)
    requires forall i | 0 <= i < |calls| && Known(tools.registry, calls[i]) :: ParallelSafe(tools.registry, calls[i].name)
    ensures Agrees(tools, calls, s, schedule)
  {
    forall i | 0 <= i < |calls| ensures Harmless(tools, calls[i]) {}
    hide Meaning, FlagsHold, ParallelSafe, Harmless;
    SafeGroup(tools, calls, s, schedule);
    var g := RunGroup(tools, calls, s, schedule);
    if AllDone(g.threads) { SafeGroupDone(tools, calls, s, g.threads); }
    if i :| 0 <= i < |g.threads| && g.threads[i].Raised? { SafeGroupRaised(tools, calls, s, g.threads, i); }
  }

  /** Only call u is active: it is n steps into its solo run, the others returned at once. */
  ghost predicate OneActive<L, S, O>(tools: Tools<L, S, O>, calls: seq<Call>, s: S, u: nat, g: Group<L, S, O>, n: nat) {
    && u < |calls| == |g.threads|
    && (g.threads[u], g.state) == Solo(tools, calls[u], s, n)
    && (forall i | 0 <= i < |calls| && i != u :: g.threads[i] == Done(tools.unknown(calls[i])))
    && g.trace == if g.threads[u].Done? then Logged(tools, calls[u], g.threads[u].output) else []
  }

  lemma {:induction false} OneActiveGroup<L, S, O>(
      tools: Tools<L, S, O>, calls: seq<Call>, s: S, u: nat, schedule: seq<nat>) returns (n: nat)
    requires u < |calls| && Known(tools.registry, calls[u])
    requires forall i | 0 <= i < |calls| && i != u :: !Known(tools.registry, calls[i])
    ensures OneActive(tools, calls, s, u, RunGroup(tools, calls, s, schedule), n)
    decreases |schedule|
  {
    n := 0;
    if schedule != [] {
      var k := |schedule| - 1;
      n := OneActiveGroup(tools, calls, s, u, schedule[..k]);
      var g := RunGroup(tools, calls, s, schedule[..k]);
      if schedule[k] == u && g.threads[u].Suspended? { n := n + 1; }
    }
  }

  function Unknowns<L, S, O>(tools: Tools<L, S, O>, calls: seq<Call>): seq<O> {
    seq(|calls|, i requires 0 <= i < |calls| => tools.unknown(calls[i]))
  }

  lemma {:induction false} UnknownMeaning<L, S, O>(tools: Tools<L, S, O>, calls: seq<Call>, s: S)
    requires forall i | 0 <= i < |calls| :: !Known(tools.registry, calls[i])
    ensures Meaning(tools, calls, s) == Completed(Unknowns(tools, calls), s, [])
    decreases |calls|
  {
    if calls != [] {
      assert !Known(tools.registry, calls[0]);
      assert Ends(tools, calls[0], s, 0);
      EndIsUnique(tools, calls[0], s, 0);
      UnknownMeaning(tools, calls[1..], s);
      assert Unknowns(tools, calls) == [tools.unknown(calls[0])] + Unknowns(tools, calls[1..]);
    }
  }

  lemma OneMeaning<L, S, O>(tools: Tools<L, S, O>, c: Call, s: S, n: nat)
    requires Ends(tools, c, s, n)
    ensures var (t, s') := Solo(tools, c, s, n);
      Meaning(tools, [c], s) == if t.Raised? then Crashed else Completed([t.output], s', Logged(tools, c, t.output))
  {
    EndIsUnique(tools, c, s, n);
    assert [c][1..] == [];
    EmptyMeaning(tools, Solo(tools, c, s, n).1);
  }

  lemma OneKnownMeaning<L, S, O>(tools: Tools<L, S, O>, calls: seq<Call>, s: S, u: nat, n: nat)
    requires u < |calls| && Ends(tools, calls[u], s, n)
    requires forall i | 0 <= i < |calls| && i != u :: !Known(tools.registry, calls[i])
    ensures var (t, s') := Solo(tools, calls[u], s, n);
      Meaning(tools, calls, s) ==
        if t.Raised? then Crashed
        else Completed(Unknowns(tools, calls)[u := t.output], s', Logged(tools, calls[u], t.output))
  {
    hide Meaning, Ends;
    var pre, post := calls[..u], calls[u + 1..];
    var (t, s') := Solo(tools, calls[u], s, n);
    OneMeaning(tools, calls[u], s, n);
    UnknownMeaning(tools, pre, s);
    UnknownMeaning(tools, post, s');
    MeaningAppend(tools, [calls[u]], post, s);
    MeaningAppend(tools, pre, [calls[u]] + post, s);
    assert calls == pre + ([calls[u]] + post);
    if !t.Raised? {
      EndsNotSuspended(tools, calls[u], s, n);
      assert Unknowns(tools, calls)[u := t.output] == Unknowns(tools, pre) + ([t.output] + Unknowns(tools, post));
    }
  }

  lemma EndsNotSuspended<L, S, O>(tools: Tools<L, S, O>, c: Call, s: S, n: nat)
    requires Ends(tools, c, s, n)
    ensures !Solo(tools, c, s, n).0.Suspended?
  {}

  lemma OneKnownAgrees<L, S, O>(tools: Tools<L, S, O>, calls: seq<Call>, s: S, u: nat, schedule: seq<nat>)
    requires u < |calls| && Known(tools.registry, calls[u])
    requires forall i | 0 <= i < |calls| && i != u :: !Known(tools.registry, calls[i])
    ensures Agrees(tools, calls, s, schedule)
  {
    hide Meaning, Known, RunGroup;
    var n := OneActiveGroup(tools, calls, s, u, schedule);
    var g := RunGroup(tools, calls, s, schedule);
    if !g.threads[u].Suspended? {
      assert Ends(tools, calls[u], s, n);
      OneKnownMeaning(tools, calls, s, u, n);
      if AllDone(g.threads) { assert Outputs(g.threads) == Unknowns(tools, calls)[u := g.threads[u].output]; }
    }
  }

  /** Such a batch may be run at once, by any tools with honest flags, in any interleaving. */
  lemma SafeTogetherAgrees<L(!new), S(!new), O>(tools: Tools<L, S, O>, calls: seq<Call>, s: S, schedule: seq<nat>)
    requires FlagsHold(tools) && SafeTogether(tools.registry, calls)
    ensures Agrees(tools, calls, s, schedule)
  {
    hide FlagsHold, Agrees;
    if forall i | 0 <= i < |calls| && Known(tools.registry, calls[i]) :: ParallelSafe(tools.registry, calls[i].name) {
      AllSafeAgrees(tools, calls, s, schedule);
    } else {
      var u :| 0 <= u < |calls| && Known(tools.registry, calls[u]) && !ParallelSafe(tools.registry, calls[u].name);
      OneKnownAgrees(tools, calls, s, u, schedule);
    }
  }

  // ---- Only if ------------------------------------------------------------------------------

  predicate Unsafe(registry: Registry, c: Call) { Known(registry, c) && !ParallelSafe(registry, c.name) }

  /** Every tool returns the state at its one step; the unsafe ones also count it up. */
  function Counter(registry: Registry): Tools<int, int, int> {
    Tools(registry, c => 0,
          (c: Call, l: int, s: int) => (Done(s), if ParallelSafe(registry, c.name) then s else s + 1), c => 0)
  }

  lemma CounterHonest(registry: Registry)
    ensures FlagsHold(Counter(registry))
  {}

  function Unsafes(registry: Registry, calls: seq<Call>): nat {
    if calls == [] then 0 else (if Unsafe(registry, calls[0]) then 1 else 0) + Unsafes(registry, calls[1..])
  }

  lemma {:induction false} SomeUnsafe(registry: Registry, calls: seq<Call>)
    ensures Unsafes(registry, calls) > 0 <==> exists i :: 0 <= i < |calls| && Unsafe(registry, calls[i])
    decreases |calls|
  {
    hide Unsafe;
    if calls != [] {
      SomeUnsafe(registry, calls[1..]);
      if i :| 0 <= i < |calls| && Unsafe(registry, calls[i]) && i > 0 { assert calls[1..][i - 1] == calls[i]; }
    }
  }

  /** In sequence each known call returns the number of unsafe ones before it. */
  lemma {:induction false} CounterMeaning(registry: Registry, calls: seq<Call>, s: int) returns (outs: seq<int>, trace: seq<Event<int>>)
    ensures Meaning(Counter(registry), calls, s) == Completed(outs, s + Unsafes(registry, calls), trace)
    ensures |outs| == |calls|
    ensures forall k | 0 <= k < |calls| && Known(registry, calls[k]) :: outs[k] == s + Unsafes(registry, calls[..k])
    decreases |calls|
  {
    outs, trace := [], [];
    if calls != [] {
      var tools, c, rest := Counter(registry), calls[0], calls[1..];
      var n := if Known(registry, c) then 1 else 0;
      var s' := if Unsafe(registry, c) then s + 1 else s;
      CounterStep(registry, c, s);
      var outs1, trace1 := CounterMeaning(registry, rest, s');
      MeaningAppend(tools, [c], rest, s);
      assert calls == [c] + rest;
      outs, trace := [if Known(registry, c) then s else 0] + outs1, CounterTrace(registry, c, s) + trace1;
      forall k | 0 <= k < |calls| && Known(registry, calls[k]) ensures outs[k] == s + Unsafes(registry, calls[..k]) {
        if k > 0 {
          assert calls[..k][1..] == rest[..k - 1] && rest[k - 1] == calls[k] && calls[..k][0] == c;
        }
      }
    }
  }

  function CounterTrace(registry: Registry, c: Call, s: int): seq<Event<int>> {
    Logged(Counter(registry), c, if Known(registry, c) then s else 0)
  }

  lemma CounterStep(registry: Registry, c: Call, s: int)
    ensures Meaning(Counter(registry), [c], s) ==
      Completed([if Known(registry, c) then s else 0], if Unsafe(registry, c) then s + 1 else s, CounterTrace(registry, c, s))
  {
    var tools := Counter(registry);
    var n: nat := if Known(registry, c) then 1 else 0;
    assert Solo(tools, c, s, 0) == (Begin(tools, c), s);
    assert Ends(tools, c, s, n);
    OneMeaning(tools, c, s, n);
  }

  /** Call q first, then the calls 0, ..., m - 1 in order. */
  function Early(q: nat, m: nat): seq<nat> { [q] + seq(m, i requires 0 <= i < m => i) }

  /** Call q has returned 0, and so have all calls before m something; if q counts up, each of
      them has seen it. */
  ghost predicate EarlyDone(registry: Registry, calls: seq<Call>, q: nat, m: nat, g: Group<int, int, int>) {
    && q < |calls| == |g.threads| && m <= |calls|
    && g.threads[q] == Done(0)
    && (forall k | 0 <= k < |calls| :: !g.threads[k].Raised?)
    && (forall k | 0 <= k < m :: g.threads[k].Done?)
    && g.state >= (if Unsafe(registry, calls[q]) then 1 else 0)
    && (forall k | 0 <= k < |calls| && k != q && Known(registry, calls[k]) && g.threads[k].Done? ::
          g.threads[k].output >= if Unsafe(registry, calls[q]) then 1 else 0)
    && (forall k | 0 <= k < |calls| && !Known(registry, calls[k]) :: g.threads[k].Done?)
  }

  lemma EarlyFirst(registry: Registry, calls: seq<Call>, q: nat)
    requires q < |calls| && Known(registry, calls[q])
    ensures EarlyDone(registry, calls, q, 0, RunGroup(Counter(registry), calls, 0, Early(q, 0)))
  {
    var tools := Counter(registry);
    assert Early(q, 0) == [q] && [q][..0] == [];
    var g := StartGroup(tools, calls, 0);
    assert RunGroup(tools, calls, 0, [q]) == Resume(tools, calls, g, q);
  }

  lemma EarlyNext(registry: Registry, calls: seq<Call>, q: nat, m: nat, g: Group<int, int, int>)
    requires EarlyDone(registry, calls, q, m, g) && m < |calls|
    ensures EarlyDone(registry, calls, q, m + 1, Resume(Counter(registry), calls, g, m))
  {}

  lemma {:induction false} EarlyRun(registry: Registry, calls: seq<Call>, q: nat, m: nat)
    requires q < |calls| && Known(registry, calls[q]) && m <= |calls|
    ensures EarlyDone(registry, calls, q, m, RunGroup(Counter(registry), calls, 0, Early(q, m)))
  {
    hide EarlyDone, Known;
    if m == 0 {
      EarlyFirst(registry, calls, q);
    } else {
      EarlyRun(registry, calls, q, m - 1);
      var order := Early(q, m);
      assert order[..|order| - 1] == Early(q, m - 1) && order[|order| - 1] == m - 1;
      EarlyNext(registry, calls, q, m - 1, RunGroup(Counter(registry), calls, 0, Early(q, m - 1)));
    }
  }

  /** A known call moved before an unsafe one misses it; an unsafe one moved before a known call
      is seen by it. */
  lemma EarlyDiffers(registry: Registry, calls: seq<Call>, p: nat, q: nat)
    requires p < q < |calls| && Known(registry, calls[p]) && Known(registry, calls[q])
    requires Unsafe(registry, calls[p]) || (Unsafe(registry, calls[q]) && Unsafes(registry, calls[..p]) == 0)
    ensures !Agrees(Counter(registry), calls, 0, Early(q, |calls|))
  {
    hide Meaning, RunGroup, Known, Unsafe, Unsafes;
    var n := |calls|;
    var g := RunGroup(Counter(registry), calls, 0, Early(q, n));
    EarlyRun(registry, calls, q, n);
    var outs, trace := CounterMeaning(registry, calls, 0);
    assert AllDone(g.threads);
    if Unsafe(registry, calls[p]) {
      SomeUnsafe(registry, calls[..q]);
      assert calls[..q][p] == calls[p];
      assert Outputs(g.threads)[q] == 0 && outs[q] > 0;
    } else {
      assert Outputs(g.threads)[p] > 0 && outs[p] == 0;
    }
  }

  lemma SomeDiffers(registry: Registry, calls: seq<Call>) returns (q: nat)
    requires !SafeTogether(registry, calls)
    ensures !Agrees(Counter(registry), calls, 0, Early(q, |calls|))
  {
    hide Agrees;
    var a :| 0 <= a < |calls| && Known(registry, calls[a]) && !ParallelSafe(registry, calls[a].name);
    var i, j :| 0 <= i < |calls| && 0 <= j < |calls| && Known(registry, calls[i]) && Known(registry, calls[j]) && i != j;
    var b := if i != a then i else j;
    if a < b {
      EarlyDiffers(registry, calls, a, b);
      q := b;
    } else {
      SomeUnsafe(registry, calls[..b]);
      if c :| 0 <= c < b && Unsafe(registry, calls[..b][c]) {
        EarlyDiffers(registry, calls, c, b);
        q := b;
      } else {
        EarlyDiffers(registry, calls, b, a);
        q := a;
      }
    }
  }

  /** For a registry and a batch: all tools with honest flags, under all interleavings, do at once
      what they do one after the other, if and only if all known calls of the batch are safe or
      it has at most one. */
  lemma AlwaysAgreesIff(registry: Registry, calls: seq<Call>)
    ensures SafeTogether(registry, calls) <==>
      forall tools: Tools<int, int, int>, s: int, schedule: seq<nat> | tools.registry == registry && FlagsHold(tools) ::
        Agrees(tools, calls, s, schedule)
  {
    hide FlagsHold, Agrees;
    if SafeTogether(registry, calls) {
      forall tools: Tools<int, int, int>, s: int, schedule: seq<nat> | tools.registry == registry && FlagsHold(tools)
        ensures Agrees(tools, calls, s, schedule)
      {
        SafeTogetherAgrees(tools, calls, s, schedule);
      }
    } else {
      var q := SomeDiffers(registry, calls);
      CounterHonest(registry);
      assert Counter(registry).registry == registry;
    }
  }
}
