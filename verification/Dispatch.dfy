/** Tool dispatch: a batch of calls is split into runs, each run executes concurrently, and the
    outputs come back in call order. Any interleaving means what the sequential policy means. */
module Dispatch {
  import opened Wrappers

  datatype Call = Call(id: string, name: string, arguments: string)

  datatype Policy = RespectToolFlags | Never | Always

  /** The registered tools with their `parallel_safe` flag. */
  type Registry = map<string, bool>

  datatype Numbered = Numbered(index: nat, call: Call)

  type Run = seq<Numbered>

  /** Unknown tools count as unsafe. */
  predicate ParallelSafe(registry: Registry, name: string) { name in registry && registry[name] }

  function Enumerate(calls: seq<Call>): (r: seq<Numbered>)
    ensures |r| == |calls|
  {
    seq(|calls|, i requires 0 <= i < |calls| => Numbered(i, calls[i]))
  }

  function Flatten<T>(runs: seq<seq<T>>): seq<T> {
    if runs == [] then [] else Flatten(runs[..|runs| - 1]) + runs[|runs| - 1]
  }

  // ---- Splitting a batch into runs ----------------------------------------------------------

  predicate AllSafe(registry: Registry, run: Run) {
    forall i | 0 <= i < |run| :: ParallelSafe(registry, run[i].call.name)
  }

  /** Under the default policy: a run is one unsafe call, or a maximal stretch of safe ones. */
  ghost predicate Grouped(registry: Registry, runs: seq<Run>) {
    && (forall k | 0 <= k < |runs| :: |runs[k]| > 0)
    && (forall k | 0 <= k < |runs| :: AllSafe(registry, runs[k]) || |runs[k]| == 1)
    && (forall k | 0 <= k < |runs| - 1 :: !(AllSafe(registry, runs[k]) && AllSafe(registry, runs[k + 1])))
  }

  lemma FlattenAppend<T>(runs: seq<seq<T>>, run: seq<T>)
    ensures Flatten(runs + [run]) == Flatten(runs) + run
  {
    assert (runs + [run])[..|runs|] == runs;
  }

  lemma EmptyRuns(registry: Registry)
    ensures Grouped(registry, []) && AllSafe(registry, []) && Flatten<Numbered>([]) == []
  {}

  lemma SafeAppend(registry: Registry, run: Run, it: Numbered)
    requires AllSafe(registry, run) && ParallelSafe(registry, it.call.name)
    ensures AllSafe(registry, run + [it])
  {}

  lemma UnsafeAlone(registry: Registry, it: Numbered)
    requires !ParallelSafe(registry, it.call.name)
    ensures !AllSafe(registry, [it]) && AllSafe(registry, [])
  {
    assert [it][0] == it;
  }

  lemma GroupedAppend(registry: Registry, runs: seq<Run>, run: Run)
    requires Grouped(registry, runs) && run != [] && (AllSafe(registry, run) || |run| == 1)
    requires runs != [] ==> !(AllSafe(registry, runs[|runs| - 1]) && AllSafe(registry, run))
    ensures Grouped(registry, runs + [run]) && Flatten(runs + [run]) == Flatten(runs) + run
  {
    hide AllSafe, Flatten;
    FlattenAppend(runs, run);
    var rs := runs + [run];
    forall k | 0 <= k < |rs| ensures |rs[k]| > 0 && (AllSafe(registry, rs[k]) || |rs[k]| == 1) {
      if k < |runs| { assert rs[k] == runs[k]; } else { assert rs[k] == run; }
    }
    forall k | 0 <= k < |rs| - 1 ensures !(AllSafe(registry, rs[k]) && AllSafe(registry, rs[k + 1])) {
      assert rs[k] == runs[k] && rs[k + 1] == if k + 1 < |runs| then runs[k + 1] else run;
    }
  }

  lemma EnumerateStep(calls: seq<Call>, i: nat)
    requires i < |calls|
    ensures Enumerate(calls)[..i + 1] == Enumerate(calls)[..i] + [Numbered(i, calls[i])]
  {}

  /** Calls i and i + 1 of the batch stand next to each other in one run. */
  ghost predicate ShareRun(runs: seq<Run>, i: int) {
    exists k, m :: 0 <= k < |runs| && 0 <= m < |runs[k]| - 1 && runs[k][m].index == i && runs[k][m + 1].index == i + 1
  }

  /** A run of more than one call has only calls of tools registered as safe. */
  lemma LongRunsFlagged(registry: Registry, runs: seq<Run>)
    requires Grouped(registry, runs)
    ensures forall k, m | 0 <= k < |runs| && |runs[k]| > 1 && 0 <= m < |runs[k]| ::
      runs[k][m].call.name in registry && registry[runs[k][m].call.name]
  {
    forall k, m | 0 <= k < |runs| && |runs[k]| > 1 && 0 <= m < |runs[k]|
      ensures runs[k][m].call.name in registry && registry[runs[k][m].call.name]
    {
      assert AllSafe(registry, runs[k]);
      assert ParallelSafe(registry, runs[k][m].call.name);
    }
  }

  /** Where in the runs the i-th call of the batch stands. */
  lemma {:induction false} Locate<T>(runs: seq<seq<T>>, i: nat) returns (k: nat, m: nat)
    requires i < |Flatten(runs)|
    ensures k < |runs| && m < |runs[k]| && i == |Flatten(runs[..k])| + m
    decreases |runs|
  {
    var n := |runs| - 1;
    if i < |Flatten(runs[..n])| {
      k, m := Locate(runs[..n], i);
      assert runs[..n][..k] == runs[..k];
    } else {
      k, m := n, i - |Flatten(runs[..n])|;
    }
  }

  /** The call at a place of the runs is the one numbered by everything before it. */
  lemma NumberAt(calls: seq<Call>, runs: seq<Run>, k: nat, m: nat)
    requires Flatten(runs) == Enumerate(calls) && k < |runs| && m < |runs[k]|
    ensures var n := |Flatten(runs[..k])| + m; n < |calls| && runs[k][m] == Numbered(n, calls[n])
  {
    hide Flatten;
    FlattenAt(runs, k, m);
  }

  lemma SafeRun(registry: Registry, runs: seq<Run>, k: nat, m: nat)
    requires Grouped(registry, runs) && k < |runs| && m < |runs[k]|
    requires runs[k][m].call.name in registry && registry[runs[k][m].call.name]
    ensures AllSafe(registry, runs[k])
  {}

  /** The last call of a run and the first of the next are never both safe. */
  lemma NeighbourStarts(registry: Registry, calls: seq<Call>, runs: seq<Run>, k: nat, i: nat)
    requires Flatten(runs) == Enumerate(calls) && Grouped(registry, runs) && k < |runs| && i + 1 < |calls|
    requires i == |Flatten(runs[..k])| + |runs[k]| - 1 && |runs[k]| > 0
    ensures !(calls[i].name in registry && registry[calls[i].name] && calls[i + 1].name in registry && registry[calls[i + 1].name])
  {
    hide Flatten, AllSafe;
    NumberAt(calls, runs, k, |runs[k]| - 1);
    assert runs[..k + 1] == runs[..k] + [runs[k]];
    FlattenAppend(runs[..k], runs[k]);
    assert runs[..|runs|] == runs;
    assert k + 1 < |runs| && |runs[k + 1]| > 0;
    NumberAt(calls, runs, k + 1, 0);
    if calls[i].name in registry && registry[calls[i].name] && calls[i + 1].name in registry && registry[calls[i + 1].name] {
      SafeRun(registry, runs, k, |runs[k]| - 1);
      SafeRun(registry, runs, k + 1, 0);
    }
  }

  /** Neighbours share a run if and only if both are of tools registered as safe; so an unsafe or
      unregistered one stands alone. */
  lemma NeighboursShare(registry: Registry, calls: seq<Call>, runs: seq<Run>)
    requires Flatten(runs) == Enumerate(calls) && Grouped(registry, runs)
    ensures forall i | 0 <= i < |calls| - 1 ::
      ShareRun(runs, i) <==>
        && calls[i].name in registry && registry[calls[i].name]
        && calls[i + 1].name in registry && registry[calls[i + 1].name]
  {
    forall i | 0 <= i < |calls| - 1
      ensures ShareRun(runs, i) <==>
        && calls[i].name in registry && registry[calls[i].name]
        && calls[i + 1].name in registry && registry[calls[i + 1].name]
    {
      hide Flatten, Enumerate, Grouped;
      LongRunsFlagged(registry, runs);
      if ShareRun(runs, i) { SharedAreFlagged(registry, calls, runs, i); }
      var k, m := Locate(runs, i);
      if m + 1 < |runs[k]| {
        NumberAt(calls, runs, k, m);
        NumberAt(calls, runs, k, m + 1);
        SharedAreFlagged(registry, calls, runs, i);
      } else {
        NeighbourStarts(registry, calls, runs, k, i);
      }
    }
  }

  lemma SharedAreFlagged(registry: Registry, calls: seq<Call>, runs: seq<Run>, i: nat)
    requires Flatten(runs) == Enumerate(calls) && Grouped(registry, runs) && i + 1 < |calls| && ShareRun(runs, i)
    ensures calls[i].name in registry && registry[calls[i].name]
    ensures calls[i + 1].name in registry && registry[calls[i + 1].name]
  {
    hide Flatten, Enumerate, Grouped;
    LongRunsFlagged(registry, runs);
    var k, m :| 0 <= k < |runs| && 0 <= m < |runs[k]| - 1 && runs[k][m].index == i && runs[k][m + 1].index == i + 1;
    NumberAt(calls, runs, k, m);
    NumberAt(calls, runs, k, m + 1);
  }

  /** The loop of the default policy. */
  method GroupRuns(calls: seq<Call>, registry: Registry) returns (runs: seq<Run>)
    ensures Flatten(runs) == Enumerate(calls)
    ensures Grouped(registry, runs)
    ensures forall k, m | 0 <= k < |runs| && |runs[k]| > 1 && 0 <= m < |runs[k]| ::
      runs[k][m].call.name in registry && registry[runs[k][m].call.name]
    ensures forall i | 0 <= i < |calls| - 1 ::
      ShareRun(runs, i) <==>
        && calls[i].name in registry && registry[calls[i].name]
        && calls[i + 1].name in registry && registry[calls[i + 1].name]
  {
    hide Grouped, AllSafe, Flatten, Enumerate, ParallelSafe, ShareRun;
    EmptyRuns(registry);
    runs := [];
    var current: Run := [];
    for i := 0 to |calls|
      invariant Flatten(runs) + current == Enumerate(calls)[..i]
      invariant Grouped(registry, runs) && AllSafe(registry, current)
      invariant runs != [] ==> !AllSafe(registry, runs[|runs| - 1])
    {
      var it := Numbered(i, calls[i]);
      EnumerateStep(calls, i);
      ghost var before := Flatten(runs) + current;
      if ParallelSafe(registry, calls[i].name) {
        SafeAppend(registry, current, it);
        current := current + [it];
      } else {
        UnsafeAlone(registry, it);
        if current != [] {
          GroupedAppend(registry, runs, current);
          runs := runs + [current];
          current := [];
        }
        assert Flatten(runs) == before;
        GroupedAppend(registry, runs, [it]);
        runs := runs + [[it]];
      }
      assert Flatten(runs) + current == before + [it];
    }
    if current != [] {
      GroupedAppend(registry, runs, current);
      runs := runs + [current];
    }
    assert Enumerate(calls)[..|calls|] == Enumerate(calls);
    LongRunsFlagged(registry, runs);
    NeighboursShare(registry, calls, runs);
  }

  method BuildRuns(policy: Policy, calls: seq<Call>, registry: Registry) returns (runs: seq<Run>)
    ensures calls == [] ==> runs == []
    ensures Flatten(runs) == Enumerate(calls)
    ensures policy == RespectToolFlags ==> Grouped(registry, runs)
    ensures policy == RespectToolFlags ==> forall i | 0 <= i < |calls| - 1 ::
      ShareRun(runs, i) <==>
        && calls[i].name in registry && registry[calls[i].name]
        && calls[i + 1].name in registry && registry[calls[i + 1].name]
    ensures policy == Never ==> |runs| == |calls| && forall k | 0 <= k < |runs| :: |runs[k]| == 1
    ensures policy == Always && calls != [] ==> runs == [Enumerate(calls)]
  {
    runs := [];
    if calls == [] {
      return;
    }
    if policy == Never {
      for i := 0 to |calls|
        invariant |runs| == i && Flatten(runs) == Enumerate(calls)[..i]
        invariant forall k | 0 <= k < |runs| :: |runs[k]| == 1
      {
        FlattenAppend(runs, [Numbered(i, calls[i])]);
        EnumerateStep(calls, i);
        runs := runs + [[Numbered(i, calls[i])]];
      }
    } else if policy == Always {
      runs := [Enumerate(calls)];
      FlattenAppend([], Enumerate(calls));
    } else {
      runs := GroupRuns(calls, registry);
    }
    assert Enumerate(calls)[..|calls|] == Enumerate(calls);
  }

  // ---- Reassembling the outputs -------------------------------------------------------------

  lemma {:induction false} FlattenPrefix<T>(runs: seq<seq<T>>, k: nat)
    requires k <= |runs|
    ensures |Flatten(runs[..k])| <= |Flatten(runs)| && Flatten(runs)[..|Flatten(runs[..k])|] == Flatten(runs[..k])
    decreases |runs|
  {
    if k < |runs| {
      FlattenPrefix(runs[..|runs| - 1], k);
      assert runs[..|runs| - 1][..k] == runs[..k];
    } else {
      assert runs[..k] == runs;
    }
  }

  lemma FlattenAt<T>(runs: seq<seq<T>>, k: nat, m: nat)
    requires k < |runs| && m < |runs[k]|
    ensures |Flatten(runs[..k])| + m < |Flatten(runs)| && Flatten(runs)[|Flatten(runs[..k])| + m] == runs[k][m]
  {
    FlattenPrefix(runs, k + 1);
    assert runs[..k + 1] == runs[..k] + [runs[k]];
    FlattenAppend(runs[..k], runs[k]);
    var n := |Flatten(runs[..k])| + m;
    assert Flatten(runs[..k + 1])[n] == runs[k][m];
    assert Flatten(runs)[..|Flatten(runs[..k + 1])|][n] == Flatten(runs)[n];
  }

  /** Position m of run k is the call numbered by everything before it. */
  lemma PlaceOf<O>(calls: seq<Call>, runs: seq<Run>, results: seq<seq<O>>, k: nat, m: nat)
    requires Flatten(runs) == Enumerate(calls)
    requires |results| == |runs| && forall k | 0 <= k < |runs| :: |results[k]| == |runs[k]|
    requires k < |runs| && m < |runs[k]|
    ensures |Flatten(results)| == |calls|
    ensures runs[k][m].index == |Flatten(runs[..k])| + m < |calls|
    ensures Flatten(results)[runs[k][m].index] == results[k][m]
  {
    hide Flatten;
    SameShape(runs, results);
    SameShape(runs[..k], results[..k]);
    FlattenAt(runs, k, m);
    FlattenAt(results, k, m);
  }

  lemma FlattenNext<T>(runs: seq<seq<T>>, k: nat)
    requires k < |runs|
    ensures |Flatten(runs[..k + 1])| == |Flatten(runs[..k])| + |runs[k]| <= |Flatten(runs)|
  {
    hide Flatten;
    FlattenPrefix(runs, k + 1);
    assert runs[..k + 1] == runs[..k] + [runs[k]];
    FlattenAppend(runs[..k], runs[k]);
  }

  lemma Unwrapped<O>(s: seq<Option<O>>, want: seq<O>, i: nat)
    requires |s| == |want| && i < |s| && s[i] == Some(want[i])
    ensures want[..i] + [s[i].value] == want[..i + 1]
  {}

  lemma EmptyFlatten<T>(runs: seq<seq<T>>)
    ensures runs == [] ==> Flatten(runs) == []
  {}

  /** Writing each result at the index of its call yields the results in call order: no slot is
      lost, none is written out of place. */
  method PlaceOutputs<O>(calls: seq<Call>, runs: seq<Run>, results: seq<seq<O>>) returns (outs: seq<O>)
    requires Flatten(runs) == Enumerate(calls)
    requires |results| == |runs| && forall k | 0 <= k < |runs| :: |results[k]| == |runs[k]|
    ensures outs == Flatten(results) && |outs| == |calls|
  {
    hide Flatten, Enumerate;
    ghost var want := Flatten(results);
    SameShape(runs, results);
    EmptyFlatten(runs[..0]);
    var outputs := new Option<O>[|calls|](_ => None);
    ghost var done := 0;
    var k := 0;
    while k < |runs|
      invariant k <= |runs| && done == |Flatten(runs[..k])| <= |calls| == |want|
      invariant forall j | 0 <= j < done :: outputs[j] == Some(want[j])
    {
      FlattenNext(runs, k);
      var m := 0;
      while m < |runs[k]|
        invariant m <= |runs[k]| && done + m <= |calls|
        invariant forall j | 0 <= j < done + m :: outputs[j] == Some(want[j])
      {
        PlaceOf(calls, runs, results, k, m);
        outputs[runs[k][m].index] := Some(results[k][m]);
        m := m + 1;
      }
      done := done + |runs[k]|;
      k := k + 1;
    }
    assert runs[..k] == runs && done == |Enumerate(calls)|;
    ghost var filled := outputs[..];
    assert forall j | 0 <= j < |filled| :: filled[j] == Some(want[j]);
    outs := [];
    for i := 0 to outputs.Length
      invariant outs == want[..i] && outputs[..] == filled
    {
      assert outputs[i] == filled[i];
      Unwrapped(filled, want, i);
      outs := outs + [outputs[i].value];
    }
  }

  lemma {:induction false} SameShape<O>(runs: seq<Run>, results: seq<seq<O>>)
    requires |results| == |runs| && forall k | 0 <= k < |runs| :: |results[k]| == |runs[k]|
    ensures |Flatten(results)| == |Flatten(runs)|
    decreases |runs|
  {
    if runs != [] { SameShape(runs[..|runs| - 1], results[..|runs| - 1]); }
  }
}
