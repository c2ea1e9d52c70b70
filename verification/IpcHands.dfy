/** What reaches the callers: a consumer hands over what it has collected when its call returns, and
    a call that raises hands over nothing. */
module IpcHands {
  import opened Ipc
  import opened IpcRuns

  /** The lists the calls under way have collected, and all that calls have returned, in order. */
  datatype Hands<P> = Hands(outs: map<nat, seq<Delivery<P>>>, returned: seq<Delivery<P>>)

  function OutOf<P>(h: Hands<P>, c: nat): seq<Delivery<P>> { if c in h.outs then h.outs[c] else [] }

  function Observe<P>(s: State<P>, h: Hands<P>, step: Step): Hands<P> {
    match step
    case List(c, _) => h.(outs := h.outs[c := []])
    case MoveToArchive(c) =>
      var p := PhaseOf(s, c);
      if p.Holding? && p.name in s.disk.inbox then
        h.(outs := h.outs[c := OutOf(h, c) + [Delivery(c, p.name, p.payload)]])
      else h
    case Return(c) => Hands(h.outs[c := []], h.returned + OutOf(h, c))
    case _ => h
  }

  ghost function HandsAfter<P>(parse: Parser<P>, s: State<P>, h: Hands<P>, steps: seq<Step>): Hands<P>
    requires IsRun(parse, s, steps)
    decreases |steps|
  {
    if steps == [] then h else HandsAfter(parse, After(parse, s, steps[0]), Observe(s, h, steps[0]), steps[1..])
  }

  function Empty<P>(): Hands<P> { Hands(map[], []) }

  ghost predicate NoRepeats<T>(s: seq<T>) { forall i, j | 0 <= i < j < |s| :: s[i] != s[j] }

  ghost predicate OutsGood<P>(s: State<P>, h: Hands<P>) {
    && (forall c: nat, d | d in OutOf(h, c) :: d in s.delivered && d.consumer == c)
    && (forall c: nat :: NoRepeats(OutOf(h, c)))
    && (forall c: nat | PhaseOf(s, c).Idle? :: OutOf(h, c) == [])
  }

  ghost predicate ReturnedGood<P>(s: State<P>, h: Hands<P>) {
    && (forall d | d in h.returned :: d in s.delivered && d !in OutOf(h, d.consumer))
    && NoRepeats(h.returned)
  }

  /** Every delivery has been returned or is in the list of its consumer, and not both. */
  ghost predicate InHand<P>(s: State<P>, h: Hands<P>) {
    && OutsGood(s, h) && ReturnedGood(s, h)
    && forall d | d in s.delivered :: d in h.returned || d in OutOf(h, d.consumer)
  }

  ghost predicate SameCalls<P>(s: State<P>, t: State<P>) {
    t.delivered == s.delivered && forall c: nat :: PhaseOf(t, c).Idle? ==> PhaseOf(s, c).Idle?
  }

  lemma QuietHands<P>(s: State<P>, t: State<P>, h: Hands<P>)
    requires InHand(s, h) && SameCalls(s, t)
    ensures InHand(t, h)
  {
    hide OutOf, NoRepeats;
  }

  lemma ListHands<P>(s: State<P>, t: State<P>, h: Hands<P>, c: nat)
    requires InHand(s, h) && PhaseOf(s, c).Idle? && SameCalls(s, t)
    ensures InHand(t, h.(outs := h.outs[c := []]))
  {
    var k := h.(outs := h.outs[c := []]);
    assert forall e: nat :: OutOf(k, e) == OutOf(h, e);
    hide OutOf, NoRepeats;
  }

  lemma ArchiveHands<P>(s: State<P>, t: State<P>, h: Hands<P>, d: Delivery<P>)
    requires InHand(s, h) && d !in s.delivered && t.delivered == s.delivered + [d] && !PhaseOf(t, d.consumer).Idle?
    requires forall c: nat :: PhaseOf(t, c).Idle? ==> PhaseOf(s, c).Idle?
    ensures InHand(t, h.(outs := h.outs[d.consumer := OutOf(h, d.consumer) + [d]]))
  {
    var c := d.consumer;
    var k := h.(outs := h.outs[c := OutOf(h, c) + [d]]);
    assert forall e: nat | e != c :: OutOf(k, e) == OutOf(h, e);
    assert OutOf(k, c) == OutOf(h, c) + [d];
    assert d !in OutOf(h, c);
    forall i, j | 0 <= i < j < |OutOf(k, c)| ensures OutOf(k, c)[i] != OutOf(k, c)[j] {
      assert OutOf(k, c)[i] in OutOf(h, c);
    }
  }

  lemma ReturnHands<P>(s: State<P>, t: State<P>, h: Hands<P>, c: nat)
    requires InHand(s, h) && t.delivered == s.delivered
    requires forall e: nat | e != c :: PhaseOf(t, e).Idle? ==> PhaseOf(s, e).Idle?
    ensures InHand(t, Hands(h.outs[c := []], h.returned + OutOf(h, c)))
  {
    var out := OutOf(h, c);
    var k := Hands(h.outs[c := []], h.returned + out);
    assert forall e: nat | e != c :: OutOf(k, e) == OutOf(h, e);
    assert OutOf(k, c) == [];
    forall i, j | 0 <= i < j < |k.returned| ensures k.returned[i] != k.returned[j] {
      if i < |h.returned| <= j {
        assert h.returned[i] in h.returned && out[j - |h.returned|] in out;
      }
    }
  }

  lemma NewDelivery<P>(parse: Parser<P>, s: State<P>, c: nat)
    requires Inv(parse, s) && PhaseOf(s, c).Holding? && PhaseOf(s, c).name in s.disk.inbox
    ensures Delivery(c, PhaseOf(s, c).name, PhaseOf(s, c).payload) !in s.delivered
  {
    var p := PhaseOf(s, c);
    HeldName(parse, s, c);
    hide AllKept, OnlySent, Sorted, WritersGood, ConsumersGood;
    assert forall d | d in s.delivered :: IsArchived(parse, s.disk.archive, d);
  }

  lemma StepHands<P>(parse: Parser<P>, s: State<P>, h: Hands<P>, step: Step)
    requires Inv(parse, s) && Enabled(s, step) && InHand(s, h)
    ensures InHand(After(parse, s, step), Observe(s, h, step))
  {
    hide Inv, InHand, OutOf, Skipped, Without;
    var t := After(parse, s, step);
    match step
    case List(c, _) => ListHands(s, t, h, c);
    case MoveToArchive(c) =>
      var p := PhaseOf(s, c);
      if p.name in s.disk.inbox {
        NewDelivery(parse, s, c);
        ArchiveHands(s, t, h, Delivery(c, p.name, p.payload));
      } else {
        QuietHands(s, t, h);
      }
    case Return(c) => ReturnHands(s, t, h, c);
    case _ => QuietHands(s, t, h);
  }

  lemma {:induction false} RunHands<P>(parse: Parser<P>, s: State<P>, h: Hands<P>, steps: seq<Step>)
    requires Inv(parse, s) && InHand(s, h) && IsRun(parse, s, steps)
    ensures InHand(AfterRun(parse, s, steps), HandsAfter(parse, s, h, steps))
    decreases |steps|
  {
    hide Inv, InHand, Enabled, After, Observe;
    if steps != [] {
      StepHands(parse, s, h, steps[0]);
      StepInv(parse, s, steps[0]);
      RunHands(parse, After(parse, s, steps[0]), Observe(s, h, steps[0]), steps[1..]);
    }
  }

  ghost predicate ReachedWith<P>(parse: Parser<P>, steps: seq<Step>, s: State<P>, h: Hands<P>) {
    Reached(parse, steps, s) && h == HandsAfter(parse, Start<P>(), Empty<P>(), steps)
  }

  lemma ReachedHands<P>(parse: Parser<P>, steps: seq<Step>, s: State<P>, h: Hands<P>)
    requires ReachedWith(parse, steps, s, h)
    ensures Inv(parse, s) && InHand(s, h)
  {
    hide Inv;
    StartInv(parse);
    ReachedInv(parse, steps, s);
    RunHands(parse, Start<P>(), Empty<P>(), steps);
  }

  /** In every reachable state: callers have got no message twice and none that was not archived;
      and a message archived has been returned unless its consumer still has it, which is so only
      while that consumer's call is under way or after it has raised. */
  lemma HandedOver<P>(parse: Parser<P>, steps: seq<Step>, s: State<P>, h: Hands<P>, d: Delivery<P>)
    requires ReachedWith(parse, steps, s, h)
    ensures NoRepeats(h.returned) && (d in h.returned ==> d in s.delivered)
    ensures d in s.delivered ==> (d in h.returned <==> d !in OutOf(h, d.consumer))
    ensures d in s.delivered && PhaseOf(s, d.consumer).Idle? ==> d in h.returned
  {
    hide Inv, NoRepeats;
    ReachedHands(parse, steps, s, h);
  }

  // ---- Calls that raise ---------------------------------------------------------------------

  lemma StepRaised<P>(parse: Parser<P>, s: State<P>, h: Hands<P>, step: Step, c: nat)
    requires Enabled(s, step) && PhaseOf(s, c).Raised?
    ensures PhaseOf(After(parse, s, step), c).Raised? && OutOf(Observe(s, h, step), c) == OutOf(h, c)
    ensures forall d | d in s.delivered :: d in After(parse, s, step).delivered
  {
    hide Skipped, Without;
  }

  lemma {:induction false} RunRaised<P>(parse: Parser<P>, s: State<P>, h: Hands<P>, steps: seq<Step>, c: nat)
    requires IsRun(parse, s, steps) && PhaseOf(s, c).Raised?
    ensures OutOf(HandsAfter(parse, s, h, steps), c) == OutOf(h, c)
    ensures forall d | d in s.delivered :: d in AfterRun(parse, s, steps).delivered
    decreases |steps|
  {
    hide Enabled, After, Observe, OutOf, PhaseOf;
    if steps != [] {
      StepRaised(parse, s, h, steps[0], c);
      RunRaised(parse, After(parse, s, steps[0]), Observe(s, h, steps[0]), steps[1..], c);
    }
  }

  lemma {:induction false} HandsConcat<P>(parse: Parser<P>, s: State<P>, h: Hands<P>, a: seq<Step>, b: seq<Step>)
    requires IsRun(parse, s, a) && IsRun(parse, AfterRun(parse, s, a), b)
    ensures IsRun(parse, s, a + b)
    ensures HandsAfter(parse, s, h, a + b) == HandsAfter(parse, AfterRun(parse, s, a), HandsAfter(parse, s, h, a), b)
    decreases |a|
  {
    hide Enabled, After, Observe;
    RunConcat(parse, s, a, b);
    if a == [] {
      assert a + b == b;
    } else {
      assert (a + b)[0] == a[0] && (a + b)[1..] == a[1..] + b;
      HandsConcat(parse, After(parse, s, a[0]), Observe(s, h, a[0]), a[1..], b);
    }
  }

  /** What a call had collected when it raised is never returned to anyone: however the run goes
      on, the messages stay archived, delivered and unreturned. */
  lemma RaisedNeverReturns<P>(
      parse: Parser<P>, steps: seq<Step>, s: State<P>, h: Hands<P>, more: seq<Step>, d: Delivery<P>)
    requires ReachedWith(parse, steps, s, h) && IsRun(parse, s, more)
    requires PhaseOf(s, d.consumer).Raised? && d in OutOf(h, d.consumer)
    ensures IsRun(parse, Start<P>(), steps + more)
    ensures var t, k := AfterRun(parse, Start<P>(), steps + more), HandsAfter(parse, Start<P>(), Empty<P>(), steps + more);
      d in t.delivered && d.name in t.disk.archive && d !in k.returned
  {
    hide Inv, OutOf, IsRun, AfterRun, HandsAfter, NoRepeats;
    ReachedHands(parse, steps, s, h);
    RunConcat(parse, Start<P>(), steps, more);
    HandsConcat(parse, Start<P>(), Empty<P>(), steps, more);
    RunRaised(parse, s, h, more, d.consumer);
    var t := AfterRun(parse, Start<P>(), steps + more);
    ReachedHands(parse, steps + more, t, HandsAfter(parse, Start<P>(), Empty<P>(), steps + more));
    DeliveredArchived(parse, t, d);
  }

  lemma DeliveredArchived<P>(parse: Parser<P>, s: State<P>, d: Delivery<P>)
    requires Inv(parse, s) && d in s.delivered
    ensures d.name in s.disk.archive
  {
    hide AllKept, OnlySent, Sorted, WritersGood, ConsumersGood;
    assert IsArchived(parse, s.disk.archive, d);
  }

  // ---- Nobody raises over text that decodes -------------------------------------------------

  ghost predicate SomeChoke<P>(parse: Parser<P>, s: State<P>) {
    exists name :: name in s.sent && parse(s.sent[name]).Undecodable?
  }

  ghost predicate RaisedForCause<P>(parse: Parser<P>, s: State<P>) {
    forall c: nat | PhaseOf(s, c).Raised? :: SomeChoke(parse, s)
  }

  lemma SentStays<P>(parse: Parser<P>, s: State<P>, step: Step, name: string)
    requires WritersGood(s) && Enabled(s, step) && name in s.sent
    ensures var t := After(parse, s, step); name in t.sent && t.sent[name] == s.sent[name]
  {
    hide Skipped, Without, Suffix;
    if step.Publish? { assert WriterGood(s, step.w); }
  }

  /** Only a read raises, and only over a published text. */
  lemma ReadChokes<P>(parse: Parser<P>, s: State<P>, step: Step, c: nat)
    requires Inv(parse, s) && Enabled(s, step) && !PhaseOf(s, c).Raised? && PhaseOf(After(parse, s, step), c).Raised?
    ensures SomeChoke(parse, s)
  {
    hide Sorted, DeliveredOnce, Skipped, Without, OnlySent, WritersGood;
    assert step.Read? && step.c == c;
    var p := PhaseOf(s, c);
    assert PhaseGood(parse, s, p);
    assert Kept(s.disk, p.name, s.sent[p.name]);
  }

  lemma StepCause<P>(parse: Parser<P>, s: State<P>, step: Step)
    requires Inv(parse, s) && Enabled(s, step) && RaisedForCause(parse, s)
    ensures RaisedForCause(parse, After(parse, s, step))
  {
    hide AllKept, OnlySent, Sorted, WritersGood, ConsumersGood, DeliveredOnce, After, Enabled, PhaseOf;
    forall c: nat | PhaseOf(After(parse, s, step), c).Raised? ensures SomeChoke(parse, After(parse, s, step)) {
      if !PhaseOf(s, c).Raised? { ReadChokes(parse, s, step, c); }
      var name :| name in s.sent && parse(s.sent[name]).Undecodable?;
      SentStays(parse, s, step, name);
    }
  }

  lemma {:induction false} RunCause<P>(parse: Parser<P>, s: State<P>, steps: seq<Step>)
    requires Inv(parse, s) && IsRun(parse, s, steps) && RaisedForCause(parse, s)
    ensures RaisedForCause(parse, AfterRun(parse, s, steps))
    decreases |steps|
  {
    hide Inv, Enabled, After, RaisedForCause;
    if steps != [] {
      StepCause(parse, s, steps[0]);
      StepInv(parse, s, steps[0]);
      RunCause(parse, After(parse, s, steps[0]), steps[1..]);
    }
  }

  /** A call raises only where some published text does not decode. */
  lemma RaisesForCause<P>(parse: Parser<P>, steps: seq<Step>, s: State<P>, c: nat)
    requires Reached(parse, steps, s) && PhaseOf(s, c).Raised?
    ensures SomeChoke(parse, s)
  {
    hide Inv;
    StartInv(parse);
    RunCause(parse, Start<P>(), steps);
  }

  /** End to end, with a reader that inverts the writers' encoding: no call raises, so a message is
      handed to a caller once it is archived and its consumer's call has ended. */
  lemma WritesAreHandedOver<P>(
      parse: Parser<P>, dumps: P -> string, steps: seq<Step>, s: State<P>, h: Hands<P>, d: Delivery<P>)
    requires ReachedWith(parse, steps, s, h)
    requires forall p: P :: parse(dumps(p)) == Message(p)
    requires forall i | 0 <= i < |steps| && steps[i].BeginWrite? :: exists p: P :: steps[i].data == dumps(p)
    ensures forall c: nat :: !PhaseOf(s, c).Raised?
    ensures d in s.delivered && PhaseOf(s, d.consumer).Idle? ==> d in h.returned
    ensures d in h.returned ==> Began(steps, d.name, dumps(d.payload))
  {
    hide Inv, NoRepeats;
    HandedOver(parse, steps, s, h, d);
    DeliveriesAreWrites(parse, dumps, steps, s);
    AllDecode(parse, dumps, steps, s);
    forall c: nat ensures !PhaseOf(s, c).Raised? {
      if PhaseOf(s, c).Raised? { RaisesForCause(parse, steps, s, c); }
    }
  }

  lemma AllDecode<P>(parse: Parser<P>, dumps: P -> string, steps: seq<Step>, s: State<P>)
    requires Reached(parse, steps, s)
    requires forall p: P :: parse(dumps(p)) == Message(p)
    requires forall i | 0 <= i < |steps| && steps[i].BeginWrite? :: exists p: P :: steps[i].data == dumps(p)
    ensures !SomeChoke(parse, s)
  {
    hide Inv;
    assert AllBegan([], Start<P>());
    RunBegan(parse, [], Start<P>(), steps);
    assert [] + steps == steps;
    forall name | name in s.sent ensures !parse(s.sent[name]).Undecodable? { SentEncodes(parse, dumps, steps, s, name); }
  }
}
