/** The watcher as the object it is: one undisturbed poll is a run of the protocol's steps. */
module WatcherLoop {
  import opened Watcher

  ghost predicate OnlyWatcher(steps: seq<Step>) { forall i | 0 <= i < |steps| :: !steps[i].Write? }

  /** From one state to another by the watcher's own steps. */
  ghost predicate Polls<P>(read: Reader<P>, s: State<P>, t: State<P>) {
    exists steps :: OnlyWatcher(steps) && IsRun(read, s, steps) && AfterRun(read, s, steps) == t
  }

  lemma PollsOn<P>(read: Reader<P>, s: State<P>, t: State<P>, step: Step)
    requires Polls(read, s, t) && Enabled(t, step) && !step.Write?
    ensures Polls(read, s, After(read, t, step))
  {
    hide Enabled, After;
    var steps :| OnlyWatcher(steps) && IsRun(read, s, steps) && AfterRun(read, s, steps) == t;
    assert [step][1..] == [];
    RunConcat(read, s, steps, [step]);
    assert OnlyWatcher(steps + [step]);
  }

  lemma PollsNone<P>(read: Reader<P>, s: State<P>)
    ensures Polls(read, s, s)
  {
    assert OnlyWatcher([]) && IsRun(read, s, []) && AfterRun(read, s, []) == s;
  }

  class IpcWatcher<P> {
    var handoffs: map<string, string>
    var audit: map<string, string>
    var malformed: map<string, string>
    /** What `on_handoff` has been called with. */
    var dispatched: seq<Dispatch<P>>
    ghost var phase: Phase<P>
    ghost var written: seq<(string, string)>
    ghost var handled: seq<Taken>

    ghost function View(): State<P>
      reads this
    {
      State(Disk(handoffs, audit, malformed), phase, written, handled, dispatched)
    }

    constructor ()
      ensures View() == Start()
    {
      handoffs, audit, malformed, dispatched := map[], map[], map[], [];
      phase, written, handled := Idle, [], [];
    }

    /** A rename into the quarantine. */
    method MoveAway(half: string, ghost how: How, place: string)
      requires half in handoffs
      modifies this
      ensures View() == Quarantine(old(View()), half, how, place)
    {
      handled := handled + [Taken(half, handoffs[half], how, place)];
      malformed := malformed[place := handoffs[half]];
      handoffs := Without(handoffs, half);
    }

    /** The fail-closed branch: one rename after the other. */
    method SweepAll(read: Reader<P>, halves: seq<string>, clock: nat -> string)
      requires phase == Sweeping(halves) && Distinct(halves) && forall h | h in halves :: h in handoffs
      requires forall i :: Digits(clock(i))
      modifies this
      ensures Polls(read, old(View()), View()) && phase.Idle? && dispatched == old(dispatched) && audit == old(audit)
      ensures forall h | h in old(handoffs) :: h in handoffs <==> h !in halves
      ensures forall h | h in handoffs :: h in old(handoffs)
    {
      hide SweptName, Polls, Enabled, After;
      PollsNone(read, View());
      for i := 0 to |halves|
        invariant phase == Sweeping(halves[i..]) && Polls(read, old(View()), View())
        invariant dispatched == old(dispatched) && audit == old(audit)
        invariant forall h | h in old(handoffs) :: h in handoffs <==> h !in halves[..i]
        invariant forall h | h in handoffs :: h in old(handoffs)
      {
        Unswept(halves, i);
        ghost var before := View();
        SweepStepIs(read, before, clock(i));
        MoveAway(halves[i], Swept, SweptName(clock(i), halves[i]));
        phase := Sweeping(halves[i..][1..]);
        assert halves[..i + 1] == halves[..i] + [halves[i]] && halves[i..][1..] == halves[i + 1..];
        PollsOn(read, old(View()), before, Sweep(clock(i)));
      }
      assert halves[..|halves|] == halves;
      ghost var before := View();
      SweepStepIs(read, before, clock(0));
      phase := Idle;
      PollsOn(read, old(View()), before, Sweep(clock(0)));
    }

    /** One undisturbed poll. It takes every handoff there is; a single readable one is archived
        first and then dispatched, and nothing else ever is. */
    method ProcessHandoffs(read: Reader<P>, listing: seq<string>, second: string, clock: nat -> string)
      requires Stamp(second) && phase.Idle? && Distinct(listing) && forall h :: h in listing <==> h in handoffs
      requires forall i :: Digits(clock(i))
      modifies this
      ensures Polls(read, old(View()), View()) && phase.Idle? && handoffs == map[]
      ensures |listing| == 1 && read(old(handoffs)[listing[0]]).Some? ==>
        var half, text, name := listing[0], old(handoffs)[listing[0]], second + "_" + listing[0] + "_handoff.json";
        && dispatched == old(dispatched) + [Dispatch(half, read(text).value, second, name, text)]
        && audit == old(audit)[name := text] && malformed == old(malformed)
      ensures |listing| == 1 && read(old(handoffs)[listing[0]]).None? ==>
        malformed == old(malformed)["handoff_to_" + listing[0] + ".json" := old(handoffs)[listing[0]]]
      ensures !(|listing| == 1 && read(old(handoffs)[listing[0]]).Some?) ==>
        dispatched == old(dispatched) && audit == old(audit)
    {
      hide Polls, Enabled, After, Distinct, Stamp;
      ghost var s0 := View();
      PollsNone(read, s0);
      ListingIs(read, s0, listing);
      PollsOn(read, s0, s0, List(listing));
      phase := AfterListing(listing);
      if listing == [] {
        return;
      }
      if |listing| > 1 {
        ghost var s1 := View();
        SweepAll(read, listing, clock);
        PollsPolls(read, s0, s1, View());
        return;
      }
      var half := listing[0];
      assert half in listing && forall h | h in handoffs :: h == half;
      ghost var s1 := View();
      SingleSteps(read, s1, second);
      PollsOn(read, s0, s1, Load);
      var text := handoffs[half];
      var payload := read(text);
      if payload.None? {
        phase := Refused(half);
        ghost var s2 := View();
        SingleSteps(read, s2, second);
        MoveAway(half, Unreadable, FileName(half));
        phase := Idle;
        PollsOn(read, s0, s2, Discard);
        return;
      }
      phase := Loaded(half, text, payload.value);
      ghost var s2 := View();
      SingleSteps(read, s2, second);
      PollsOn(read, s0, s2, Archive(second));
      audit := audit[AuditName(second, half) := text];
      handoffs := Without(handoffs, half);
      handled := handled + [Taken(half, text, Archived, AuditName(second, half))];
      phase := Idle;
      dispatched := dispatched + [Dispatch(half, payload.value, second, AuditName(second, half), text)];
    }
  }

  lemma ListingIs<P>(read: Reader<P>, s: State<P>, halves: seq<string>)
    requires s.phase.Idle? && Distinct(halves) && forall h | h in halves :: h in s.disk.handoffs
    ensures Enabled(s, List(halves)) && After(read, s, List(halves)) == s.(phase := AfterListing(halves))
  {}

  /** The steps after a listing of one file that is still there. */
  lemma SingleSteps<P>(read: Reader<P>, s: State<P>, second: string)
    requires s.phase.Listed? || s.phase.Refused? || s.phase.Loaded?
    requires s.phase.half in s.disk.handoffs && Stamp(second)
    ensures s.phase.Listed? ==> Enabled(s, Load) && After(read, s, Load) == Loading(read, s)
    ensures s.phase.Refused? ==> Enabled(s, Discard)
    ensures s.phase.Refused? ==>
      After(read, s, Discard) == Quarantine(s, s.phase.half, Unreadable, FileName(s.phase.half)).(phase := Idle)
    ensures s.phase.Loaded? ==> Enabled(s, Archive(second)) && After(read, s, Archive(second)) == Archiving(s, second)
  {}

  function Loading<P>(read: Reader<P>, s: State<P>): State<P>
    requires s.phase.Listed? && s.phase.half in s.disk.handoffs
  {
    var half, text := s.phase.half, s.disk.handoffs[s.phase.half];
    s.(phase := if read(text).Some? then Loaded(half, text, read(text).value) else Refused(half))
  }

  function Archiving<P>(s: State<P>, second: string): State<P>
    requires s.phase.Loaded? && s.phase.half in s.disk.handoffs
  {
    var half, text, name := s.phase.half, s.disk.handoffs[s.phase.half], AuditName(second, s.phase.half);
    s.(phase := Idle, handled := s.handled + [Taken(half, text, Archived, name)],
       disk := s.disk.(handoffs := Without(s.disk.handoffs, half), audit := s.disk.audit[name := text]),
       dispatched := s.dispatched + [Dispatch(half, s.phase.payload, second, name, text)])
  }

  lemma {:induction false} RunConcat<P>(read: Reader<P>, s: State<P>, a: seq<Step>, b: seq<Step>)
    requires IsRun(read, s, a) && IsRun(read, AfterRun(read, s, a), b)
    ensures IsRun(read, s, a + b) && AfterRun(read, s, a + b) == AfterRun(read, AfterRun(read, s, a), b)
    decreases |a|
  {
    hide Enabled, After;
    if a == [] {
      assert a + b == b;
    } else {
      assert (a + b)[0] == a[0] && (a + b)[1..] == a[1..] + b;
      RunConcat(read, After(read, s, a[0]), a[1..], b);
    }
  }

  lemma PollsPolls<P>(read: Reader<P>, s: State<P>, t: State<P>, u: State<P>)
    requires Polls(read, s, t) && Polls(read, t, u)
    ensures Polls(read, s, u)
  {
    hide Enabled, After, IsRun, AfterRun;
    var a :| OnlyWatcher(a) && IsRun(read, s, a) && AfterRun(read, s, a) == t;
    var b :| OnlyWatcher(b) && IsRun(read, t, b) && AfterRun(read, t, b) == u;
    RunConcat(read, s, a, b);
    assert OnlyWatcher(a + b);
  }

  lemma Unswept(halves: seq<string>, i: nat)
    requires Distinct(halves) && i < |halves|
    ensures halves[i] in halves && halves[i] !in halves[..i] && halves[i..][0] == halves[i]
  {}

  lemma SweepStepIs<P>(read: Reader<P>, s: State<P>, millis: string)
    requires s.phase.Sweeping? && Digits(millis)
    ensures Enabled(s, Sweep(millis))
    ensures After(read, s, Sweep(millis)) ==
      if s.phase.rest == [] then s.(phase := Idle)
      else Quarantine(s, s.phase.rest[0], Swept, SweptName(millis, s.phase.rest[0])).(phase := Sweeping(s.phase.rest[1..]))
  {}
}
