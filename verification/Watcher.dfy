/** Handoff files of one session: writers put them under `ipc/`, one watcher lists them, moves each
    to the audit log and dispatches it. A writer may step in between any two of the watcher's calls. */
module Watcher {
  import opened Wrappers

  /** The JSON reader; `None` is text it refuses. */
  type Reader<!P> = string -> Option<P>

  /** `ipc/handoff_to_<half>.json` by half, the audit log and the quarantine by file name. */
  datatype Disk = Disk(handoffs: map<string, string>, audit: map<string, string>, malformed: map<string, string>)

  /** Where the watcher stands: it has listed exactly one file, read it, failed to read it, or is
      moving the several files it listed out of the way. */
  datatype Phase<P> =
    | Idle
    | Listed(half: string)
    | Loaded(half: string, text: string, payload: P)
    | Refused(half: string)
    | Sweeping(rest: seq<string>)

  /** What `on_handoff` was called with, the second and the name of the audit record made for it,
      and what the rename that made the record really moved. */
  datatype Dispatch<P> = Dispatch(half: string, payload: P, second: string, audited: string, moved: string)

  datatype How = Archived | Unreadable | Swept

  /** A file the watcher took from `ipc/`: its text at the rename, why, and the name it went to. */
  datatype Taken = Taken(half: string, text: string, how: How, place: string)

  /** `written` and `handled` are the histories of handoffs put under `ipc/` and taken from it. */
  datatype State<P> = State(
    disk: Disk, phase: Phase<P>, written: seq<(string, string)>, handled: seq<Taken>, dispatched: seq<Dispatch<P>>)

  /** Times are the second that names audit files and the milliseconds that name swept ones. */
  datatype Step =
    | Write(half: string, text: string)
    | List(halves: seq<string>)
    | Load
    | Discard
    | Sweep(millis: string)
    | Archive(second: string)

  predicate Digits(s: string) { forall i | 0 <= i < |s| :: '0' <= s[i] <= '9' }

  /** A time down to the second, in a format without underscores. */
  predicate Stamp(second: string) { forall i | 0 <= i < |second| :: second[i] != '_' }

  ghost predicate Distinct(halves: seq<string>) { forall i, j | 0 <= i < j < |halves| :: halves[i] != halves[j] }

  /** A listing may miss files that appear while it is made; those it saw are there at its end,
      since only the watcher takes any away. */
  ghost predicate Enabled<P>(s: State<P>, step: Step) {
    match step
    case Write(_, _) => true
    case List(halves) => s.phase.Idle? && Distinct(halves) && forall h | h in halves :: h in s.disk.handoffs
    case Load => s.phase.Listed?
    case Discard => s.phase.Refused?
    case Sweep(millis) => s.phase.Sweeping? && Digits(millis)
    case Archive(second) => s.phase.Loaded? && Stamp(second)
  }

  function FileName(half: string): string { "handoff_to_" + half + ".json" }

  function AuditName(second: string, half: string): string { second + "_" + half + "_handoff.json" }

  function SweptName(millis: string, half: string): string { millis + "_" + FileName(half) }

  function Without(m: map<string, string>, half: string): map<string, string> { map h | h in m && h != half :: m[h] }

  /** A rename out of `ipc/` into the quarantine; a file that is gone is passed over. */
  function Quarantine<P>(s: State<P>, half: string, how: How, place: string): State<P> {
    if half !in s.disk.handoffs then s
    else
      var text := s.disk.handoffs[half];
      s.(handled := s.handled + [Taken(half, text, how, place)],
         disk := s.disk.(handoffs := Without(s.disk.handoffs, half), malformed := s.disk.malformed[place := text]))
  }

  function AfterListing<P>(halves: seq<string>): Phase<P> {
    if halves == [] then Idle else if |halves| == 1 then Listed(halves[0]) else Sweeping(halves)
  }

  function After<P>(read: Reader<P>, s: State<P>, step: Step): State<P>
    requires Enabled(s, step)
  {
    match step
    case Write(half, text) =>
      s.(disk := s.disk.(handoffs := s.disk.handoffs[half := text]), written := s.written + [(half, text)])
    case List(halves) => s.(phase := AfterListing(halves))
    case Load =>
      var half := s.phase.half;
      if half in s.disk.handoffs && read(s.disk.handoffs[half]).Some? then
        s.(phase := Loaded(half, s.disk.handoffs[half], read(s.disk.handoffs[half]).value))
      else s.(phase := Refused(half))
    case Discard => Quarantine(s, s.phase.half, Unreadable, FileName(s.phase.half)).(phase := Idle)
    case Sweep(millis) =>
      var rest := s.phase.rest;
      if rest == [] then s.(phase := Idle)
      else Quarantine(s, rest[0], Swept, SweptName(millis, rest[0])).(phase := Sweeping(rest[1..]))
    case Archive(second) =>
      var p := s.phase;
      if p.half !in s.disk.handoffs then s.(phase := Idle)
      else
        var name, text := AuditName(second, p.half), s.disk.handoffs[p.half];
        s.(phase := Idle,
           disk := s.disk.(handoffs := Without(s.disk.handoffs, p.half), audit := s.disk.audit[name := text]),
           handled := s.handled + [Taken(p.half, text, Archived, name)],
           dispatched := s.dispatched + [Dispatch(p.half, p.payload, second, name, text)])
  }

  function Start<P>(): State<P> { State(Disk(map[], map[], map[]), Idle, [], [], []) }

  ghost predicate IsRun<P>(read: Reader<P>, s: State<P>, steps: seq<Step>)
    decreases |steps|
  {
    steps == [] || (Enabled(s, steps[0]) && IsRun(read, After(read, s, steps[0]), steps[1..]))
  }

  ghost function AfterRun<P>(read: Reader<P>, s: State<P>, steps: seq<Step>): State<P>
    requires IsRun(read, s, steps)
    decreases |steps|
  {
    if steps == [] then s else AfterRun(read, After(read, s, steps[0]), steps[1..])
  }

  // ---- Conservation -------------------------------------------------------------------------

  /** A write over a handoff to the same half that is still there. */
  predicate Overwrites<P>(s: State<P>, step: Step) { step.Write? && step.half in s.disk.handoffs }

  /** Every writer finds its half free: something it can look up before it writes. */
  ghost predicate NeverOverwrites<P>(read: Reader<P>, s: State<P>, steps: seq<Step>)
    requires IsRun(read, s, steps)
    decreases |steps|
  {
    steps != [] ==> !Overwrites(s, steps[0]) && NeverOverwrites(read, After(read, s, steps[0]), steps[1..])
  }

  ghost function Lost<P>(read: Reader<P>, s: State<P>, steps: seq<Step>): nat
    requires IsRun(read, s, steps)
    decreases |steps|
  {
    if steps == [] then 0
    else (if Overwrites(s, steps[0]) then 1 else 0) + Lost(read, After(read, s, steps[0]), steps[1..])
  }

  function PairsOf(handled: seq<Taken>): (r: seq<(string, string)>)
    ensures |r| == |handled|
  {
    seq(|handled|, i requires 0 <= i < |handled| => (handled[i].half, handled[i].text))
  }

  /** What is still under `ipc/`. */
  ghost function Visible(handoffs: map<string, string>): multiset<(string, string)> { multiset(Pairs(handoffs)) }

  ghost function Pairs(m: map<string, string>): set<(string, string)> { set half | half in m :: (half, m[half]) }

  lemma InPairs(m: map<string, string>, p: (string, string))
    ensures p in Pairs(m) <==> p.0 in m && m[p.0] == p.1
  {
    if p.0 in m && m[p.0] == p.1 { assert p == (p.0, m[p.0]); }
  }

  /** Every handoff written has been taken once, as it was written, or is still there. */
  ghost predicate Conserved<P>(s: State<P>) {
    multiset(s.written) == multiset(PairsOf(s.handled)) + Visible(s.disk.handoffs)
  }

  lemma PairsNext(handled: seq<Taken>, t: Taken)
    ensures PairsOf(handled + [t]) == PairsOf(handled) + [(t.half, t.text)]
  {}

  lemma VisibleAdd(m: map<string, string>, half: string, text: string)
    requires half !in m
    ensures Visible(m[half := text]) == Visible(m) + multiset{(half, text)}
  {
    hide Pairs;
    var t := m[half := text];
    forall p ensures p in Pairs(t) <==> p in Pairs(m) + {(half, text)} {
      InPairs(m, p);
      InPairs(t, p);
    }
    assert Pairs(t) == Pairs(m) + {(half, text)};
    InPairs(m, (half, text));
  }

  lemma VisibleTake(m: map<string, string>, half: string)
    requires half in m
    ensures Visible(m) == Visible(Without(m, half)) + multiset{(half, m[half])}
  {
    var w := Without(m, half);
    assert w[half := m[half]] == m;
    VisibleAdd(w, half, m[half]);
  }

  lemma {:induction false} VisibleSize(m: map<string, string>)
    ensures |Visible(m)| == |m|
    decreases |m|
  {
    if m == map[] {
      assert Visible(m) == multiset{};
    } else {
      var half :| half in m;
      VisibleTake(m, half);
      assert Without(m, half).Keys == m.Keys - {half};
      assert |Without(m, half)| == |m| - 1;
      VisibleSize(Without(m, half));
    }
  }

  lemma SizeReplaced(m: map<string, string>, half: string, text: string)
    requires half in m
    ensures |m[half := text]| == |m|
  {
    assert m[half := text].Keys == m.Keys;
  }

  /** A rename out of `ipc/` moves one pair from what is visible to what is handled. */
  ghost predicate Takes<P>(s: State<P>, t: State<P>, half: string) {
    && half in s.disk.handoffs && t.disk.handoffs == Without(s.disk.handoffs, half) && t.written == s.written
    && |t.handled| == |s.handled| + 1 && t.handled[..|s.handled|] == s.handled
    && (t.handled[|s.handled|].half, t.handled[|s.handled|].text) == (half, s.disk.handoffs[half])
  }

  lemma TakesConserves<P>(s: State<P>, t: State<P>, half: string)
    requires Takes(s, t, half)
    ensures multiset(PairsOf(t.handled)) + Visible(t.disk.handoffs) == multiset(PairsOf(s.handled)) + Visible(s.disk.handoffs)
    ensures |t.handled| + |t.disk.handoffs| == |s.handled| + |s.disk.handoffs|
  {
    var n := |s.handled|;
    assert t.handled == s.handled + [t.handled[n]];
    PairsNext(s.handled, t.handled[n]);
    VisibleTake(s.disk.handoffs, half);
    VisibleSize(s.disk.handoffs);
    VisibleSize(t.disk.handoffs);
  }

  /** A step of the watcher takes one file or none. */
  lemma WatcherTakes<P>(read: Reader<P>, s: State<P>, step: Step)
    requires Enabled(s, step) && !step.Write?
    ensures var t := After(read, s, step);
      || Takes(s, t, if step.Sweep? && s.phase.rest != [] then s.phase.rest[0] else if s.phase.Sweeping? || s.phase.Idle? then "" else s.phase.half)
      || (t.disk.handoffs == s.disk.handoffs && t.handled == s.handled && t.written == s.written)
  {
    hide AuditName, SweptName, FileName;
  }

  lemma StepCount<P>(read: Reader<P>, s: State<P>, step: Step)
    requires Enabled(s, step)
    ensures var t := After(read, s, step);
      && |t.written| - |t.handled| - |t.disk.handoffs| ==
           |s.written| - |s.handled| - |s.disk.handoffs| + (if Overwrites(s, step) then 1 else 0)
      && (!Overwrites(s, step) && Conserved(s) ==> Conserved(t))
  {
    hide PairsOf, Visible, Takes;
    var t := After(read, s, step);
    if step.Write? {
      if Overwrites(s, step) {
        SizeReplaced(s.disk.handoffs, step.half, step.text);
      } else {
        VisibleAdd(s.disk.handoffs, step.half, step.text);
        VisibleSize(s.disk.handoffs);
        VisibleSize(t.disk.handoffs);
      }
    } else {
      hide After;
      WatcherTakes(read, s, step);
      if half :| Takes(s, t, half) { TakesConserves(s, t, half); TakesWritten(s, t, half); }
    }
  }

  lemma TakesWritten<P>(s: State<P>, t: State<P>, half: string)
    requires Takes(s, t, half)
    ensures t.written == s.written
  {}

  lemma {:induction false} RunCount<P>(read: Reader<P>, s: State<P>, steps: seq<Step>)
    requires IsRun(read, s, steps)
    ensures var t := AfterRun(read, s, steps);
      && |t.written| - |t.handled| - |t.disk.handoffs| ==
           |s.written| - |s.handled| - |s.disk.handoffs| + Lost(read, s, steps)
      && (NeverOverwrites(read, s, steps) && Conserved(s) ==> Conserved(t))
      && (NeverOverwrites(read, s, steps) <==> Lost(read, s, steps) == 0)
    decreases |steps|
  {
    hide Conserved, Overwrites, After, Enabled;
    if steps != [] {
      StepCount(read, s, steps[0]);
      RunCount(read, After(read, s, steps[0]), steps[1..]);
    }
  }

  lemma ConservedCount<P>(s: State<P>)
    requires Conserved(s)
    ensures |s.written| == |s.handled| + |s.disk.handoffs|
  {
    VisibleSize(s.disk.handoffs);
    assert |multiset(s.written)| == |s.written| && |multiset(PairsOf(s.handled))| == |s.handled|;
  }

  /** Over every interleaving: each handoff written is taken exactly once, with the text that was
      written, or is still there, if and only if no writer wrote over a handoff still there. */
  lemma HandoffsConserved<P>(read: Reader<P>, steps: seq<Step>)
    requires IsRun(read, Start<P>(), steps)
    ensures Conserved(AfterRun(read, Start<P>(), steps)) <==> NeverOverwrites(read, Start<P>(), steps)
  {
    hide IsRun, AfterRun, NeverOverwrites, Lost, Conserved;
    var s, t := Start<P>(), AfterRun(read, Start<P>(), steps);
    NothingYet<P>();
    RunCount(read, s, steps);
    if Conserved(t) { ConservedCount(t); }
  }

  lemma NothingYet<P>()
    ensures Conserved(Start<P>())
  {
  }

  // ---- Without overwriting, each dispatch is a handoff as it was written --------------------

  function Sent<P>(dispatched: seq<Dispatch<P>>): (r: seq<(string, Option<P>)>)
    ensures |r| == |dispatched|
  {
    seq(|dispatched|, i requires 0 <= i < |dispatched| => (dispatched[i].half, Some(dispatched[i].payload)))
  }

  /** The archived handoffs, read. */
  function Readings<P>(read: Reader<P>, handled: seq<Taken>): seq<(string, Option<P>)> {
    if handled == [] then []
    else
      var n := |handled| - 1;
      var before := Readings(read, handled[..n]);
      if handled[n].how.Archived? then before + [(handled[n].half, read(handled[n].text))] else before
  }

  /** The file the watcher has looked at is still the one it looked at. */
  ghost predicate Steady<P>(read: Reader<P>, s: State<P>) {
    match s.phase
    case Loaded(half, text, payload) =>
      half in s.disk.handoffs && s.disk.handoffs[half] == text && read(text) == Some(payload)
    case Refused(half) => half in s.disk.handoffs && read(s.disk.handoffs[half]).None?
    case Listed(half) => half in s.disk.handoffs
    case _ => true
  }

  ghost predicate Whole<P>(read: Reader<P>, s: State<P>) {
    && Sent(s.dispatched) == Readings(read, s.handled)
    && (forall t | t in s.handled && t.how.Unreadable? :: read(t.text).None?)
    && (forall d | d in s.dispatched :: read(d.moved) == Some(d.payload))
  }

  lemma ReadingsNext<P>(read: Reader<P>, handled: seq<Taken>, t: Taken)
    ensures Readings(read, handled + [t]) ==
      Readings(read, handled) + if t.how.Archived? then [(t.half, read(t.text))] else []
  {
    assert (handled + [t])[..|handled|] == handled;
  }

  lemma SentNext<P>(dispatched: seq<Dispatch<P>>, d: Dispatch<P>)
    ensures Sent(dispatched + [d]) == Sent(dispatched) + [(d.half, Some(d.payload))]
  {}

  lemma StepSteady<P>(read: Reader<P>, s: State<P>, step: Step)
    requires Enabled(s, step) && Steady(read, s) && !Overwrites(s, step)
    ensures Steady(read, After(read, s, step))
  {
    hide AuditName, SweptName, FileName;
  }

  lemma StepWhole<P>(read: Reader<P>, s: State<P>, step: Step)
    requires Enabled(s, step) && Steady(read, s) && Whole(read, s)
    ensures Whole(read, After(read, s, step))
  {
    hide AuditName, SweptName, FileName, Sent, Readings;
    var t := After(read, s, step);
    if |t.handled| > |s.handled| {
      var x := t.handled[|s.handled|];
      ReadingsNext(read, s.handled, x);
      if step.Archive? { SentNext(s.dispatched, t.dispatched[|s.dispatched|]); }
    }
  }

  lemma {:induction false} RunWhole<P>(read: Reader<P>, s: State<P>, steps: seq<Step>)
    requires IsRun(read, s, steps) && NeverOverwrites(read, s, steps) && Steady(read, s) && Whole(read, s)
    ensures Steady(read, AfterRun(read, s, steps)) && Whole(read, AfterRun(read, s, steps))
    decreases |steps|
  {
    hide Steady, Whole, Overwrites, After, Enabled;
    if steps != [] {
      StepSteady(read, s, steps[0]);
      StepWhole(read, s, steps[0]);
      RunWhole(read, After(read, s, steps[0]), steps[1..]);
    }
  }

  lemma StartWhole<P>(read: Reader<P>)
    ensures Steady(read, Start<P>()) && Whole(read, Start<P>())
  {
    assert Sent<P>([]) == [] && Readings(read, []) == [];
  }

  /** Then the dispatches are exactly the archived handoffs, in order and as they read; one that was
      refused for its text had such a text. */
  lemma DispatchesAreWritten<P>(read: Reader<P>, steps: seq<Step>)
    requires IsRun(read, Start<P>(), steps) && NeverOverwrites(read, Start<P>(), steps)
    ensures var s := AfterRun(read, Start<P>(), steps);
      && Sent(s.dispatched) == Readings(read, s.handled)
      && (forall t | t in s.handled && t.how.Unreadable? :: read(t.text).None?)
  {
    StartWhole(read);
    RunWhole(read, Start<P>(), steps);
  }

  // ---- One at a time ------------------------------------------------------------------------

  /** The protocol's rule for writers: no handoff while one is visible. */
  ghost predicate OneAtATime<P>(read: Reader<P>, s: State<P>, steps: seq<Step>)
    requires IsRun(read, s, steps)
    decreases |steps|
  {
    steps != [] ==>
      && (steps[0].Write? ==> s.disk.handoffs == map[])
      && OneAtATime(read, After(read, s, steps[0]), steps[1..])
  }

  /** In the order of writing, with the one still there at the end. */
  ghost predicate OrderNow<P>(s: State<P>) {
    if s.disk.handoffs == map[] then s.written == PairsOf(s.handled) else exists half :: OnlyAndLast(s, half)
  }

  /** At the start and after every step. */
  ghost predicate OrderThroughout<P>(read: Reader<P>, s: State<P>, steps: seq<Step>)
    requires IsRun(read, s, steps)
    decreases |steps|
  {
    OrderNow(s) && (steps != [] ==> OrderThroughout(read, After(read, s, steps[0]), steps[1..]))
  }

  /** And none is swept away, and each is refused only for its text. */
  ghost predicate InOrder<P>(read: Reader<P>, s: State<P>) {
    && OrderNow(s) && !s.phase.Sweeping?
    && (forall t | t in s.handled :: t.how == if read(t.text).Some? then Archived else Unreadable)
  }

  ghost predicate OnlyAndLast<P>(s: State<P>, half: string) {
    && half in s.disk.handoffs && s.disk.handoffs == map[half := s.disk.handoffs[half]]
    && s.written == PairsOf(s.handled) + [(half, s.disk.handoffs[half])]
  }

  lemma OneListed(halves: seq<string>, half: string)
    requires Distinct(halves) && forall h | h in halves :: h == half
    ensures |halves| <= 1
  {
    assert |halves| > 1 ==> halves[0] != halves[1];
    forall i | 0 <= i < |halves| ensures halves[i] == half { assert halves[i] in halves; }
  }

  lemma SomeListed(halves: seq<string>, m: map<string, string>)
    requires halves != [] && forall h | h in halves :: h in m
    ensures m != map[]
  {
    assert halves[0] in m;
  }

  lemma WithoutOnly(m: map<string, string>, half: string)
    requires half in m && m == map[half := m[half]]
    ensures Without(m, half) == map[]
  {}

  lemma StepInOrder<P>(read: Reader<P>, s: State<P>, step: Step)
    requires Enabled(s, step) && Steady(read, s) && InOrder(read, s) && (step.Write? ==> s.disk.handoffs == map[])
    ensures InOrder(read, After(read, s, step))
  {
    hide AuditName, SweptName, FileName, PairsOf, Distinct;
    var t := After(read, s, step);
    if step.Write? {
      assert OnlyAndLast(t, step.half);
    } else if s.disk.handoffs == map[] {
      if step.List? && step.halves != [] { SomeListed(step.halves, s.disk.handoffs); }
    } else {
      var half :| OnlyAndLast(s, half);
      WithoutOnly(s.disk.handoffs, half);
      if step.List? { OneListed(step.halves, half); }
      if |t.handled| > |s.handled| {
        PairsNext(s.handled, t.handled[|s.handled|]);
      } else {
        assert OnlyAndLast(t, half);
      }
    }
  }

  /** A second file, or a second handoff in the same file, breaks the order at once. */
  lemma WriteBreaksOrder<P>(read: Reader<P>, s: State<P>, step: Step)
    requires OrderNow(s) && step.Write? && s.disk.handoffs != map[]
    ensures !OrderNow(After(read, s, step))
  {
    var t := After(read, s, step);
    var half :| OnlyAndLast(s, half);
    assert |s.written| == |s.handled| + 1 && |t.written| == |t.handled| + 2;
  }

  lemma {:induction false} RunInOrder<P>(read: Reader<P>, s: State<P>, steps: seq<Step>)
    requires IsRun(read, s, steps) && Steady(read, s) && InOrder(read, s)
    ensures OrderThroughout(read, s, steps) <==> OneAtATime(read, s, steps)
    ensures OneAtATime(read, s, steps) ==> InOrder(read, AfterRun(read, s, steps)) && NeverOverwrites(read, s, steps)
    decreases |steps|
  {
    hide Steady, After, Enabled, OrderNow;
    if steps != [] {
      if steps[0].Write? && s.disk.handoffs != map[] {
        WriteBreaksOrder(read, s, steps[0]);
      } else {
        StepSteady(read, s, steps[0]);
        StepInOrder(read, s, steps[0]);
        RunInOrder(read, After(read, s, steps[0]), steps[1..]);
      }
    }
  }

  /** The handoffs are taken in the order they were written, the one still there always being the
      last, throughout a run if and only if its writers keep the one-at-a-time rule; and then none
      is swept away and each is dispatched exactly when it can be read. */
  lemma HandoffsInOrder<P>(read: Reader<P>, steps: seq<Step>)
    requires IsRun(read, Start<P>(), steps)
    ensures OrderThroughout(read, Start<P>(), steps) <==> OneAtATime(read, Start<P>(), steps)
    ensures OneAtATime(read, Start<P>(), steps) ==>
      NeverOverwrites(read, Start<P>(), steps) && InOrder(read, AfterRun(read, Start<P>(), steps))
  {
    StartWhole(read);
    assert PairsOf([]) == [];
    RunInOrder(read, Start<P>(), steps);
  }

  // ---- The audit log ------------------------------------------------------------------------

  /** The last dispatch recorded under a name. */
  function LastUnder<P>(dispatched: seq<Dispatch<P>>, name: string): (r: Option<Dispatch<P>>)
    ensures r.Some? ==> r.value in dispatched && r.value.audited == name
    ensures r.None? ==> forall d | d in dispatched :: d.audited != name
  {
    if dispatched == [] then None
    else
      var n := |dispatched| - 1;
      assert dispatched == dispatched[..n] + [dispatched[n]];
      if dispatched[n].audited == name then Some(dispatched[n]) else LastUnder(dispatched[..n], name)
  }

  ghost predicate AuditIsLast<P>(s: State<P>) {
    forall name :: (name in s.disk.audit <==> LastUnder(s.dispatched, name).Some?)
      && (name in s.disk.audit ==> s.disk.audit[name] == LastUnder(s.dispatched, name).value.moved)
  }

  /** The audit record of dispatch i still says what was dispatched. */
  ghost predicate Audited<P>(read: Reader<P>, s: State<P>, i: nat)
    requires i < |s.dispatched|
  {
    && s.dispatched[i].audited in s.disk.audit
    && read(s.disk.audit[s.dispatched[i].audited]) == Some(s.dispatched[i].payload)
  }

  /** The times of two records, and their halves, can be read off their names. */
  lemma AuditNames(s: string, a: string, t: string, b: string)
    requires Stamp(s) && Stamp(t) && AuditName(s, a) == AuditName(t, b)
    ensures s == t && a == b
  {
    var x, y, suffix := AuditName(s, a), AuditName(t, b), "_handoff.json";
    assert x[|s|] == '_' && y[|t|] == '_';
    assert forall i | 0 <= i < |s| :: x[i] == s[i];
    assert forall i | 0 <= i < |t| :: y[i] == t[i];
    assert s == x[..|s|] == y[..|t|] == t;
    assert a == x[|s| + 1..|x| - |suffix|];
    assert b == y[|t| + 1..|y| - |suffix|];
  }

  /** Every record is named by its own second and half. */
  ghost predicate Named<P>(s: State<P>) {
    forall d | d in s.dispatched :: Stamp(d.second) && d.audited == AuditName(d.second, d.half)
  }

  lemma StepAudit<P>(read: Reader<P>, s: State<P>, step: Step)
    requires Enabled(s, step) && AuditIsLast(s)
    ensures AuditIsLast(After(read, s, step))
  {
    hide AuditName, SweptName, FileName;
    var t := After(read, s, step);
    if t.dispatched != s.dispatched {
      assert t.dispatched[..|s.dispatched|] == s.dispatched;
    }
  }

  lemma StepNamed<P>(read: Reader<P>, s: State<P>, step: Step)
    requires Enabled(s, step) && Named(s)
    ensures Named(After(read, s, step))
  {
    hide AuditName, SweptName, FileName, Stamp;
  }

  lemma {:induction false} RunAudit<P>(read: Reader<P>, s: State<P>, steps: seq<Step>)
    requires IsRun(read, s, steps) && AuditIsLast(s) && Named(s)
    ensures AuditIsLast(AfterRun(read, s, steps)) && Named(AfterRun(read, s, steps))
    decreases |steps|
  {
    hide After, Enabled, AuditIsLast, Named;
    if steps != [] {
      StepAudit(read, s, steps[0]);
      StepNamed(read, s, steps[0]);
      RunAudit(read, After(read, s, steps[0]), steps[1..]);
    }
  }

  ghost predicate SameRecord<P>(d: Dispatch<P>, e: Dispatch<P>) { d.half == e.half && d.second == e.second }

  /** Dispatch j is the last to the half of dispatch i in its second. */
  ghost predicate LastLike<P>(dispatched: seq<Dispatch<P>>, i: nat, j: nat) {
    && i <= j < |dispatched| && SameRecord(dispatched[i], dispatched[j])
    && forall k | j < k < |dispatched| :: !SameRecord(dispatched[i], dispatched[k])
  }

  lemma {:induction false} LastUnderAt<P>(dispatched: seq<Dispatch<P>>, name: string, i: nat) returns (j: nat)
    requires i < |dispatched| && dispatched[i].audited == name
    ensures i <= j < |dispatched| && LastUnder(dispatched, name) == Some(dispatched[j])
    ensures dispatched[j].audited == name && forall k | j < k < |dispatched| :: dispatched[k].audited != name
    decreases |dispatched|
  {
    var n := |dispatched| - 1;
    if dispatched[n].audited == name { j := n; } else { j := LastUnderAt(dispatched[..n], name, i); }
  }

  lemma LastNamed<P>(s: State<P>, i: nat) returns (j: nat)
    requires Named(s) && i < |s.dispatched|
    ensures LastLike(s.dispatched, i, j) && LastUnder(s.dispatched, s.dispatched[i].audited) == Some(s.dispatched[j])
  {
    hide AuditName, Stamp, LastUnder;
    var ds := s.dispatched;
    j := LastUnderAt(ds, ds[i].audited, i);
    AuditNames(ds[i].second, ds[i].half, ds[j].second, ds[j].half);
    forall k | j < k < |ds| ensures !SameRecord(ds[i], ds[k]) { assert ds[k].audited != ds[i].audited; }
  }

  /** Over every interleaving the record of a dispatch holds its payload if and only if what was
      moved for the last dispatch to the same half in the same second reads so. */
  lemma AuditHoldsLast<P>(read: Reader<P>, steps: seq<Step>, i: nat) returns (j: nat)
    requires IsRun(read, Start<P>(), steps) && i < |AfterRun(read, Start<P>(), steps).dispatched|
    ensures var s := AfterRun(read, Start<P>(), steps);
      && LastLike(s.dispatched, i, j)
      && (Audited(read, s, i) <==> read(s.dispatched[j].moved) == Some(s.dispatched[i].payload))
  {
    hide AuditName, Stamp, LastLike;
    RunAudit(read, Start<P>(), steps);
    j := LastNamed(AfterRun(read, Start<P>(), steps), i);
    LikeIn(AfterRun(read, Start<P>(), steps).dispatched, i, j);
  }

  lemma LikeIn<P>(dispatched: seq<Dispatch<P>>, i: nat, j: nat)
    requires LastLike(dispatched, i, j)
    ensures i <= j < |dispatched|
  {}

  /** Where no handoff was written over: if and only if the last dispatch to the same half in the
      same second had the same payload. With none later to that half in that second, it holds. */
  lemma AuditKeeps<P>(read: Reader<P>, steps: seq<Step>, i: nat) returns (j: nat)
    requires IsRun(read, Start<P>(), steps) && NeverOverwrites(read, Start<P>(), steps)
    requires i < |AfterRun(read, Start<P>(), steps).dispatched|
    ensures var s := AfterRun(read, Start<P>(), steps);
      && LastLike(s.dispatched, i, j)
      && (Audited(read, s, i) <==> s.dispatched[j].payload == s.dispatched[i].payload)
      && ((forall k | i < k < |s.dispatched| :: !SameRecord(s.dispatched[i], s.dispatched[k])) ==> Audited(read, s, i))
  {
    hide AfterRun, NeverOverwrites, IsRun, Audited;
    j := AuditHoldsLast(read, steps, i);
    StartWhole(read);
    RunWhole(read, Start<P>(), steps);
  }

  // ---- Several files at once ----------------------------------------------------------------

  lemma SweptNames(m: string, a: string, n: string, b: string)
    requires Digits(m) && Digits(n) && SweptName(m, a) == SweptName(n, b)
    ensures m == n && a == b
  {
    var s, t := SweptName(m, a), SweptName(n, b);
    assert s[|m|] == '_' && t[|n|] == '_';
    assert forall i | 0 <= i < |m| :: s[i] == m[i];
    assert forall i | 0 <= i < |n| :: t[i] == n[i];
    assert m == s[..|m|] == t[..|n|] == n;
    assert FileName(a) == s[|m| + 1..] == t[|n| + 1..] == FileName(b);
    var prefix := "handoff_to_";
    assert a == FileName(a)[|prefix|..|FileName(a)| - 5];
    assert b == FileName(b)[|prefix|..|FileName(b)| - 5];
  }

  /** Steps taken while the watcher is still moving the files it listed. */
  ghost predicate InSweep<P>(read: Reader<P>, s: State<P>, steps: seq<Step>)
    decreases |steps|
  {
    steps == []
    || (s.phase.Sweeping? && Enabled(s, steps[0]) && InSweep(read, After(read, s, steps[0]), steps[1..]))
  }

  lemma {:induction false} SweepIsRun<P>(read: Reader<P>, s: State<P>, steps: seq<Step>)
    requires InSweep(read, s, steps)
    ensures IsRun(read, s, steps)
    decreases |steps|
  {
    hide After, Enabled;
    if steps != [] { SweepIsRun(read, After(read, s, steps[0]), steps[1..]); }
  }

  /** Since the listing: k of the listed files are in the quarantine, each under its own name with
      the text it had, the others are still there, and nothing was dispatched. */
  ghost predicate SweptTo<P>(s: State<P>, halves: seq<string>, t: State<P>, k: nat) {
    && k <= |halves| && t.dispatched == s.dispatched
    && |t.handled| == |s.handled| + k && t.handled[..|s.handled|] == s.handled
    && (forall j | 0 <= j < k :: SweptAs(t, t.handled[|s.handled| + j], halves[j]))
    && (forall j | k <= j < |halves| :: halves[j] in t.disk.handoffs)
    && (t.phase == Sweeping(halves[k..]) || (t.phase.Idle? && k == |halves|))
  }

  ghost predicate SweptAs<P>(t: State<P>, x: Taken, half: string) {
    && x.half == half && x.how.Swept? && IsSweptName(x.place, half)
    && x.place in t.disk.malformed && t.disk.malformed[x.place] == x.text
  }

  ghost predicate IsSweptName(place: string, half: string) {
    exists millis :: Digits(millis) && place == SweptName(millis, half)
  }

  lemma OtherPlaces(place: string, half: string, millis: string, other: string)
    requires IsSweptName(place, half) && Digits(millis) && half != other
    ensures place != SweptName(millis, other)
  {
    var m :| Digits(m) && place == SweptName(m, half);
    if place == SweptName(millis, other) { SweptNames(m, half, millis, other); }
  }

  lemma SweepNext<P>(read: Reader<P>, s: State<P>, halves: seq<string>, t: State<P>, k: nat, step: Step)
    requires Distinct(halves) && SweptTo(s, halves, t, k) && t.phase.Sweeping? && Enabled(t, step)
    requires step.Sweep? && k < |halves|
    ensures SweptTo(s, halves, After(read, t, step), k + 1)
  {
    hide SweptName, FileName, AuditName, Digits, IsSweptName;
    var u, n := After(read, t, step), |s.handled|;
    assert halves[k..][0] == halves[k] && halves[k..][1..] == halves[k + 1..];
    IsPlace(step.millis, halves[k]);
    forall j | 0 <= j < k + 1 ensures SweptAs(u, u.handled[n + j], halves[j]) {
      if j < k {
        assert SweptAs(t, t.handled[n + j], halves[j]);
        OtherPlaces(t.handled[n + j].place, halves[j], step.millis, halves[k]);
      }
    }
  }

  lemma SweepStays<P>(read: Reader<P>, s: State<P>, halves: seq<string>, t: State<P>, k: nat, step: Step)
    requires SweptTo(s, halves, t, k) && t.phase.Sweeping? && Enabled(t, step)
    requires !(step.Sweep? && k < |halves|)
    ensures SweptTo(s, halves, After(read, t, step), k)
  {
    hide SweptName, FileName, AuditName, Digits, IsSweptName;
    var u, n := After(read, t, step), |s.handled|;
    forall j | 0 <= j < k ensures SweptAs(u, u.handled[n + j], halves[j]) {
      assert SweptAs(t, t.handled[n + j], halves[j]);
    }
  }

  lemma SweepStep<P>(read: Reader<P>, s: State<P>, halves: seq<string>, t: State<P>, k: nat, step: Step) returns (l: nat)
    requires Distinct(halves) && SweptTo(s, halves, t, k) && t.phase.Sweeping? && Enabled(t, step)
    ensures SweptTo(s, halves, After(read, t, step), l)
  {
    hide SweptTo, After, Enabled, Distinct;
    if step.Sweep? && k < |halves| {
      SweepNext(read, s, halves, t, k, step);
      l := k + 1;
    } else {
      SweepStays(read, s, halves, t, k, step);
      l := k;
    }
  }

  lemma IsPlace(millis: string, half: string)
    requires Digits(millis)
    ensures IsSweptName(SweptName(millis, half), half)
  {}

  lemma {:induction false} SweepRun<P>(
      read: Reader<P>, s: State<P>, halves: seq<string>, t: State<P>, k: nat, steps: seq<Step>) returns (l: nat)
    requires Distinct(halves) && SweptTo(s, halves, t, k) && InSweep(read, t, steps)
    ensures IsRun(read, t, steps) && SweptTo(s, halves, AfterRun(read, t, steps), l)
    decreases |steps|
  {
    hide After, Enabled, SweptTo, Distinct;
    l := k;
    if steps != [] {
      var m := SweepStep(read, s, halves, t, k, steps[0]);
      l := SweepRun(read, s, halves, After(read, t, steps[0]), m, steps[1..]);
    }
  }

  /** A poll that lists several files dispatches none of them, whatever writers do meanwhile; when
      it ends, each of them has been moved to the quarantine under a name of its own, with the text
      it had at its rename. */
  lemma FailClosed<P>(read: Reader<P>, s: State<P>, halves: seq<string>, steps: seq<Step>)
    requires Enabled(s, List(halves)) && |halves| > 1 && InSweep(read, After(read, s, List(halves)), steps)
    ensures IsRun(read, After(read, s, List(halves)), steps)
    ensures var t := AfterRun(read, After(read, s, List(halves)), steps);
      && t.dispatched == s.dispatched
      && (t.phase.Idle? ==>
            && |t.handled| == |s.handled| + |halves| && t.handled[..|s.handled|] == s.handled
            && forall j | 0 <= j < |halves| :: SweptAs(t, t.handled[|s.handled| + j], halves[j]))
  {
    hide SweptAs, Distinct, InSweep, IsRun, AfterRun;
    var t := After(read, s, List(halves));
    SweepIsRun(read, t, steps);
    assert halves[0..] == halves;
    assert SweptTo(s, halves, t, 0);
    var l := SweepRun(read, s, halves, t, 0, steps);
  }

  // ---- Writing over a handoff ---------------------------------------------------------------

  /** The states of the run below. */
  function OverwriteState<P>(half: string, first: string, payload: P, second: string, time: string, k: nat): State<P>
    requires k <= 5
  {
    var d1, d2 := Disk(map[half := first], map[], map[]), Disk(map[half := second], map[], map[]);
    var w1, w2, name := [(half, first)], [(half, first), (half, second)], AuditName(time, half);
    if k == 0 then Start()
    else if k == 1 then State(d1, Idle, w1, [], [])
    else if k == 2 then State(d1, Listed(half), w1, [], [])
    else if k == 3 then State(d1, Loaded(half, first, payload), w1, [], [])
    else if k == 4 then State(d2, Loaded(half, first, payload), w2, [], [])
    else
      State(Disk(map[], map[name := second], map[]), Idle, w2, [Taken(half, second, Archived, name)],
            [Dispatch(half, payload, time, name, second)])
  }

  function OverwriteSteps(half: string, first: string, second: string, time: string): seq<Step> {
    [Write(half, first), List([half]), Load, Write(half, second), Archive(time)]
  }

  lemma OverwriteNext<P>(read: Reader<P>, half: string, first: string, second: string, time: string, k: nat)
    requires read(first).Some? && Stamp(time) && k < 5
    ensures var payload := read(first).value;
      var s, step := OverwriteState(half, first, payload, second, time, k), OverwriteSteps(half, first, second, time)[k];
      Enabled(s, step) && After(read, s, step) == OverwriteState(half, first, payload, second, time, k + 1)
  {
    hide AuditName, Stamp;
    WithoutOnly(map[half := second], half);
  }

  lemma {:induction false} OverwriteRun<P>(read: Reader<P>, half: string, first: string, second: string, time: string, k: nat)
    requires read(first).Some? && Stamp(time) && k <= 5
    ensures var payload := read(first).value;
      var s, rest := OverwriteState(half, first, payload, second, time, k), OverwriteSteps(half, first, second, time)[k..];
      IsRun(read, s, rest) && AfterRun(read, s, rest) == OverwriteState(half, first, payload, second, time, 5)
    decreases 5 - k
  {
    hide After, Enabled, OverwriteState, AuditName;
    var steps := OverwriteSteps(half, first, second, time);
    if k < 5 {
      OverwriteNext(read, half, first, second, time, k);
      OverwriteRun(read, half, first, second, time, k + 1);
      assert steps[k..][1..] == steps[k + 1..] && steps[k..][0] == steps[k];
    }
  }

  /** What writing over a handoff can do: a second one to the same half between the read and the
      rename is archived in the place of the first and never dispatched, and the first, which is
      dispatched, is nowhere on disk. */
  lemma OverwriteIsLost<P>(read: Reader<P>, half: string, first: string, second: string, time: string)
    requires first != second && read(first).Some? && Stamp(time)
    ensures var steps := [Write(half, first), List([half]), Load, Write(half, second), Archive(time)];
      && IsRun(read, Start<P>(), steps)
      && var s := AfterRun(read, Start<P>(), steps);
         && Sent(s.dispatched) == [(half, read(first))]
         && s.disk == Disk(map[], map[AuditName(time, half) := second], map[])
  {
    hide IsRun, AfterRun, AuditName;
    OverwriteRun(read, half, first, second, time, 0);
    assert OverwriteSteps(half, first, second, time)[0..] == OverwriteSteps(half, first, second, time);
  }
}
