/** What the message protocol promises over whole runs, and the consumer as the loop it is. */
module IpcRuns {
  import opened Wrappers
  import opened Ipc

  // ---- At most once, never torn, never lost -------------------------------------------------

  ghost predicate Reached<P>(parse: Parser<P>, steps: seq<Step>, s: State<P>) {
    IsRun(parse, Start<P>(), steps) && s == AfterRun(parse, Start<P>(), steps)
  }

  lemma ReachedInv<P>(parse: Parser<P>, steps: seq<Step>, s: State<P>)
    requires Reached(parse, steps, s)
    ensures Inv(parse, s)
  {
    hide Inv;
    StartInv(parse);
    RunInv(parse, Start<P>(), steps);
  }

  /** No message is delivered twice, and what is delivered is the whole message. */
  lemma AtMostOnceWhole<P>(parse: Parser<P>, steps: seq<Step>, s: State<P>)
    requires Reached(parse, steps, s)
    ensures forall i, j | 0 <= i < |s.delivered| && 0 <= j < |s.delivered| ::
      s.delivered[i].name == s.delivered[j].name ==> i == j
    ensures forall d | d in s.delivered :: d.name in s.sent && parse(s.sent[d.name]) == Message(d.payload)
  {
    hide Reached, WritersGood, ConsumersGood;
    ReachedInv(parse, steps, s);
    forall d | d in s.delivered ensures d.name in s.sent && parse(s.sent[d.name]) == Message(d.payload) {
      assert IsArchived(parse, s.disk.archive, d);
      assert Kept(s.disk, d.name, s.sent[d.name]);
    }
  }

  /** A published message that parses is still in the inbox or in the archive, whole, and never in
      both; it is in the archive exactly when it was delivered. One that does not parse stays in
      the inbox or is quarantined. */
  lemma NeverLost<P>(parse: Parser<P>, steps: seq<Step>, s: State<P>, name: string)
    requires Reached(parse, steps, s) && name in s.sent
    ensures Kept(s.disk, name, s.sent[name])
    ensures name in s.disk.archive <==> WasDelivered(s.delivered, name)
    ensures parse(s.sent[name]).Message? ==> name !in s.disk.errors
    ensures parse(s.sent[name]).Malformed? ==> name !in s.disk.archive
    ensures parse(s.sent[name]).Undecodable? ==> name in s.disk.inbox
  {
    hide Reached, WritersGood, ConsumersGood;
    ReachedInv(parse, steps, s);
    if WasDelivered(s.delivered, name) {
      var d :| d in s.delivered && d.name == name;
      assert IsArchived(parse, s.disk.archive, d);
    }
  }

  /** Whatever a consumer looks inside was published: no temporary file and no sentinel. */
  lemma ConsumersSeeOnlyPublished<P>(parse: Parser<P>, steps: seq<Step>, s: State<P>, c: nat)
    requires Reached(parse, steps, s)
    ensures PhaseGood(parse, s, PhaseOf(s, c))
    ensures var p := PhaseOf(s, c); p.Found? || p.Aged? || p.Holding? || p.Bad? || p.Unmovable? ==>
      p.name in s.sent && !Skipped(p.name)
  {
    hide Reached, Skipped;
    ReachedInv(parse, steps, s);
    var p := PhaseOf(s, c);
    assert PhaseGood(parse, s, p);
    if p.Found? || p.Aged? || p.Holding? || p.Bad? || p.Unmovable? { SentVisible(s, p.name); }
  }

  ghost predicate Began(steps: seq<Step>, name: string, data: string) {
    exists i :: 0 <= i < |steps| && steps[i].BeginWrite? && steps[i].name == name && steps[i].data == data
  }

  ghost predicate AllBegan<P>(steps: seq<Step>, s: State<P>) {
    && (forall w | w in s.writers :: Began(steps, s.writers[w].name, s.writers[w].data))
    && (forall name | name in s.sent :: Began(steps, name, s.sent[name]))
  }

  lemma StepBegan<P>(parse: Parser<P>, past: seq<Step>, s: State<P>, step: Step)
    requires Enabled(s, step) && AllBegan(past, s)
    ensures AllBegan(past + [step], After(parse, s, step))
  {
    var now := past + [step];
    assert now[|past|] == step;
    forall name, data | Began(past, name, data) ensures Began(now, name, data) {
      var i :| 0 <= i < |past| && past[i].BeginWrite? && past[i].name == name && past[i].data == data;
      assert now[i] == past[i];
    }
  }

  lemma {:induction false} RunBegan<P>(parse: Parser<P>, past: seq<Step>, s: State<P>, steps: seq<Step>)
    requires IsRun(parse, s, steps) && AllBegan(past, s)
    ensures AllBegan(past + steps, AfterRun(parse, s, steps))
    decreases |steps|
  {
    hide AllBegan, After, Enabled;
    if steps == [] {
      assert past + steps == past;
    } else {
      StepBegan(parse, past, s, steps[0]);
      RunBegan(parse, past + [steps[0]], After(parse, s, steps[0]), steps[1..]);
      assert past + [steps[0]] + steps[1..] == past + steps;
    }
  }

  /** End to end: with a reader that inverts the writer's encoding, every delivery carries a
      payload some writer sent under that name, and no written message is ever quarantined. */
  lemma DeliveriesAreWrites<P>(parse: Parser<P>, dumps: P -> string, steps: seq<Step>, s: State<P>)
    requires Reached(parse, steps, s)
    requires forall p: P :: parse(dumps(p)) == Message(p)
    requires forall i | 0 <= i < |steps| && steps[i].BeginWrite? :: exists p: P :: steps[i].data == dumps(p)
    ensures forall d | d in s.delivered :: Began(steps, d.name, dumps(d.payload))
    ensures s.disk.errors == map[]
  {
    hide Inv;
    assert AllBegan([], Start<P>());
    RunBegan(parse, [], Start<P>(), steps);
    assert [] + steps == steps;
    AtMostOnceWhole(parse, steps, s);
    forall d | d in s.delivered ensures Began(steps, d.name, dumps(d.payload)) {
      SentEncodes(parse, dumps, steps, s, d.name);
    }
    forall name | name in s.disk.errors ensures false {
      ErrorsSent(parse, steps, s, name);
      SentEncodes(parse, dumps, steps, s, name);
    }
  }

  lemma ErrorsSent<P>(parse: Parser<P>, steps: seq<Step>, s: State<P>, name: string)
    requires Reached(parse, steps, s) && name in s.disk.errors
    ensures name in s.sent && !parse(s.sent[name]).Message?
  {
    hide Reached, WritersGood, ConsumersGood, DeliveredOnce;
    ReachedInv(parse, steps, s);
    assert Kept(s.disk, name, s.sent[name]);
  }

  lemma SentEncodes<P>(parse: Parser<P>, dumps: P -> string, steps: seq<Step>, s: State<P>, name: string)
    requires AllBegan(steps, s) && name in s.sent
    requires forall p: P :: parse(dumps(p)) == Message(p)
    requires forall i | 0 <= i < |steps| && steps[i].BeginWrite? :: exists p: P :: steps[i].data == dumps(p)
    ensures parse(s.sent[name]).Message? && s.sent[name] == dumps(parse(s.sent[name]).payload)
  {
    assert Began(steps, name, s.sent[name]);
    var i :| 0 <= i < |steps| && steps[i].BeginWrite? && steps[i].name == name && steps[i].data == s.sent[name];
    var p: P :| steps[i].data == dumps(p);
    assert parse(dumps(p)) == Message(p);
  }

  // ---- One consumer, undisturbed ------------------------------------------------------------

  datatype Consumed<P> = Consumed(disk: Disk, out: seq<(string, P)>, raised: bool)

  predicate Eligible(d: Disk, name: string, oldEnough: string -> bool)
    ensures Eligible(d, name, oldEnough) ==> name in d.inbox
  {
    name in d.inbox && !Skipped(name) && oldEnough(name)
  }

  function ToArchive(d: Disk, name: string): Disk
    requires name in d.inbox
  {
    d.(inbox := Without(d.inbox, name), archive := d.archive[name := d.inbox[name]])
  }

  function ToErrors(d: Disk, name: string): Disk
    requires name in d.inbox
  {
    d.(inbox := Without(d.inbox, name), errors := d.errors[name := d.inbox[name]])
  }

  function ConsumeOne<P>(parse: Parser<P>, d: Disk, name: string, oldEnough: string -> bool): Consumed<P> {
    if !Eligible(d, name, oldEnough) then Consumed(d, [], false)
    else
      match parse(d.inbox[name])
      case Message(payload) => Consumed(ToArchive(d, name), [(name, payload)], false)
      case Malformed => Consumed(ToErrors(d, name), [], false)
      case Undecodable => Consumed(d, [], true)
  }

  /** The names in listing order; text that is not UTF-8 raises out of the whole call. */
  function ConsumeAll<P>(parse: Parser<P>, d: Disk, names: seq<string>, oldEnough: string -> bool): Consumed<P>
    decreases |names|
  {
    if names == [] then Consumed(d, [], false)
    else
      var one := ConsumeOne(parse, d, names[0], oldEnough);
      if one.raised then one
      else
        var rest := ConsumeAll(parse, one.disk, names[1..], oldEnough);
        rest.(out := one.out + rest.out)
  }

  class Mailbox<P> {
    var inbox: map<string, string>
    var archive: map<string, string>
    var errors: map<string, string>

    constructor ()
      ensures Contents() == Disk(map[], map[], map[])
    {
      inbox, archive, errors := map[], map[], map[];
    }

    function Contents(): Disk
      reads this
    {
      Disk(inbox, archive, errors)
    }

    /** One poll. When it raises, what it already archived is in no caller's hands. */
    method ReadAndConsume(parse: Parser<P>, names: seq<string>, oldEnough: string -> bool)
        returns (r: Result<seq<(string, P)>, string>)
      modifies this
      ensures var done := ConsumeAll(parse, old(Contents()), names, oldEnough);
        && Contents() == done.disk
        && (if done.raised then r.Err? else r == Ok(done.out))
    {
      hide ConsumeAll, Skipped, Without, Sofar;
      var out := [];
      ghost var disk0 := Contents();
      var i := 0;
      SofarStart(parse, disk0, names, oldEnough);
      while i < |names|
        invariant i <= |names| && Sofar(parse, disk0, names, oldEnough, i, Contents(), out)
      {
        assert out + [] == out;
        var name := names[i];
        SofarNext(parse, disk0, names, oldEnough, i, Contents(), out);
        i := i + 1;
        if name !in inbox || Skipped(name) || !oldEnough(name) { continue; }
        match parse(inbox[name]) {
          case Message(payload) =>
            archive := archive[name := inbox[name]];
            inbox := Without(inbox, name);
            out := out + [(name, payload)];
          case Malformed =>
            errors := errors[name := inbox[name]];
            inbox := Without(inbox, name);
          case Undecodable =>
            return Err("the file is not valid UTF-8");
        }
      }
      SofarEnd(parse, disk0, names, oldEnough, Contents(), out);
      return Ok(out);
    }
  }

  ghost predicate Sofar<P>(
      parse: Parser<P>, d: Disk, names: seq<string>, oldEnough: string -> bool, i: nat, now: Disk, out: seq<(string, P)>)
  {
    && i <= |names|
    && var rest := ConsumeAll(parse, now, names[i..], oldEnough);
       ConsumeAll(parse, d, names, oldEnough) == rest.(out := out + rest.out)
  }

  lemma SofarStart<P>(parse: Parser<P>, d: Disk, names: seq<string>, oldEnough: string -> bool)
    ensures Sofar(parse, d, names, oldEnough, 0, d, [])
  {
    assert names[0..] == names;
  }

  lemma SofarEnd<P>(parse: Parser<P>, d: Disk, names: seq<string>, oldEnough: string -> bool, now: Disk, out: seq<(string, P)>)
    requires Sofar(parse, d, names, oldEnough, |names|, now, out)
    ensures ConsumeAll(parse, d, names, oldEnough) == Consumed(now, out, false)
  {}

  lemma SofarNext<P>(
      parse: Parser<P>, d: Disk, names: seq<string>, oldEnough: string -> bool, i: nat, now: Disk, out: seq<(string, P)>)
    requires i < |names| && Sofar(parse, d, names, oldEnough, i, now, out)
    ensures var one := ConsumeOne(parse, now, names[i], oldEnough);
      if one.raised then
        var all := ConsumeAll(parse, d, names, oldEnough);
        all.raised && all.disk == now
      else Sofar(parse, d, names, oldEnough, i + 1, one.disk, out + one.out)
  {
    hide Skipped;
    assert names[i..][1..] == names[i + 1..];
  }

  // ---- The poll is a run of the protocol ----------------------------------------------------

  function Tagged<P>(c: nat, out: seq<(string, P)>): (r: seq<Delivery<P>>)
    ensures |r| == |out|
  {
    seq(|out|, i requires 0 <= i < |out| => Delivery(c, out[i].0, out[i].1))
  }

  lemma {:induction false} RunConcat<P>(parse: Parser<P>, s: State<P>, a: seq<Step>, b: seq<Step>)
    requires IsRun(parse, s, a) && IsRun(parse, AfterRun(parse, s, a), b)
    ensures IsRun(parse, s, a + b) && AfterRun(parse, s, a + b) == AfterRun(parse, AfterRun(parse, s, a), b)
    decreases |a|
  {
    hide Enabled, After;
    if a == [] {
      assert a + b == b;
    } else {
      assert (a + b)[0] == a[0] && (a + b)[1..] == a[1..] + b;
      RunConcat(parse, After(parse, s, a[0]), a[1..], b);
    }
  }

  lemma OneStep<P>(parse: Parser<P>, s: State<P>, step: Step)
    requires Enabled(s, step)
    ensures IsRun(parse, s, [step]) && AfterRun(parse, s, [step]) == After(parse, s, step)
  {
    hide Enabled, After;
    assert [step][1..] == [];
  }

  /** A state as this consumer's poll leaves it. */
  function Polled<P>(s: State<P>, c: nat, done: Consumed<P>, p: Phase<P>): State<P> {
    SetPhase(s, c, if done.raised then Raised else p).(disk := done.disk, delivered := s.delivered + Tagged(c, done.out))
  }

  lemma Then<P>(parse: Parser<P>, s: State<P>, steps: seq<Step>, step: Step) returns (more: seq<Step>)
    requires IsRun(parse, s, steps) && Enabled(AfterRun(parse, s, steps), step)
    ensures more == steps + [step] && IsRun(parse, s, more)
    ensures AfterRun(parse, s, more) == After(parse, AfterRun(parse, s, steps), step)
  {
    hide Enabled, After;
    OneStep(parse, AfterRun(parse, s, steps), step);
    RunConcat(parse, s, steps, [step]);
    more := steps + [step];
  }

  lemma PolledNothing<P>(s: State<P>, c: nat)
    ensures forall p: Phase<P> :: Polled(s, c, Consumed(s.disk, [], false), p) == SetPhase(s, c, p)
  {
    assert s.delivered + Tagged(c, []) == s.delivered;
  }

  lemma ReadIsRun<P>(parse: Parser<P>, s: State<P>, c: nat, oldEnough: string -> bool) returns (steps: seq<Step>)
    requires PhaseOf(s, c).Aged? && Eligible(s.disk, PhaseOf(s, c).name, oldEnough)
    ensures IsRun(parse, s, steps)
    ensures var p := PhaseOf(s, c);
      AfterRun(parse, s, steps) == Polled(s, c, ConsumeOne(parse, s.disk, p.name, oldEnough), Scanning(p.rest))
  {
    hide Skipped, IsRun, AfterRun;
    var p := PhaseOf(s, c);
    OneStep(parse, s, Read(c));
    steps := [Read(c)];
    var t := After(parse, s, Read(c));
    if t.consumers[c].Raised? {
      assert s.delivered + Tagged(c, []) == s.delivered;
    } else {
      steps := Then(parse, s, steps, if t.consumers[c].Holding? then MoveToArchive(c) else MoveToErrors(c));
      assert s.delivered + Tagged(c, []) == s.delivered;
    }
  }

  lemma EntryIsRun<P>(parse: Parser<P>, s: State<P>, c: nat, oldEnough: string -> bool) returns (steps: seq<Step>)
    requires PhaseOf(s, c).Scanning? && PhaseOf(s, c).rest != []
    ensures IsRun(parse, s, steps)
    ensures var rest := PhaseOf(s, c).rest;
      AfterRun(parse, s, steps) == Polled(s, c, ConsumeOne(parse, s.disk, rest[0], oldEnough), Scanning(rest[1..]))
  {
    hide Skipped, IsRun, AfterRun, Tagged;
    var name, rest := PhaseOf(s, c).rest[0], PhaseOf(s, c).rest[1..];
    OneStep(parse, s, Look(c));
    steps := [Look(c)];
    PolledNothing(s, c);
    if name !in s.disk.inbox || Skipped(name) { return; }
    steps := Then(parse, s, steps, Stat(c, oldEnough(name)));
    if !oldEnough(name) { return; }
    var t := SetPhase(s, c, Aged(name, rest));
    assert AfterRun(parse, s, steps) == t;
    var more := ReadIsRun(parse, t, c, oldEnough);
    RunConcat(parse, s, steps, more);
    steps := steps + more;
  }

  ghost predicate IsPoll<P>(parse: Parser<P>, s: State<P>, c: nat, steps: seq<Step>, t: State<P>) {
    IsRun(parse, s, steps) && AfterRun(parse, s, steps) == t
  }

  lemma TaggedAppend<P>(c: nat, a: seq<(string, P)>, b: seq<(string, P)>)
    ensures Tagged(c, a + b) == Tagged(c, a) + Tagged(c, b)
  {}

  lemma {:induction false} ScanIsRun<P>(parse: Parser<P>, s: State<P>, c: nat, oldEnough: string -> bool)
      returns (steps: seq<Step>)
    requires PhaseOf(s, c).Scanning?
    ensures var done := ConsumeAll(parse, s.disk, PhaseOf(s, c).rest, oldEnough);
      IsPoll(parse, s, c, steps, Polled(s, c, done, Scanning([])))
    decreases |PhaseOf(s, c).rest|
  {
    hide Enabled, After, ConsumeOne, Tagged, Skipped, IsRun, AfterRun;
    var rest := PhaseOf(s, c).rest;
    if rest == [] {
      steps := NoSteps(parse, s, c);
    } else {
      var one := ConsumeOne(parse, s.disk, rest[0], oldEnough);
      steps := EntryIsRun(parse, s, c, oldEnough);
      var t := Polled(s, c, one, Scanning(rest[1..]));
      if !one.raised {
        var more := ScanIsRun(parse, t, c, oldEnough);
        RunConcat(parse, s, steps, more);
        var tail := ConsumeAll(parse, one.disk, rest[1..], oldEnough);
        TaggedAppend(c, one.out, tail.out);
        PolledTwice(s, c, one, rest[1..], tail);
        steps := steps + more;
      }
    }
  }

  lemma NoSteps<P>(parse: Parser<P>, s: State<P>, c: nat) returns (steps: seq<Step>)
    requires PhaseOf(s, c) == Scanning([])
    ensures IsPoll(parse, s, c, steps, Polled(s, c, Consumed(s.disk, [], false), Scanning([])))
  {
    steps := [];
    assert s.consumers[c := Scanning([])] == s.consumers;
    assert s.delivered + Tagged(c, []) == s.delivered;
  }

  lemma PolledTwice<P>(s: State<P>, c: nat, one: Consumed<P>, rest: seq<string>, tail: Consumed<P>)
    requires !one.raised
    ensures Polled(Polled(s, c, one, Scanning(rest)), c, tail, Scanning([]))
         == Polled(s, c, tail.(out := one.out + tail.out), Scanning([]))
  {
    TaggedAppend(c, one.out, tail.out);
    var p := if tail.raised then Raised else Scanning([]);
    assert s.consumers[c := Scanning(rest)][c := p] == s.consumers[c := p];
  }

  /** An undisturbed poll, whatever else has happened before, is a run of the protocol: every
      promise above holds of what the loop does to its directory. */
  lemma PollIsRun<P>(parse: Parser<P>, s: State<P>, c: nat, names: seq<string>, oldEnough: string -> bool)
      returns (steps: seq<Step>)
    requires PhaseOf(s, c).Idle?
    ensures var done := ConsumeAll(parse, s.disk, names, oldEnough);
      && IsRun(parse, s, steps)
      && AfterRun(parse, s, steps) == Polled(s, c, done, Idle)
  {
    hide ConsumeAll, Tagged, IsRun, AfterRun;
    var s1 := After(parse, s, List(c, names));
    OneStep(parse, s, List(c, names));
    var scan := ScanIsRun(parse, s1, c, oldEnough);
    RunConcat(parse, s, [List(c, names)], scan);
    steps := [List(c, names)] + scan;
    var done := ConsumeAll(parse, s.disk, names, oldEnough);
    var t := Polled(s1, c, done, Scanning([]));
    if done.raised {
      assert s.consumers[c := Scanning(names)][c := Raised] == s.consumers[c := Raised];
    } else {
      OneStep(parse, t, Return(c));
      RunConcat(parse, s, steps, [Return(c)]);
      steps := steps + [Return(c)];
      assert s.consumers[c := Scanning(names)][c := Scanning([])][c := Idle] == s.consumers[c := Idle];
    }
  }

  // ---- What one poll takes ------------------------------------------------------------------

  ghost predicate Distinct(names: seq<string>) { forall i, j | 0 <= i < j < |names| :: names[i] != names[j] }

  /** Each other name is where it was. */
  lemma {:induction false} PollLeaves<P>(parse: Parser<P>, d: Disk, names: seq<string>, oldEnough: string -> bool, name: string)
    requires name !in names
    ensures var e := ConsumeAll(parse, d, names, oldEnough).disk;
      && (name in e.inbox <==> name in d.inbox) && (name in d.inbox ==> e.inbox[name] == d.inbox[name])
      && (name in e.archive <==> name in d.archive) && (name in e.errors <==> name in d.errors)
    ensures forall i | 0 <= i < |ConsumeAll(parse, d, names, oldEnough).out| ::
      ConsumeAll(parse, d, names, oldEnough).out[i].0 in names
    decreases |names|
  {
    hide Skipped;
    if names != [] {
      assert name != names[0];
      var one := ConsumeOne(parse, d, names[0], oldEnough);
      if !one.raised { PollLeaves(parse, one.disk, names[1..], oldEnough, name); }
    }
  }

  ghost predicate Precedes(names: seq<string>, a: string, b: string) {
    exists i, j :: 0 <= i < j < |names| && names[i] == a && names[j] == b
  }

  /** The files a poll passes over stay where they are, as they are: the close sentinel, temporary
      files and those too young to be read. */
  lemma {:induction false} PassedOver<P>(parse: Parser<P>, d: Disk, names: seq<string>, oldEnough: string -> bool, name: string)
    requires name in d.inbox && (name == "_close" || EndsInTmp(name) || !oldEnough(name))
    ensures var r := ConsumeAll(parse, d, names, oldEnough);
      name in r.disk.inbox && r.disk.inbox[name] == d.inbox[name] && forall e | e in r.out :: e.0 != name
    decreases |names|
  {
    hide Skipped;
    SkippedNames(name);
    if names != [] {
      var one := ConsumeOne(parse, d, names[0], oldEnough);
      if !one.raised { PassedOver(parse, one.disk, names[1..], oldEnough, name); }
    }
  }

  /** What a poll takes, in so many words. */
  lemma EligibleNames(d: Disk, name: string, oldEnough: string -> bool)
    ensures Eligible(d, name, oldEnough) <==>
      name in d.inbox && name != "_close" && !EndsInTmp(name) && oldEnough(name)
  {
    SkippedNames(name);
  }

  /** A poll raises exactly when a name it may take does not decode. Otherwise it takes every
      eligible file of the listing, returns those that parse, in listing order, and nothing else. */
  lemma {:induction false} PollTakes<P>(parse: Parser<P>, d: Disk, names: seq<string>, oldEnough: string -> bool)
    requires Distinct(names)
    ensures var r := ConsumeAll(parse, d, names, oldEnough);
      && (r.raised <==> exists name :: name in names && Eligible(d, name, oldEnough) && parse(d.inbox[name]).Undecodable?)
      && (!r.raised ==> Took(parse, d, names, oldEnough, r))
    decreases |names|
  {
    hide Skipped, Eligible;
    if names != [] {
      var one := ConsumeOne(parse, d, names[0], oldEnough);
      var rest := names[1..];
      Rest(parse, d, names, oldEnough);
      if !one.raised {
        PollTakes(parse, one.disk, rest, oldEnough);
        var tail := ConsumeAll(parse, one.disk, rest, oldEnough);
        if !tail.raised { TookMore(parse, d, names, oldEnough, tail); }
      }
    }
  }

  ghost predicate Took<P>(parse: Parser<P>, d: Disk, names: seq<string>, oldEnough: string -> bool, r: Consumed<P>) {
    && (forall name | name in names && Eligible(d, name, oldEnough) :: name !in r.disk.inbox)
    && (forall name | name in d.inbox && name in names && !Eligible(d, name, oldEnough) :: name in r.disk.inbox)
    && (forall e | e in r.out ::
          e.0 in names && Eligible(d, e.0, oldEnough) && parse(d.inbox[e.0]) == Message(e.1))
    && (forall name | name in names && Eligible(d, name, oldEnough) && parse(d.inbox[name]).Message? ::
          (name, parse(d.inbox[name]).payload) in r.out)
    && (forall i, j | 0 <= i < j < |r.out| :: Precedes(names, r.out[i].0, r.out[j].0))
  }

  /** The first entry does not disturb the rest. */
  lemma Rest<P>(parse: Parser<P>, d: Disk, names: seq<string>, oldEnough: string -> bool)
    requires names != [] && Distinct(names)
    ensures Distinct(names[1..]) && names[0] !in names[1..]
    ensures var one := ConsumeOne(parse, d, names[0], oldEnough);
      forall name | name in names[1..] ::
        && (Eligible(one.disk, name, oldEnough) <==> Eligible(d, name, oldEnough))
        && (name in d.inbox <==> name in one.disk.inbox)
        && (name in d.inbox ==> one.disk.inbox[name] == d.inbox[name])
  {
    hide Skipped;
  }

  lemma OrderMore<P>(names: seq<string>, first: seq<(string, P)>, out: seq<(string, P)>)
    requires names != [] && |first| <= 1 && forall i | 0 <= i < |first| :: first[i].0 == names[0]
    requires forall i | 0 <= i < |out| :: out[i].0 in names[1..]
    requires forall i, j | 0 <= i < j < |out| :: Precedes(names[1..], out[i].0, out[j].0)
    ensures forall i, j | 0 <= i < j < |first + out| :: Precedes(names, (first + out)[i].0, (first + out)[j].0)
  {
    var all, rest := first + out, names[1..];
    forall i, j | 0 <= i < j < |all| ensures Precedes(names, all[i].0, all[j].0) {
      if i >= |first| {
        var m, n := i - |first|, j - |first|;
        assert Precedes(rest, out[m].0, out[n].0);
        var k, l :| 0 <= k < l < |rest| && rest[k] == out[m].0 && rest[l] == out[n].0;
        assert names[k + 1] == rest[k] && names[l + 1] == rest[l];
      } else {
        assert all[j] == out[j - |first|];
        var l :| 0 <= l < |rest| && rest[l] == all[j].0;
        assert names[l + 1] == all[j].0;
      }
    }
  }

  lemma TookMore<P>(parse: Parser<P>, d: Disk, names: seq<string>, oldEnough: string -> bool, tail: Consumed<P>)
    requires names != [] && Distinct(names)
    requires var one := ConsumeOne(parse, d, names[0], oldEnough);
      && !one.raised && tail == ConsumeAll(parse, one.disk, names[1..], oldEnough)
      && Took(parse, one.disk, names[1..], oldEnough, tail)
    ensures var one := ConsumeOne(parse, d, names[0], oldEnough);
      Took(parse, d, names, oldEnough, tail.(out := one.out + tail.out))
  {
    hide Skipped, ConsumeAll, Distinct, Precedes;
    var one, rest := ConsumeOne(parse, d, names[0], oldEnough), names[1..];
    Rest(parse, d, names, oldEnough);
    PollLeaves(parse, one.disk, rest, oldEnough, names[0]);
    OrderMore(names, one.out, tail.out);
    assert names == [names[0]] + rest;
  }

  // ---- A poll that raises -------------------------------------------------------------------

  lemma {:induction false} PollShrinks<P>(parse: Parser<P>, d: Disk, names: seq<string>, oldEnough: string -> bool, name: string)
    ensures var e := ConsumeAll(parse, d, names, oldEnough).disk;
      name in e.inbox ==> name in d.inbox && e.inbox[name] == d.inbox[name]
    decreases |names|
  {
    hide Skipped, Eligible;
    if names != [] {
      var one := ConsumeOne(parse, d, names[0], oldEnough);
      if !one.raised { PollShrinks(parse, one.disk, names[1..], oldEnough, name); }
    }
  }

  ghost predicate Chokes<P>(parse: Parser<P>, d: Disk, name: string, oldEnough: string -> bool) {
    Eligible(d, name, oldEnough) && parse(d.inbox[name]).Undecodable?
  }

  ghost predicate Good<P>(parse: Parser<P>, d: Disk, name: string, oldEnough: string -> bool) {
    Eligible(d, name, oldEnough) && parse(d.inbox[name]).Message?
  }

  /** A poll that raises at position j has done, and kept on disk, all that the poll of the names
      before it does; its caller gets none of it. */
  lemma {:induction false} RaisedIsPrefix<P>(parse: Parser<P>, d: Disk, names: seq<string>, oldEnough: string -> bool)
      returns (j: nat)
    requires ConsumeAll(parse, d, names, oldEnough).raised
    ensures j < |names| && Chokes(parse, d, names[j], oldEnough)
    ensures var before := ConsumeAll(parse, d, names[..j], oldEnough);
      !before.raised && ConsumeAll(parse, d, names, oldEnough) == before.(raised := true)
    decreases |names|
  {
    hide Skipped, Eligible;
    var one := ConsumeOne(parse, d, names[0], oldEnough);
    if one.raised {
      j := 0;
      assert names[..0] == [];
    } else {
      j := RaisedIsPrefix(parse, one.disk, names[1..], oldEnough);
      var name := names[1..][j];
      PollShrinks(parse, d, names[..1], oldEnough, name);
      OneIsAll(parse, d, names[0], oldEnough);
      assert names[..1] == [names[0]];
      SameEligible(d, one.disk, name, oldEnough);
      assert names[..j + 1][1..] == names[1..][..j] && names[..j + 1][0] == names[0];
      j := j + 1;
    }
  }

  lemma OneIsAll<P>(parse: Parser<P>, d: Disk, name: string, oldEnough: string -> bool)
    ensures ConsumeAll(parse, d, [name], oldEnough) == ConsumeOne(parse, d, name, oldEnough)
  {
    hide Skipped, Eligible;
    assert [name][1..] == [];
    var one := ConsumeOne(parse, d, name, oldEnough);
    assert one.out + [] == one.out;
  }

  lemma SameEligible(d: Disk, e: Disk, name: string, oldEnough: string -> bool)
    requires Eligible(e, name, oldEnough) && name in d.inbox
    ensures Eligible(d, name, oldEnough)
  {}

  /** The first name of a listing that a poll chokes on. */
  ghost predicate FirstChoke<P>(parse: Parser<P>, d: Disk, names: seq<string>, oldEnough: string -> bool, j: nat) {
    && j < |names| && Chokes(parse, d, names[j], oldEnough)
    && forall i | 0 <= i < j :: !Chokes(parse, d, names[i], oldEnough)
  }

  lemma ChokeRaises<P>(parse: Parser<P>, d: Disk, names: seq<string>, oldEnough: string -> bool, j: nat)
    requires Distinct(names) && FirstChoke(parse, d, names, oldEnough, j)
    ensures ConsumeAll(parse, d, names, oldEnough).raised
  {
    PollTakes(parse, d, names, oldEnough);
    assert names[j] in names;
  }

  /** What a call archives, its caller does not get, if and only if some message that parses stands
      in the listing before the first file that does not decode. */
  lemma ArchivedUnreturned<P>(parse: Parser<P>, d: Disk, names: seq<string>, oldEnough: string -> bool)
    requires Distinct(names)
    ensures var r := ConsumeAll(parse, d, names, oldEnough);
      r.raised && r.out != [] <==>
      exists i, j :: 0 <= i < j && FirstChoke(parse, d, names, oldEnough, j) && Good(parse, d, names[i], oldEnough)
  {
    hide ConsumeAll, Eligible;
    var r := ConsumeAll(parse, d, names, oldEnough);
    if j: nat :| FirstChoke(parse, d, names, oldEnough, j) { ChokeRaises(parse, d, names, oldEnough, j); }
    if r.raised {
      var j := RaisedIsPrefix(parse, d, names, oldEnough);
      var before := names[..j];
      PollTakes(parse, d, before, oldEnough);
      var b := ConsumeAll(parse, d, before, oldEnough);
      forall i | 0 <= i < j ensures !Chokes(parse, d, names[i], oldEnough) { assert names[i] in before; }
      assert FirstChoke(parse, d, names, oldEnough, j);
      if b.out != [] {
        var e := b.out[0];
        assert e in b.out && e.0 in before;
        var i :| 0 <= i < j && names[i] == e.0;
        assert Good(parse, d, names[i], oldEnough);
      }
      if i, k :| 0 <= i < k && FirstChoke(parse, d, names, oldEnough, k) && Good(parse, d, names[i], oldEnough) {
        OneFirstChoke(parse, d, names, oldEnough, j, k);
        assert names[i] in before;
        assert (names[i], parse(d.inbox[names[i]]).payload) in b.out;
      }
    }
  }

  lemma OneFirstChoke<P>(parse: Parser<P>, d: Disk, names: seq<string>, oldEnough: string -> bool, j: nat, k: nat)
    requires FirstChoke(parse, d, names, oldEnough, j) && FirstChoke(parse, d, names, oldEnough, k)
    ensures j == k
  {}

  /** A message listed before a file that does not decode: archived, and returned to nobody. */
  lemma LostToItsCaller<P>(parse: Parser<P>, a: string, b: string, good: string, bad: string)
    requires a != b && !Skipped(a) && !Skipped(b) && parse(good).Message? && parse(bad).Undecodable?
    ensures var r := ConsumeAll(parse, Disk(map[a := good, b := bad], map[], map[]), [a, b], _ => true);
      r == Consumed(Disk(map[b := bad], map[a := good], map[]), [(a, parse(good).payload)], true)
  {
    hide Skipped;
    var d := Disk(map[a := good, b := bad], map[], map[]);
    var one := ConsumeOne(parse, d, a, _ => true);
    assert one.disk.inbox == map[b := bad];
    assert [a, b][1..] == [b];
    OneIsAll(parse, one.disk, b, _ => true);
  }
}
