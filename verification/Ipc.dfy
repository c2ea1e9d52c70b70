/** Message files between processes: atomic writers, any number of consumers, and every
    interleaving of their file-system calls. A crash is a process that takes no further step. */
module Ipc {
  datatype Parsed<P> = Message(payload: P) | Malformed | Undecodable

  /** The JSON reader on a file's text. */
  type Parser<!P> = string -> Parsed<P>

  // ---- Names --------------------------------------------------------------------------------

  const SENTINEL := "_close"

  function LastDot(name: string): (r: int)
    ensures -1 <= r < |name|
    ensures r >= 0 ==> name[r] == '.'
    ensures forall i | r < i < |name| :: name[i] != '.'
  {
    if name == "" then -1
    else if name[|name| - 1] == '.' then |name| - 1
    else LastDot(name[..|name| - 1])
  }

  /** `Path.suffix`: nothing for a leading or a trailing dot. */
  function Suffix(name: string): string {
    var i := LastDot(name);
    if 0 < i < |name| - 1 then name[i..] else ""
  }

  /** What `mkstemp` makes of the final name and a random tag. */
  function TempName(name: string, tag: string): string { "." + name + "." + tag + ".tmp" }

  lemma SuffixOf(stem: string, ext: string)
    requires stem != "" && |ext| > 1 && ext[0] == '.' && forall i | 1 <= i < |ext| :: ext[i] != '.'
    ensures Suffix(stem + ext) == ext
  {
    var name := stem + ext;
    assert name[|stem|] == '.';
    assert forall i | |stem| < i < |name| :: name[i] == ext[i - |stem|];
    assert LastDot(name) == |stem|;
  }

  lemma TempSuffix(name: string, tag: string)
    ensures Suffix(TempName(name, tag)) == ".tmp"
  {
    SuffixOf("." + name + "." + tag, ".tmp");
    assert "." + name + "." + tag + ".tmp" == ("." + name + "." + tag) + ".tmp";
  }

  function MessageName(millis: string, hex: string): string { millis + "-" + hex + ".json" }

  lemma MessageSuffix(millis: string, hex: string)
    ensures Suffix(MessageName(millis, hex)) == ".json"
  {
    SuffixOf(millis + "-" + hex, ".json");
  }

  lemma SentinelSuffix()
    ensures Suffix(SENTINEL) == "" && Suffix(SENTINEL + ".tmp") == ".tmp"
  {
    SuffixOf(SENTINEL, ".tmp");
    assert forall i | 0 <= i < |SENTINEL| :: SENTINEL[i] != '.';
  }

  /** What a consumer passes over without looking inside. */
  predicate Skipped(name: string) { name == SENTINEL || Suffix(name) == ".tmp" }

  /** A text and a temporary ending after it. */
  predicate EndsInTmp(name: string) { |name| > 4 && name[|name| - 4..] == ".tmp" }

  /** The sentinel and the temporary files, in so many words. */
  lemma SkippedNames(name: string)
    ensures Skipped(name) <==> name == "_close" || EndsInTmp(name)
  {
    var i := LastDot(name);
    assert 0 < i < |name| && name[i..] == ".tmp" ==> i == |name| - 4;
    if EndsInTmp(name) {
      SuffixOf(name[..|name| - 4], ".tmp");
      assert name == name[..|name| - 4] + ".tmp";
    }
  }

  // ---- The disk and the processes -----------------------------------------------------------

  /** One message directory with its archive and its quarantine: file name to contents. */
  datatype Disk = Disk(inbox: map<string, string>, archive: map<string, string>, errors: map<string, string>)

  /** A writer between creating its temporary file and renaming it. */
  datatype Writer = Writer(name: string, temp: string, data: string, written: nat)

  /** Where a consumer stands; `rest` is what remains of its directory listing. */
  datatype Phase<P> =
    | Idle
    | Scanning(rest: seq<string>)
    | Found(name: string, rest: seq<string>)
    | Aged(name: string, rest: seq<string>)
    | Holding(name: string, payload: P, rest: seq<string>)
    | Bad(name: string, rest: seq<string>)
    | Unmovable(name: string, rest: seq<string>)
    | Raised

  datatype Delivery<P> = Delivery(consumer: nat, name: string, payload: P)

  /** `sent` is the history of published messages, `used` every name ever begun, `delivered` what
      consumers appended to their results, in order. */
  datatype State<P> = State(
    disk: Disk, writers: map<nat, Writer>, consumers: map<nat, Phase<P>>,
    sent: map<string, string>, used: set<string>, delivered: seq<Delivery<P>>)

  datatype Step =
    | BeginWrite(w: nat, name: string, tag: string, data: string)
    | WriteMore(w: nat, upTo: nat)
    | Publish(w: nat)
    | AbandonWrite(w: nat)
    | CreateSentinelTemp
    | PublishSentinel
    | ClearSentinel
    | List(c: nat, names: seq<string>)
    | Look(c: nat)
    | Stat(c: nat, oldEnough: bool)
    | Read(c: nat)
    | MoveToArchive(c: nat)
    | MoveToErrors(c: nat)
    | Unlink(c: nat)
    | Return(c: nat)

  function PhaseOf<P>(s: State<P>, c: nat): Phase<P> { if c in s.consumers then s.consumers[c] else Idle }

  /** Message names are fresh; `mkstemp` never opens an existing file. A directory listing need
      not be a snapshot: any sequence of names may come back. */
  ghost predicate Enabled<P>(s: State<P>, step: Step) {
    match step
    case BeginWrite(w, name, tag, data) =>
      w !in s.writers && name !in s.used && Suffix(name) == ".json" && TempName(name, tag) !in s.disk.inbox
    case WriteMore(w, upTo) => w in s.writers && s.writers[w].written <= upTo <= |s.writers[w].data|
    case Publish(w) => w in s.writers && s.writers[w].written == |s.writers[w].data|
    case AbandonWrite(w) => w in s.writers
    case CreateSentinelTemp => true
    case PublishSentinel => true
    case ClearSentinel => true
    case List(c, _) => PhaseOf(s, c).Idle?
    case Look(c) => PhaseOf(s, c).Scanning? && PhaseOf(s, c).rest != []
    case Stat(c, _) => PhaseOf(s, c).Found?
    case Read(c) => PhaseOf(s, c).Aged?
    case MoveToArchive(c) => PhaseOf(s, c).Holding?
    case MoveToErrors(c) => PhaseOf(s, c).Bad?
    case Unlink(c) => PhaseOf(s, c).Unmovable?
    case Return(c) => PhaseOf(s, c).Scanning? && PhaseOf(s, c).rest == []
  }

  function Without(m: map<string, string>, name: string): map<string, string> { map n | n in m && n != name :: m[n] }

  function WithInbox<P>(s: State<P>, inbox: map<string, string>): State<P> { s.(disk := s.disk.(inbox := inbox)) }

  function SetPhase<P>(s: State<P>, c: nat, p: Phase<P>): State<P> { s.(consumers := s.consumers[c := p]) }

  function After<P>(parse: Parser<P>, s: State<P>, step: Step): State<P>
    requires Enabled(s, step)
  {
    var inbox := s.disk.inbox;
    match step
    case BeginWrite(w, name, tag, data) =>
      var temp := TempName(name, tag);
      WithInbox(s, inbox[temp := ""]).(writers := s.writers[w := Writer(name, temp, data, 0)], used := s.used + {name})
    case WriteMore(w, upTo) =>
      var wr := s.writers[w];
      WithInbox(s, inbox[wr.temp := wr.data[..upTo]]).(writers := s.writers[w := wr.(written := upTo)])
    case Publish(w) =>
      var wr := s.writers[w];
      if wr.temp in inbox then
        WithInbox(s, Without(inbox, wr.temp)[wr.name := inbox[wr.temp]])
        .(writers := s.writers - {w}, sent := s.sent[wr.name := wr.data])
      else s.(writers := s.writers - {w})
    case AbandonWrite(w) => WithInbox(s, Without(inbox, s.writers[w].temp)).(writers := s.writers - {w})
    case CreateSentinelTemp => WithInbox(s, inbox[SENTINEL + ".tmp" := ""])
    case PublishSentinel =>
      if SENTINEL + ".tmp" in inbox then WithInbox(s, Without(inbox, SENTINEL + ".tmp")[SENTINEL := ""]) else s
    case ClearSentinel => WithInbox(s, Without(inbox, SENTINEL))
    case List(c, names) => SetPhase(s, c, Scanning(names))
    case Look(c) =>
      var rest := PhaseOf(s, c).rest;
      SetPhase(s, c, if rest[0] !in inbox || Skipped(rest[0]) then Scanning(rest[1..]) else Found(rest[0], rest[1..]))
    case Stat(c, oldEnough) =>
      var p := PhaseOf(s, c);
      SetPhase(s, c, if p.name in inbox && oldEnough then Aged(p.name, p.rest) else Scanning(p.rest))
    case Read(c) =>
      var p := PhaseOf(s, c);
      SetPhase(s, c,
        if p.name !in inbox then Bad(p.name, p.rest)
        else
          match parse(inbox[p.name])
          case Message(payload) => Holding(p.name, payload, p.rest)
          case Malformed => Bad(p.name, p.rest)
          case Undecodable => Raised)
    case MoveToArchive(c) =>
      var p := PhaseOf(s, c);
      if p.name in inbox then
        SetPhase(s, c, Scanning(p.rest))
        .(disk := s.disk.(inbox := Without(inbox, p.name), archive := s.disk.archive[p.name := inbox[p.name]]),
          delivered := s.delivered + [Delivery(c, p.name, p.payload)])
      else SetPhase(s, c, Scanning(p.rest))
    case MoveToErrors(c) =>
      var p := PhaseOf(s, c);
      if p.name in inbox then
        SetPhase(s, c, Scanning(p.rest))
        .(disk := s.disk.(inbox := Without(inbox, p.name), errors := s.disk.errors[p.name := inbox[p.name]]))
      else SetPhase(s, c, Unmovable(p.name, p.rest))
    case Unlink(c) =>
      var p := PhaseOf(s, c);
      SetPhase(WithInbox(s, Without(inbox, p.name)), c, Scanning(p.rest))
    case Return(c) => SetPhase(s, c, Idle)
  }

  ghost predicate IsRun<P>(parse: Parser<P>, s: State<P>, steps: seq<Step>)
    decreases |steps|
  {
    steps == [] || (Enabled(s, steps[0]) && IsRun(parse, After(parse, s, steps[0]), steps[1..]))
  }

  function AfterRun<P>(parse: Parser<P>, s: State<P>, steps: seq<Step>): State<P>
    requires IsRun(parse, s, steps)
    decreases |steps|
  {
    if steps == [] then s else AfterRun(parse, After(parse, s, steps[0]), steps[1..])
  }

  function Start<P>(): State<P> { State(Disk(map[], map[], map[]), map[], map[], map[], {}, []) }

  // ---- What every interleaving keeps --------------------------------------------------------

  /** A published message is in exactly one of the three places, whole. */
  ghost predicate Kept(d: Disk, name: string, data: string) {
    || (name in d.inbox && d.inbox[name] == data && name !in d.archive && name !in d.errors)
    || (name !in d.inbox && name in d.archive && d.archive[name] == data && name !in d.errors)
    || (name !in d.inbox && name !in d.archive && name in d.errors && d.errors[name] == data)
  }

  ghost predicate AllKept<P>(s: State<P>) { forall name | name in s.sent :: Kept(s.disk, name, s.sent[name]) }

  /** Only published messages carry a name a consumer looks at. */
  ghost predicate OnlySent<P>(s: State<P>) {
    && (forall name | name in s.disk.inbox :: Skipped(name) || name in s.sent)
    && (forall name | name in s.disk.archive :: name in s.sent)
    && (forall name | name in s.disk.errors :: name in s.sent)
    && (forall name | name in s.sent :: name in s.used)
    && (forall name | name in s.used :: Suffix(name) == ".json")
  }

  /** Archived messages parse, quarantined ones do not. */
  ghost predicate Sorted<P>(parse: Parser<P>, s: State<P>) {
    && (forall name | name in s.disk.archive :: parse(s.disk.archive[name]).Message?)
    && (forall name | name in s.disk.errors :: parse(s.disk.errors[name]).Malformed?)
  }

  ghost predicate WriterGood<P>(s: State<P>, w: nat)
    requires w in s.writers
  {
    var wr := s.writers[w];
    && wr.name in s.used && wr.name !in s.sent && Suffix(wr.temp) == ".tmp"
    && wr.temp != SENTINEL + ".tmp"
    && wr.written <= |wr.data| && wr.temp in s.disk.inbox && s.disk.inbox[wr.temp] == wr.data[..wr.written]
  }

  ghost predicate WritersGood<P>(s: State<P>) {
    && (forall w | w in s.writers :: WriterGood(s, w))
    && (forall v, w | v in s.writers && w in s.writers && v != w ::
          s.writers[v].temp != s.writers[w].temp && s.writers[v].name != s.writers[w].name)
  }

  /** Past the first look a consumer holds a published name; what it read is the message; a file
      it means to quarantine is malformed or gone; one it means to delete is gone. */
  ghost predicate PhaseGood<P>(parse: Parser<P>, s: State<P>, p: Phase<P>) {
    match p
    case Idle => true
    case Scanning(_) => true
    case Found(name, _) => name in s.sent
    case Aged(name, _) => name in s.sent
    case Holding(name, payload, _) => name in s.sent && parse(s.sent[name]) == Message(payload)
    case Bad(name, _) => name in s.sent && (parse(s.sent[name]).Malformed? || name !in s.disk.inbox)
    case Unmovable(name, _) => name in s.sent && name !in s.disk.inbox
    case Raised => true
  }

  ghost predicate ConsumersGood<P>(parse: Parser<P>, s: State<P>) {
    forall c | c in s.consumers :: PhaseGood(parse, s, s.consumers[c])
  }

  /** The deliveries are exactly the archived messages: each once, with its contents. */
  ghost predicate DeliveredOnce<P>(parse: Parser<P>, s: State<P>) {
    && (forall d | d in s.delivered :: IsArchived(parse, s.disk.archive, d))
    && (forall i, j | 0 <= i < j < |s.delivered| :: s.delivered[i].name != s.delivered[j].name)
    && (forall name | name in s.disk.archive :: WasDelivered(s.delivered, name))
  }

  ghost predicate IsArchived<P>(parse: Parser<P>, archive: map<string, string>, d: Delivery<P>) {
    d.name in archive && parse(archive[d.name]) == Message(d.payload)
  }

  ghost predicate WasDelivered<P>(delivered: seq<Delivery<P>>, name: string) {
    exists d :: d in delivered && d.name == name
  }

  ghost predicate Inv<P>(parse: Parser<P>, s: State<P>) {
    && AllKept(s) && OnlySent(s) && Sorted(parse, s) && WritersGood(s)
    && ConsumersGood(parse, s) && DeliveredOnce(parse, s)
  }

  lemma JsonNotSkipped(name: string)
    requires Suffix(name) == ".json"
    ensures !Skipped(name)
  {
    SentinelSuffix();
  }

  lemma TempNames(name: string, tag: string)
    ensures Suffix(TempName(name, tag)) == ".tmp" && Skipped(TempName(name, tag))
    ensures TempName(name, tag) != SENTINEL + ".tmp" && TempName(name, tag) != SENTINEL
  {
    TempSuffix(name, tag);
    assert TempName(name, tag)[0] == '.' && SENTINEL[0] == '_' && (SENTINEL + ".tmp")[0] == '_';
  }

  // ---- Steps that touch only files consumers pass over --------------------------------------

  ghost predicate SameToConsumers<P>(s: State<P>, t: State<P>) {
    && (forall name | !Skipped(name) :: name in s.disk.inbox <==> name in t.disk.inbox)
    && (forall name | !Skipped(name) && name in s.disk.inbox :: t.disk.inbox[name] == s.disk.inbox[name])
    && t.disk.archive == s.disk.archive && t.disk.errors == s.disk.errors
    && t.sent == s.sent && t.delivered == s.delivered && t.consumers == s.consumers
    && (forall name | name in s.used :: name in t.used)
    && (forall name | name in t.used :: Suffix(name) == ".json")
  }

  lemma SentVisible<P>(s: State<P>, name: string)
    requires OnlySent(s) && name in s.sent
    ensures !Skipped(name)
  {
    JsonNotSkipped(name);
  }

  lemma SameKeeps<P>(parse: Parser<P>, s: State<P>, t: State<P>)
    requires Inv(parse, s) && SameToConsumers(s, t)
    ensures AllKept(t) && OnlySent(t) && Sorted(parse, t) && ConsumersGood(parse, t) && DeliveredOnce(parse, t)
  {
    hide Skipped, WritersGood;
    SameSent(s, t);
    SameConsumers(parse, s, t);
  }

  lemma SameSent<P>(s: State<P>, t: State<P>)
    requires AllKept(s) && OnlySent(s) && SameToConsumers(s, t)
    ensures AllKept(t) && OnlySent(t)
  {
    hide Skipped;
    forall name | name in t.sent ensures Kept(t.disk, name, t.sent[name]) {
      SentVisible(s, name);
      assert Kept(s.disk, name, s.sent[name]);
    }
  }

  lemma SameConsumers<P>(parse: Parser<P>, s: State<P>, t: State<P>)
    requires OnlySent(s) && ConsumersGood(parse, s) && SameToConsumers(s, t)
    ensures ConsumersGood(parse, t)
  {
    hide Skipped;
    forall c | c in t.consumers ensures PhaseGood(parse, t, t.consumers[c]) {
      assert PhaseGood(parse, s, s.consumers[c]);
      forall name | name in s.sent ensures name in s.disk.inbox <==> name in t.disk.inbox { SentVisible(s, name); }
    }
  }

  lemma BeginWriters<P>(parse: Parser<P>, s: State<P>, step: Step)
    requires WritersGood(s) && OnlySent(s) && Enabled(s, step) && step.BeginWrite?
    ensures WritersGood(After(parse, s, step))
  {
    hide Suffix, TempName, LastDot;
    var t := After(parse, s, step);
    TempNames(step.name, step.tag);
    forall w | w in t.writers ensures WriterGood(t, w) {
      if w != step.w { assert WriterGood(s, w); }
    }
    forall v, w | v in t.writers && w in t.writers && v != w
      ensures t.writers[v].temp != t.writers[w].temp && t.writers[v].name != t.writers[w].name
    {
      assert v in s.writers ==> WriterGood(s, v);
      assert w in s.writers ==> WriterGood(s, w);
    }
  }

  lemma BeginWriteInv<P>(parse: Parser<P>, s: State<P>, step: Step)
    requires Inv(parse, s) && Enabled(s, step) && step.BeginWrite?
    ensures Inv(parse, After(parse, s, step))
  {
    hide AllKept, Sorted, ConsumersGood, DeliveredOnce, Suffix, TempName, LastDot, WritersGood;
    var t := After(parse, s, step);
    TempNames(step.name, step.tag);
    assert SameToConsumers(s, t);
    SameKeeps(parse, s, t);
    BeginWriters(parse, s, step);
  }

  lemma WriteMoreInv<P>(parse: Parser<P>, s: State<P>, step: Step)
    requires Inv(parse, s) && Enabled(s, step) && step.WriteMore?
    ensures Inv(parse, After(parse, s, step))
  {
    hide AllKept, Sorted, ConsumersGood, DeliveredOnce, Suffix;
    var t, wr := After(parse, s, step), s.writers[step.w];
    assert WriterGood(s, step.w);
    assert SameToConsumers(s, t);
    SameKeeps(parse, s, t);
    forall w | w in t.writers ensures WriterGood(t, w) { assert WriterGood(s, w); }
  }

  lemma AbandonWriteInv<P>(parse: Parser<P>, s: State<P>, step: Step)
    requires Inv(parse, s) && Enabled(s, step) && step.AbandonWrite?
    ensures Inv(parse, After(parse, s, step))
  {
    hide AllKept, Sorted, ConsumersGood, DeliveredOnce, Suffix;
    var t := After(parse, s, step);
    assert WriterGood(s, step.w);
    assert SameToConsumers(s, t);
    SameKeeps(parse, s, t);
    forall w | w in t.writers ensures WriterGood(t, w) { assert WriterGood(s, w); }
  }

  predicate IsSentinelStep(step: Step) { step.CreateSentinelTemp? || step.PublishSentinel? || step.ClearSentinel? }

  /** Only the sentinel and its temporary file have changed. */
  ghost predicate TouchesSentinel<P>(s: State<P>, t: State<P>) {
    && t == WithInbox(s, t.disk.inbox)
    && (forall name | name != SENTINEL && name != SENTINEL + ".tmp" :: name in s.disk.inbox <==> name in t.disk.inbox)
    && (forall name | name != SENTINEL && name != SENTINEL + ".tmp" && name in s.disk.inbox ::
          t.disk.inbox[name] == s.disk.inbox[name])
  }

  lemma SentinelTouches<P>(parse: Parser<P>, s: State<P>, step: Step)
    requires Enabled(s, step) && IsSentinelStep(step)
    ensures TouchesSentinel(s, After(parse, s, step))
  {}

  lemma TouchesInv<P>(parse: Parser<P>, s: State<P>, t: State<P>)
    requires Inv(parse, s) && TouchesSentinel(s, t)
    ensures Inv(parse, t)
  {
    hide AllKept, Sorted, ConsumersGood, DeliveredOnce, Suffix;
    SentinelSuffix();
    assert SameToConsumers(s, t);
    SameKeeps(parse, s, t);
    forall w | w in t.writers ensures WriterGood(t, w) {
      assert WriterGood(s, w);
      assert s.writers[w].temp != SENTINEL;
    }
  }

  lemma SentinelInv<P>(parse: Parser<P>, s: State<P>, step: Step)
    requires Inv(parse, s) && Enabled(s, step) && IsSentinelStep(step)
    ensures Inv(parse, After(parse, s, step))
  {
    hide Inv, After;
    SentinelTouches(parse, s, step);
    TouchesInv(parse, s, After(parse, s, step));
  }

  // ---- Publishing ---------------------------------------------------------------------------

  /** The rename: from this step on the whole message is in the inbox under its own name. */
  lemma PublishInv<P>(parse: Parser<P>, s: State<P>, step: Step)
    requires Inv(parse, s) && Enabled(s, step) && step.Publish?
    ensures Inv(parse, After(parse, s, step))
  {
    hide Kept, Sorted, DeliveredOnce, Suffix;
    var t, wr := After(parse, s, step), s.writers[step.w];
    assert WriterGood(s, step.w);
    assert wr.data[..wr.written] == wr.data;
    JsonNotSkipped(wr.name);
    PublishKept(s, t, step.w);
    PublishWriters(s, t, step.w);
    PublishConsumers(parse, s, t, step.w);
    assert OnlySent(t);
    assert t.disk.archive == s.disk.archive && t.disk.errors == s.disk.errors && t.delivered == s.delivered;
    assert Sorted(parse, t) && DeliveredOnce(parse, t) by { SameArchive(parse, s, t); }
  }

  ghost predicate Published<P>(s: State<P>, t: State<P>, w: nat) {
    && w in s.writers
    && var wr := s.writers[w];
       && wr.temp in s.disk.inbox
       && t.disk == s.disk.(inbox := Without(s.disk.inbox, wr.temp)[wr.name := s.disk.inbox[wr.temp]])
       && t.writers == s.writers - {w} && t.sent == s.sent[wr.name := wr.data]
       && t.used == s.used && t.consumers == s.consumers
  }

  lemma SameArchive<P>(parse: Parser<P>, s: State<P>, t: State<P>)
    requires Sorted(parse, s) && DeliveredOnce(parse, s)
    requires t.disk.archive == s.disk.archive && t.disk.errors == s.disk.errors && t.delivered == s.delivered
    ensures Sorted(parse, t) && DeliveredOnce(parse, t)
  {}

  lemma PublishKept<P>(s: State<P>, t: State<P>, w: nat)
    requires AllKept(s) && OnlySent(s) && WritersGood(s) && Published(s, t, w)
    requires s.writers[w].written == |s.writers[w].data|
    ensures AllKept(t)
  {
    hide Suffix;
    var wr := s.writers[w];
    assert WriterGood(s, w);
    forall name | name in t.sent ensures Kept(t.disk, name, t.sent[name]) {
      if name != wr.name {
        SentVisible(s, name);
        assert Kept(s.disk, name, s.sent[name]);
        assert name != wr.temp;
      }
    }
  }

  lemma PublishWriters<P>(s: State<P>, t: State<P>, w: nat)
    requires OnlySent(s) && WritersGood(s) && Published(s, t, w)
    ensures WritersGood(t)
  {
    hide Suffix;
    assert WriterGood(s, w);
    forall v | v in t.writers ensures WriterGood(t, v) {
      assert WriterGood(s, v);
      assert s.writers[v].temp != s.writers[w].name by { assert Suffix(s.writers[v].temp) == ".tmp"; }
    }
  }

  lemma PublishConsumers<P>(parse: Parser<P>, s: State<P>, t: State<P>, w: nat)
    requires OnlySent(s) && WritersGood(s) && ConsumersGood(parse, s) && Published(s, t, w)
    ensures ConsumersGood(parse, t)
  {
    hide Suffix;
    var wr := s.writers[w];
    assert WriterGood(s, w);
    forall c | c in t.consumers ensures PhaseGood(parse, t, t.consumers[c]) {
      assert PhaseGood(parse, s, s.consumers[c]);
      assert wr.name !in s.sent;
    }
  }

  // ---- Consumers ----------------------------------------------------------------------------

  predicate OnlyLooks(step: Step) {
    step.List? || step.Look? || step.Stat? || step.Read? || step.Return?
  }

  lemma LookInv<P>(parse: Parser<P>, s: State<P>, step: Step)
    requires Inv(parse, s) && Enabled(s, step) && OnlyLooks(step)
    ensures Inv(parse, After(parse, s, step))
  {
    hide AllKept, OnlySent, Sorted, DeliveredOnce, WritersGood, PhaseGood;
    var t := After(parse, s, step);
    assert t == SetPhase(s, step.c, t.consumers[step.c]);
    OthersPhases(parse, s, t, step.c);
    OwnPhase(parse, s, step);
    SameBut(parse, s, t);
  }

  lemma SameBut<P>(parse: Parser<P>, s: State<P>, t: State<P>)
    requires AllKept(s) && OnlySent(s) && Sorted(parse, s) && WritersGood(s) && DeliveredOnce(parse, s)
    requires t.disk == s.disk && t.writers == s.writers && t.sent == s.sent && t.used == s.used && t.delivered == s.delivered
    ensures AllKept(t) && OnlySent(t) && Sorted(parse, t) && WritersGood(t) && DeliveredOnce(parse, t)
  {
    forall w | w in t.writers ensures WriterGood(t, w) { assert WriterGood(s, w); }
  }

  /** A consumer's own step leaves the others good: nothing returns to the inbox. */
  lemma OthersPhases<P>(parse: Parser<P>, s: State<P>, t: State<P>, c: nat)
    requires ConsumersGood(parse, s) && t.sent == s.sent && c in t.consumers
    requires t.consumers == s.consumers[c := t.consumers[c]]
    requires forall name | name in t.disk.inbox :: name in s.disk.inbox
    ensures forall d | d in t.consumers && d != c :: PhaseGood(parse, t, t.consumers[d])
  {
    forall d | d in t.consumers && d != c ensures PhaseGood(parse, t, t.consumers[d]) {
      assert PhaseGood(parse, s, s.consumers[d]);
    }
  }

  lemma OwnPhase<P>(parse: Parser<P>, s: State<P>, step: Step)
    requires Inv(parse, s) && Enabled(s, step) && OnlyLooks(step)
    ensures var t := After(parse, s, step); PhaseGood(parse, t, t.consumers[step.c])
  {
    hide Sorted, DeliveredOnce, WritersGood, Skipped;
    var p := PhaseOf(s, step.c);
    assert PhaseGood(parse, s, p);
    if step.Read? && p.name in s.disk.inbox { assert Kept(s.disk, p.name, s.sent[p.name]); }
  }

  /** The rename that delivers. */
  lemma ArchiveInv<P>(parse: Parser<P>, s: State<P>, step: Step)
    requires Inv(parse, s) && Enabled(s, step) && step.MoveToArchive?
    ensures Inv(parse, After(parse, s, step))
  {
    hide Kept, AllKept, OnlySent, Sorted, DeliveredOnce, WritersGood, PhaseGood, Skipped;
    var t, p := After(parse, s, step), PhaseOf(s, step.c);
    HeldName(parse, s, step.c);
    OthersPhases(parse, s, t, step.c);
    Waiting(parse, t, p.rest);
    if p.name in s.disk.inbox {
      MovedKept(s, t, p.name);
      MovedWriters(s, t, p.name);
      ArchivedSorted(parse, s, t, p.name);
      ArchivedOnce(parse, s, t, step.c);
    } else {
      SameBut(parse, s, t);
    }
  }

  lemma Waiting<P>(parse: Parser<P>, s: State<P>, rest: seq<string>)
    ensures PhaseGood(parse, s, Scanning(rest))
  {}

  /** The file a consumer is about to move is a published message, in one place only. */
  lemma HeldName<P>(parse: Parser<P>, s: State<P>, c: nat)
    requires Inv(parse, s) && (PhaseOf(s, c).Holding? || PhaseOf(s, c).Bad? || PhaseOf(s, c).Unmovable?)
    ensures var p := PhaseOf(s, c);
      && p.name in s.sent && PhaseGood(parse, s, p)
      && (p.name in s.disk.inbox ==>
            s.disk.inbox[p.name] == s.sent[p.name] && p.name !in s.disk.archive && p.name !in s.disk.errors)
      && (p.Holding? ==> parse(s.sent[p.name]) == Message(p.payload))
  {
    hide OnlySent, Sorted, DeliveredOnce, WritersGood, Skipped;
    var p := PhaseOf(s, c);
    assert PhaseGood(parse, s, p);
    assert Kept(s.disk, p.name, s.sent[p.name]);
  }

  /** A file moved out of the inbox to one of the other two places. */
  ghost predicate Moved<P>(s: State<P>, t: State<P>, name: string) {
    && name in s.disk.inbox && t.disk.inbox == Without(s.disk.inbox, name)
    && (|| (t.disk.archive == s.disk.archive[name := s.disk.inbox[name]] && t.disk.errors == s.disk.errors)
        || (t.disk.errors == s.disk.errors[name := s.disk.inbox[name]] && t.disk.archive == s.disk.archive))
    && t.writers == s.writers && t.sent == s.sent && t.used == s.used
  }

  lemma MovedKept<P>(s: State<P>, t: State<P>, name: string)
    requires AllKept(s) && OnlySent(s) && Moved(s, t, name) && name in s.sent
    ensures AllKept(t) && OnlySent(t)
  {
    hide Skipped, Suffix;
    forall n | n in t.sent ensures Kept(t.disk, n, t.sent[n]) { assert Kept(s.disk, n, s.sent[n]); }
  }

  lemma MovedWriters<P>(s: State<P>, t: State<P>, name: string)
    requires OnlySent(s) && WritersGood(s) && Moved(s, t, name) && name in s.sent
    ensures WritersGood(t)
  {
    hide Skipped, Suffix;
    forall w | w in t.writers ensures WriterGood(t, w) { assert WriterGood(s, w); }
  }

  lemma ArchivedSorted<P>(parse: Parser<P>, s: State<P>, t: State<P>, name: string)
    requires Sorted(parse, s) && Moved(s, t, name) && t.disk.errors == s.disk.errors
    requires parse(s.disk.inbox[name]).Message? && name !in s.disk.errors && name !in s.disk.archive
    ensures Sorted(parse, t)
  {}

  lemma QuarantinedSorted<P>(parse: Parser<P>, s: State<P>, t: State<P>, name: string)
    requires Sorted(parse, s) && Moved(s, t, name) && t.disk.archive == s.disk.archive
    requires parse(s.disk.inbox[name]).Malformed?
    ensures Sorted(parse, t)
  {}

  lemma ArchivedOnce<P>(parse: Parser<P>, s: State<P>, t: State<P>, c: nat)
    requires DeliveredOnce(parse, s) && PhaseOf(s, c).Holding?
    requires var p := PhaseOf(s, c);
      && p.name in s.disk.inbox && p.name !in s.disk.archive
      && parse(s.disk.inbox[p.name]) == Message(p.payload)
      && t.disk.archive == s.disk.archive[p.name := s.disk.inbox[p.name]]
      && t.delivered == s.delivered + [Delivery(c, p.name, p.payload)]
    ensures DeliveredOnce(parse, t)
  {
    var p := PhaseOf(s, c);
    var d := Delivery(c, p.name, p.payload);
    assert d in t.delivered && IsArchived(parse, t.disk.archive, d);
    forall e | e in t.delivered ensures IsArchived(parse, t.disk.archive, e) {
      if e != d { assert IsArchived(parse, s.disk.archive, e); }
    }
    forall e | e in s.delivered ensures e.name != p.name { assert IsArchived(parse, s.disk.archive, e); }
    forall name | name in t.disk.archive ensures WasDelivered(t.delivered, name) {
      if name != p.name {
        assert WasDelivered(s.delivered, name);
        var e :| e in s.delivered && e.name == name;
        assert e in t.delivered;
      }
    }
  }

  lemma QuarantineInv<P>(parse: Parser<P>, s: State<P>, step: Step)
    requires Inv(parse, s) && Enabled(s, step) && step.MoveToErrors?
    ensures Inv(parse, After(parse, s, step))
  {
    hide Kept, AllKept, OnlySent, Sorted, DeliveredOnce, WritersGood, Skipped;
    var t, p := After(parse, s, step), PhaseOf(s, step.c);
    HeldName(parse, s, step.c);
    OthersPhases(parse, s, t, step.c);
    if p.name in s.disk.inbox {
      MovedKept(s, t, p.name);
      MovedWriters(s, t, p.name);
      QuarantinedSorted(parse, s, t, p.name);
      SameDelivered(parse, s, t);
    } else {
      SameBut(parse, s, t);
    }
  }

  lemma SameDelivered<P>(parse: Parser<P>, s: State<P>, t: State<P>)
    requires DeliveredOnce(parse, s) && t.disk.archive == s.disk.archive && t.delivered == s.delivered
    ensures DeliveredOnce(parse, t)
  {}

  /** The deletion of last resort finds nothing to delete: the file was lost to another consumer. */
  lemma UnlinkInv<P>(parse: Parser<P>, s: State<P>, step: Step)
    requires Inv(parse, s) && Enabled(s, step) && step.Unlink?
    ensures Inv(parse, After(parse, s, step)) && After(parse, s, step).disk == s.disk
  {
    hide Kept, AllKept, OnlySent, Sorted, DeliveredOnce, WritersGood, Skipped;
    var t, p := After(parse, s, step), PhaseOf(s, step.c);
    HeldName(parse, s, step.c);
    assert Without(s.disk.inbox, p.name) == s.disk.inbox;
    OthersPhases(parse, s, t, step.c);
    SameBut(parse, s, t);
  }

  lemma StepInv<P>(parse: Parser<P>, s: State<P>, step: Step)
    requires Inv(parse, s) && Enabled(s, step)
    ensures Inv(parse, After(parse, s, step))
  {
    hide Inv, Enabled, After;
    match step
    case BeginWrite(_, _, _, _) => BeginWriteInv(parse, s, step);
    case WriteMore(_, _) => WriteMoreInv(parse, s, step);
    case Publish(_) => PublishInv(parse, s, step);
    case AbandonWrite(_) => AbandonWriteInv(parse, s, step);
    case CreateSentinelTemp => SentinelInv(parse, s, step);
    case PublishSentinel => SentinelInv(parse, s, step);
    case ClearSentinel => SentinelInv(parse, s, step);
    case MoveToArchive(_) => ArchiveInv(parse, s, step);
    case MoveToErrors(_) => QuarantineInv(parse, s, step);
    case Unlink(_) => UnlinkInv(parse, s, step);
    case _ => LookInv(parse, s, step);
  }

  lemma {:induction false} RunInv<P>(parse: Parser<P>, s: State<P>, steps: seq<Step>)
    requires Inv(parse, s) && IsRun(parse, s, steps)
    ensures Inv(parse, AfterRun(parse, s, steps))
    decreases |steps|
  {
    hide Inv, Enabled, After;
    if steps != [] {
      StepInv(parse, s, steps[0]);
      RunInv(parse, After(parse, s, steps[0]), steps[1..]);
    }
  }

  // ---- The close sentinel -------------------------------------------------------------------

  /** Writing the sentinel shows it, and clearing it takes it away. */
  lemma SentinelShows<P>(parse: Parser<P>, s: State<P>)
    ensures "_close" in After(parse, After(parse, s, CreateSentinelTemp), PublishSentinel).disk.inbox
    ensures "_close" !in After(parse, s, ClearSentinel).disk.inbox
  {}

  lemma NotSentinel<P>(parse: Parser<P>, s: State<P>, c: nat)
    requires Inv(parse, s) && c in s.consumers
    ensures var p := s.consumers[c];
      p.Holding? || p.Bad? || p.Unmovable? ==> p.name != SENTINEL
  {
    hide AllKept, Sorted, WritersGood, DeliveredOnce, IsArchived;
    SentinelSuffix();
    assert PhaseGood(parse, s, s.consumers[c]);
  }

  lemma TempIsNotSentinel<P>(parse: Parser<P>, s: State<P>, w: nat)
    requires Inv(parse, s) && w in s.writers
    ensures s.writers[w].temp != SENTINEL
  {
    hide AllKept, OnlySent, Sorted, ConsumersGood, DeliveredOnce;
    SentinelSuffix();
    assert WriterGood(s, w);
  }

  lemma StepKeepsSentinel<P>(parse: Parser<P>, s: State<P>, step: Step)
    requires Inv(parse, s) && Enabled(s, step) && SENTINEL in s.disk.inbox && !step.ClearSentinel?
    ensures SENTINEL in After(parse, s, step).disk.inbox
  {
    hide Inv, Skipped, TempName;
    match step
    case Publish(w) => TempIsNotSentinel(parse, s, w);
    case AbandonWrite(w) => TempIsNotSentinel(parse, s, w);
    case MoveToArchive(c) => NotSentinel(parse, s, c);
    case MoveToErrors(c) => NotSentinel(parse, s, c);
    case Unlink(c) => NotSentinel(parse, s, c);
    case _ =>
  }

  /** No consumer and no writer ever takes the sentinel away: it is there until it is cleared. */
  lemma {:induction false} SentinelStays<P>(parse: Parser<P>, s: State<P>, steps: seq<Step>)
    requires Inv(parse, s) && IsRun(parse, s, steps) && "_close" in s.disk.inbox
    requires forall i | 0 <= i < |steps| :: !steps[i].ClearSentinel?
    ensures "_close" in AfterRun(parse, s, steps).disk.inbox
    decreases |steps|
  {
    hide Inv, Enabled, After;
    if steps != [] {
      StepKeepsSentinel(parse, s, steps[0]);
      StepInv(parse, s, steps[0]);
      SentinelStays(parse, After(parse, s, steps[0]), steps[1..]);
    }
  }

  lemma StartInv<P>(parse: Parser<P>)
    ensures Inv(parse, Start<P>())
  {}
}
