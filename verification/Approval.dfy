/** Approval requests and decisions on disk: every interleaving of requesters and recorders, each
    free to stop for good between any two writes. A write is a single step, since each file is
    written to a temporary name and renamed. */
module Approval {
  import opened Wrappers

  datatype Request = Request(id: string, body: string)

  /** The decision text is whatever the caller wrote; only two texts mean something. */
  datatype Response = Response(id: string, decision: string, body: string)

  datatype Record = Record(request: Request, response: Response)

  /** The four directories, file stem to contents; `logs` holds the decision copies. */
  datatype Disk = Disk(
    awaiting: map<string, Request>, granted: map<string, Record>, denied: map<string, Record>,
    requestLog: map<string, Request>, logs: map<string, Record>)

  predicate Readable(r: Response) { r.decision == "granted" || r.decision == "denied" }

  predicate Decided(d: Disk, id: string) { id in d.granted || id in d.denied }

  /** Granted first; a record whose text is neither word does not load. */
  function FindDecision(d: Disk, id: string): Option<Response> {
    if id in d.granted && Readable(d.granted[id].response) then Some(d.granted[id].response)
    else if id in d.denied && Readable(d.denied[id].response) then Some(d.denied[id].response)
    else None
  }

  function GetPending(d: Disk, id: string): Option<Request> {
    if id in d.awaiting then Some(d.awaiting[id]) else None
  }

  function WriteTarget(d: Disk, r: Record): Disk {
    if r.response.decision == "granted" then d.(granted := d.granted[r.response.id := r])
    else d.(denied := d.denied[r.response.id := r])
  }

  function Unpend(d: Disk, id: string): Disk { d.(awaiting := map i | i in d.awaiting && i != id :: d.awaiting[i]) }

  // ---- The processes ------------------------------------------------------------------------

  /** A recorder by what it has done: seen the request, read it, written the decision file,
      written the log copy. */
  datatype Recorder =
    | Checked(response: Response)
    | Loaded(record: Record)
    | Targeted(record: Record)
    | Logged(record: Record)

  /** `asked` and `decisions` are the histories of awaiting files and decision files written. */
  datatype State = State(
    disk: Disk, requesters: map<nat, Request>, recorders: map<nat, Recorder>,
    asked: seq<Request>, decisions: seq<Record>)

  datatype Step =
    | Ask(p: nat, request: Request)
    | CopyRequest(p: nat)
    | Check(p: nat, response: Response)
    | Load(p: nat)
    | Decide(p: nat)
    | CopyDecision(p: nat)
    | Remove(p: nat)

  predicate Enabled(s: State, step: Step) {
    match step
    case Ask(p, _) => p !in s.requesters
    case CopyRequest(p) => p in s.requesters
    case Check(p, _) => p !in s.recorders
    case Load(p) => p in s.recorders && s.recorders[p].Checked?
    case Decide(p) => p in s.recorders && s.recorders[p].Loaded?
    case CopyDecision(p) => p in s.recorders && s.recorders[p].Targeted?
    case Remove(p) => p in s.recorders && s.recorders[p].Logged?
  }

  /** A missing request, at the check or at the load, raises: the recorder is gone. */
  function After(s: State, step: Step): State
    requires Enabled(s, step)
  {
    match step
    case Ask(p, request) =>
      s.(disk := s.disk.(awaiting := s.disk.awaiting[request.id := request]),
         requesters := s.requesters[p := request], asked := s.asked + [request])
    case CopyRequest(p) =>
      var request := s.requesters[p];
      s.(disk := s.disk.(requestLog := s.disk.requestLog[request.id := request]), requesters := s.requesters - {p})
    case Check(p, response) =>
      if response.id in s.disk.awaiting then s.(recorders := s.recorders[p := Checked(response)]) else s
    case Load(p) =>
      var response := s.recorders[p].response;
      if response.id in s.disk.awaiting then
        s.(recorders := s.recorders[p := Loaded(Record(s.disk.awaiting[response.id], response))])
      else s.(recorders := s.recorders - {p})
    case Decide(p) =>
      var r := s.recorders[p].record;
      s.(disk := WriteTarget(s.disk, r), recorders := s.recorders[p := Targeted(r)], decisions := s.decisions + [r])
    case CopyDecision(p) =>
      var r := s.recorders[p].record;
      s.(disk := s.disk.(logs := s.disk.logs[r.response.id := r]), recorders := s.recorders[p := Logged(r)])
    case Remove(p) =>
      s.(disk := Unpend(s.disk, s.recorders[p].record.response.id), recorders := s.recorders - {p})
  }

  function Start(): State { State(Disk(map[], map[], map[], map[], map[]), map[], map[], [], []) }

  ghost predicate IsRun(s: State, steps: seq<Step>)
    decreases |steps|
  {
    steps == [] || (Enabled(s, steps[0]) && IsRun(After(s, steps[0]), steps[1..]))
  }

  function AfterRun(s: State, steps: seq<Step>): State
    requires IsRun(s, steps)
    decreases |steps|
  {
    if steps == [] then s else AfterRun(After(s, steps[0]), steps[1..])
  }

  // ---- What the directories say about the history -------------------------------------------

  predicate Grants(r: Record) { r.response.decision == "granted" }

  /** The last decision written for an id, among grants or among the rest. */
  function LastDecision(decisions: seq<Record>, id: string, grant: bool): Option<Record> {
    if decisions == [] then None
    else
      var r := decisions[|decisions| - 1];
      if r.response.id == id && Grants(r) == grant then Some(r)
      else LastDecision(decisions[..|decisions| - 1], id, grant)
  }

  function Lookup(m: map<string, Record>, id: string): Option<Record> { if id in m then Some(m[id]) else None }

  /** Each of the two decision directories holds the last such decision for every id. */
  ghost predicate Remembered(s: State) {
    && (forall id :: Lookup(s.disk.granted, id) == LastDecision(s.decisions, id, true))
    && (forall id :: Lookup(s.disk.denied, id) == LastDecision(s.decisions, id, false))
  }

  /** From its first write on, a request is awaiting, or it has a decision file and a log copy. */
  ghost predicate Safe(s: State) {
    forall request | request in s.asked :: Accounted(s.disk, request.id)
  }

  predicate Accounted(d: Disk, id: string) { id in d.awaiting || (Decided(d, id) && id in d.logs) }

  ghost predicate RecorderGood(s: State, r: Recorder) {
    match r
    case Checked(_) => true
    case Loaded(record) => Sound(s, record)
    case Targeted(record) => Sound(s, record) && Decided(s.disk, record.response.id)
    case Logged(record) => Sound(s, record) && Decided(s.disk, record.response.id) && record.response.id in s.disk.logs
  }

  /** A record joins a decision to a request that was asked under the same id. */
  ghost predicate Sound(s: State, r: Record) { r.request in s.asked && r.request.id == r.response.id }

  ghost predicate AllSound(s: State) {
    && (forall id | id in s.disk.awaiting :: s.disk.awaiting[id] in s.asked && s.disk.awaiting[id].id == id)
    && (forall r | r in s.decisions :: Sound(s, r))
    && (forall id | id in s.disk.logs :: s.disk.logs[id] in s.decisions && s.disk.logs[id].response.id == id)
  }

  ghost predicate Targets(s: State) {
    forall p | p in s.recorders :: (s.recorders[p].Targeted? || s.recorders[p].Logged? ==> s.recorders[p].record in s.decisions)
  }

  ghost predicate Inv(s: State) {
    && Remembered(s) && Safe(s) && AllSound(s) && Targets(s)
    && (forall p | p in s.recorders :: RecorderGood(s, s.recorders[p]))
  }

  lemma LastDecisionAppend(decisions: seq<Record>, r: Record)
    ensures forall id, grant ::
      (LastDecision(decisions + [r], id, grant) ==
         if r.response.id == id && Grants(r) == grant then Some(r) else LastDecision(decisions, id, grant))
  {
    assert (decisions + [r])[..|decisions|] == decisions;
  }

  lemma DecideRemembers(s: State, r: Record)
    requires Remembered(s)
    ensures Remembered(s.(disk := WriteTarget(s.disk, r), decisions := s.decisions + [r]))
  {
    hide LastDecision;
    LastDecisionAppend(s.decisions, r);
  }

  lemma SameRemembers(s: State, t: State)
    requires Remembered(s) && t.disk.granted == s.disk.granted && t.disk.denied == s.disk.denied && t.decisions == s.decisions
    ensures Remembered(t)
  {}

  lemma AskInv(s: State, step: Step)
    requires Inv(s) && Enabled(s, step) && (step.Ask? || step.CopyRequest?)
    ensures Inv(After(s, step))
  {
    hide Remembered;
    var t := After(s, step);
    SameRemembers(s, t);
    forall p | p in t.recorders ensures RecorderGood(t, t.recorders[p]) { assert RecorderGood(s, s.recorders[p]); }
    forall request | request in t.asked ensures Accounted(t.disk, request.id) {
      if request in s.asked { assert Accounted(s.disk, request.id); }
    }
  }

  lemma LookInv(s: State, step: Step)
    requires Inv(s) && Enabled(s, step) && (step.Check? || step.Load?)
    ensures Inv(After(s, step))
  {
    hide Remembered, Safe, Accounted;
    var t := After(s, step);
    SameRemembers(s, t);
    assert Safe(t) by { SameSafe(s, t); }
    forall p | p in t.recorders ensures RecorderGood(t, t.recorders[p]) {
      if p != step.p { assert RecorderGood(s, s.recorders[p]); }
    }
  }

  lemma SameSafe(s: State, t: State)
    requires Safe(s) && t.asked == s.asked && t.disk == s.disk
    ensures Safe(t)
  {}

  lemma DecideInv(s: State, step: Step)
    requires Inv(s) && Enabled(s, step) && step.Decide?
    ensures Inv(After(s, step))
  {
    hide Remembered, Grants;
    var t, r := After(s, step), s.recorders[step.p].record;
    assert RecorderGood(s, s.recorders[step.p]);
    DecideRemembers(s, r);
    SameRemembers(s.(disk := WriteTarget(s.disk, r), decisions := s.decisions + [r]), t);
    forall p | p in t.recorders ensures RecorderGood(t, t.recorders[p]) {
      if p != step.p { assert RecorderGood(s, s.recorders[p]); }
    }
    forall request | request in t.asked ensures Accounted(t.disk, request.id) {
      assert Accounted(s.disk, request.id);
    }
  }

  lemma CopyInv(s: State, step: Step)
    requires Inv(s) && Enabled(s, step) && step.CopyDecision?
    ensures Inv(After(s, step))
  {
    hide Remembered, Grants;
    var t, r := After(s, step), s.recorders[step.p].record;
    assert RecorderGood(s, s.recorders[step.p]);
    SameRemembers(s, t);
    forall p | p in t.recorders ensures RecorderGood(t, t.recorders[p]) {
      if p != step.p { assert RecorderGood(s, s.recorders[p]); }
    }
    forall request | request in t.asked ensures Accounted(t.disk, request.id) {
      assert Accounted(s.disk, request.id);
    }
  }

  lemma RemoveInv(s: State, step: Step)
    requires Inv(s) && Enabled(s, step) && step.Remove?
    ensures Inv(After(s, step))
  {
    hide Remembered;
    var t := After(s, step);
    SameRemembers(s, t);
    assert RecorderGood(s, s.recorders[step.p]);
    forall p | p in t.recorders ensures RecorderGood(t, t.recorders[p]) { assert RecorderGood(s, s.recorders[p]); }
    forall request | request in t.asked ensures Accounted(t.disk, request.id) {
      assert Accounted(s.disk, request.id);
    }
  }

  lemma StepInv(s: State, step: Step)
    requires Inv(s) && Enabled(s, step)
    ensures Inv(After(s, step))
  {
    hide Inv, After;
    match step
    case Ask(_, _) => AskInv(s, step);
    case CopyRequest(_) => AskInv(s, step);
    case Check(_, _) => LookInv(s, step);
    case Load(_) => LookInv(s, step);
    case Decide(_) => DecideInv(s, step);
    case CopyDecision(_) => CopyInv(s, step);
    case Remove(_) => RemoveInv(s, step);
  }

  lemma {:induction false} RunInv(s: State, steps: seq<Step>)
    requires Inv(s) && IsRun(s, steps)
    ensures Inv(AfterRun(s, steps))
    decreases |steps|
  {
    hide Inv, After, Enabled;
    if steps != [] {
      StepInv(s, steps[0]);
      RunInv(After(s, steps[0]), steps[1..]);
    }
  }

  ghost predicate Reached(steps: seq<Step>, s: State) { IsRun(Start(), steps) && s == AfterRun(Start(), steps) }

  lemma ReachedInv(steps: seq<Step>, s: State)
    requires Reached(steps, s)
    ensures Inv(s)
  {
    assert Inv(Start());
    RunInv(Start(), steps);
  }

  /** At every crash point of every interleaving, a request once written is still awaiting or has
      both its decision file and its log copy; every decision on disk joins a response to a
      request asked under the same id. */
  lemma CrashSafe(steps: seq<Step>, s: State, request: Request)
    requires Reached(steps, s) && request in s.asked
    ensures request.id in s.disk.awaiting || (Decided(s.disk, request.id) && request.id in s.disk.logs)
    ensures request.id in s.disk.awaiting ==> s.disk.awaiting[request.id] in s.asked
    ensures forall r | r in s.decisions :: r.request in s.asked && r.request.id == r.response.id
  {
    hide Remembered;
    ReachedInv(steps, s);
    assert Accounted(s.disk, request.id);
  }

  /** Every request asked has its log copy, or its requester has still to write it. */
  ghost predicate Copied(s: State) {
    && (forall request | request in s.asked :: request.id in s.disk.requestLog || Copying(s, request.id))
    && (forall id | id in s.disk.requestLog :: s.disk.requestLog[id] in s.asked && s.disk.requestLog[id].id == id)
    && (forall p | p in s.requesters :: s.requesters[p] in s.asked)
  }

  ghost predicate Copying(s: State, id: string) { exists p :: p in s.requesters && s.requesters[p].id == id }

  lemma StepCopied(s: State, step: Step)
    requires Enabled(s, step) && Copied(s)
    ensures Copied(After(s, step))
  {
    var t := After(s, step);
    forall request | request in t.asked ensures request.id in t.disk.requestLog || Copying(t, request.id) {
      if request !in s.asked {
        assert t.requesters[step.p] == request;
      } else if Copying(s, request.id) {
        var p :| p in s.requesters && s.requesters[p].id == request.id;
        if p in t.requesters { assert t.requesters[p] == s.requesters[p]; }
      }
    }
  }

  lemma {:induction false} RunCopied(s: State, steps: seq<Step>)
    requires Copied(s) && IsRun(s, steps)
    ensures Copied(AfterRun(s, steps))
    decreases |steps|
  {
    hide Copied, After, Enabled;
    if steps != [] {
      StepCopied(s, steps[0]);
      RunCopied(After(s, steps[0]), steps[1..]);
    }
  }

  /** At every crash point a request once written has a log copy of a request asked under its id, unless
      a requester under that id stands, or has stopped for good, before it. */
  lemma RequestsLogged(steps: seq<Step>, s: State, request: Request)
    requires Reached(steps, s) && request in s.asked
    ensures request.id !in s.disk.requestLog ==> exists p :: p in s.requesters && s.requesters[p].id == request.id
    ensures request.id in s.disk.requestLog ==>
      s.disk.requestLog[request.id] in s.asked && s.disk.requestLog[request.id].id == request.id
  {
    assert Copied(Start());
    RunCopied(Start(), steps);
  }

  /** What `find_decision` answers in every reachable state: the last grant if there is one,
      otherwise the last other decision if its text is "denied". */
  lemma FindIsHistory(steps: seq<Step>, s: State, id: string)
    requires Reached(steps, s)
    ensures FindDecision(s.disk, id) ==
      var grant, other := LastDecision(s.decisions, id, true), LastDecision(s.decisions, id, false);
      if grant.Some? then Some(grant.value.response)
      else if other.Some? && other.value.response.decision == "denied" then Some(other.value.response)
      else None
  {
    ReachedInv(steps, s);
    assert Lookup(s.disk.granted, id) == LastDecision(s.decisions, id, true);
    assert Lookup(s.disk.denied, id) == LastDecision(s.decisions, id, false);
    LastIsGrant(s.decisions, id, true);
    LastIsGrant(s.decisions, id, false);
  }

  lemma {:induction false} LastIsGrant(decisions: seq<Record>, id: string, grant: bool)
    ensures var r := LastDecision(decisions, id, grant);
      r.Some? ==> r.value in decisions && r.value.response.id == id && Grants(r.value) == grant
    ensures LastDecision(decisions, id, grant).None? ==>
      forall r | r in decisions && r.response.id == id :: Grants(r) != grant
    decreases |decisions|
  {
    if decisions != [] {
      var n := |decisions| - 1;
      LastIsGrant(decisions[..n], id, grant);
      assert decisions == decisions[..n] + [decisions[n]];
    }
  }

  // ---- Pending and decided at once ----------------------------------------------------------

  ghost predicate FreshAsk(s: State, step: Step) {
    step.Ask? ==> forall r | r in s.asked :: r.id != step.request.id
  }

  ghost predicate IsFreshRun(s: State, steps: seq<Step>)
    decreases |steps|
  {
    steps == [] || (Enabled(s, steps[0]) && FreshAsk(s, steps[0]) && IsFreshRun(After(s, steps[0]), steps[1..]))
  }

  /** Some recorder has written the decision file of this id and not yet removed the request. */
  ghost predicate Between(s: State, id: string) {
    exists p :: p in s.recorders && IsBetween(s.recorders[p], id)
  }

  predicate IsBetween(r: Recorder, id: string) { (r.Targeted? || r.Logged?) && r.record.response.id == id }

  ghost predicate OnlyBetween(s: State) {
    forall id :: id in s.disk.awaiting && Decided(s.disk, id) ==> Between(s, id)
  }

  lemma DecidedWasAsked(s: State, id: string)
    requires Inv(s) && Decided(s.disk, id)
    ensures exists r :: r in s.asked && r.id == id
  {
    assert Lookup(s.disk.granted, id) == LastDecision(s.decisions, id, true);
    assert Lookup(s.disk.denied, id) == LastDecision(s.decisions, id, false);
    LastIsGrant(s.decisions, id, true);
    LastIsGrant(s.decisions, id, false);
    var grant, other := LastDecision(s.decisions, id, true), LastDecision(s.decisions, id, false);
    var r := if grant.Some? then grant.value else other.value;
    assert Sound(s, r);
  }

  lemma StepOnlyBetween(s: State, step: Step)
    requires Inv(s) && Enabled(s, step) && FreshAsk(s, step) && OnlyBetween(s)
    ensures OnlyBetween(After(s, step))
  {
    hide Inv;
    var t := After(s, step);
    forall id | id in t.disk.awaiting && Decided(t.disk, id) ensures Between(t, id) {
      if step.Ask? && Decided(s.disk, id) { DecidedWasAsked(s, id); }
      if step.Decide? && s.recorders[step.p].record.response.id == id {
        assert IsBetween(t.recorders[step.p], id);
      } else {
        assert Between(s, id);
        var p :| p in s.recorders && IsBetween(s.recorders[p], id);
        assert IsBetween(t.recorders[p], id);
      }
    }
  }

  lemma {:induction false} RunOnlyBetween(s: State, steps: seq<Step>)
    requires Inv(s) && IsFreshRun(s, steps) && OnlyBetween(s)
    ensures IsRun(s, steps) && OnlyBetween(AfterRun(s, steps))
    decreases |steps|
  {
    hide Inv, After, Enabled, OnlyBetween, FreshAsk;
    if steps != [] {
      StepOnlyBetween(s, steps[0]);
      StepInv(s, steps[0]);
      RunOnlyBetween(After(s, steps[0]), steps[1..]);
    }
  }

  lemma BetweenDecided(s: State, id: string)
    requires Inv(s) && Between(s, id)
    ensures Decided(s.disk, id)
  {
    hide Remembered, Safe, AllSound, Targets;
    var p :| p in s.recorders && IsBetween(s.recorders[p], id);
    assert RecorderGood(s, s.recorders[p]);
  }

  /** With fresh ids, a request still awaiting is decided if and only if some recorder stands, or
      has stopped for good, between its decision file and the removal of the request. */
  lemma PendingAndDecided(steps: seq<Step>, id: string)
    requires IsFreshRun(Start(), steps)
    ensures IsRun(Start(), steps)
    ensures var s := AfterRun(Start(), steps);
      id in s.disk.awaiting ==> (Decided(s.disk, id) <==> Between(s, id))
  {
    assert Inv(Start()) && OnlyBetween(Start());
    hide Inv, OnlyBetween, IsFreshRun, Decided;
    RunOnlyBetween(Start(), steps);
    RunInv(Start(), steps);
    var s := AfterRun(Start(), steps);
    if Between(s, id) { BetweenDecided(s, id); }
    OnlyBetweenAt(s, id);
  }

  lemma OnlyBetweenAt(s: State, id: string)
    requires OnlyBetween(s)
    ensures id in s.disk.awaiting && Decided(s.disk, id) ==> Between(s, id)
  {}

  // ---- Whole calls, one after the other -----------------------------------------------------

  datatype Op = RequestOp(request: Request) | DecideOp(response: Response)

  function Perform(d: Disk, op: Op): Disk {
    match op
    case RequestOp(request) =>
      d.(awaiting := d.awaiting[request.id := request], requestLog := d.requestLog[request.id := request])
    case DecideOp(response) =>
      if response.id !in d.awaiting then d
      else
        var r := Record(d.awaiting[response.id], response);
        Unpend(WriteTarget(d, r).(logs := d.logs[response.id := r]), response.id)
  }

  function PerformAll(ops: seq<Op>): Disk {
    if ops == [] then Start().disk else Perform(PerformAll(ops[..|ops| - 1]), ops[|ops| - 1])
  }

  ghost predicate FreshIds(ops: seq<Op>) {
    forall i, j | 0 <= i < j < |ops| && ops[i].RequestOp? && ops[j].RequestOp? :: ops[i].request.id != ops[j].request.id
  }

  /** The life of one request, with no files in it. */
  datatype Status = Unknown | Pending(request: Request) | Settled(record: Record)

  function StatusOf(ops: seq<Op>, id: string): Status {
    if ops == [] then Unknown
    else
      var before := StatusOf(ops[..|ops| - 1], id);
      match ops[|ops| - 1]
      case RequestOp(request) => if request.id == id then Pending(request) else before
      case DecideOp(response) =>
        if response.id == id && before.Pending? then Settled(Record(before.request, response)) else before
  }

  /** What each stage of that life looks like on disk. */
  ghost predicate Shows(d: Disk, id: string, status: Status) {
    match status
    case Unknown => id !in d.awaiting && !Decided(d, id) && id !in d.requestLog && id !in d.logs
    case Pending(request) =>
      && id in d.awaiting && d.awaiting[id] == request && !Decided(d, id)
      && id in d.requestLog && d.requestLog[id] == request && id !in d.logs
    case Settled(r) =>
      && id !in d.awaiting && r.request.id == id == r.response.id
      && Lookup(d.granted, id) == (if r.response.decision == "granted" then Some(r) else None)
      && Lookup(d.denied, id) == (if r.response.decision == "granted" then None else Some(r))
      && Lookup(d.logs, id) == Some(r)
      && id in d.requestLog && d.requestLog[id] == r.request
  }

  lemma {:induction false} UnknownUntilAsked(ops: seq<Op>, id: string)
    requires forall i | 0 <= i < |ops| && ops[i].RequestOp? :: ops[i].request.id != id
    ensures StatusOf(ops, id) == Unknown
    decreases |ops|
  {
    if ops != [] { UnknownUntilAsked(ops[..|ops| - 1], id); }
  }

  lemma {:induction false} PendingIsItsOwn(ops: seq<Op>, id: string)
    ensures var st := StatusOf(ops, id); st.Pending? ==> st.request.id == id
    decreases |ops|
  {
    if ops != [] { PendingIsItsOwn(ops[..|ops| - 1], id); }
  }

  /** With fresh ids and calls that complete, the files tell the life of every request exactly:
      never pending and decided, never granted and denied. */
  lemma {:induction false} SerialStatus(ops: seq<Op>, id: string)
    requires FreshIds(ops)
    ensures Shows(PerformAll(ops), id, StatusOf(ops, id))
    decreases |ops|
  {
    if ops != [] {
      var n := |ops| - 1;
      SerialStatus(ops[..n], id);
      PendingIsItsOwn(ops[..n], id);
      if ops[n].RequestOp? && ops[n].request.id == id { UnknownUntilAsked(ops[..n], id); }
    }
  }

  /** What `get_pending_approval` finds is the request still waiting for its decision. */
  lemma PendingIsFound(ops: seq<Op>, id: string)
    requires FreshIds(ops)
    ensures GetPending(PerformAll(ops), id) ==
      match StatusOf(ops, id)
      case Pending(request) => Some(request)
      case _ => None
  {
    SerialStatus(ops, id);
  }

  /** The decision found is the one recorded, if and only if its text is one of the two words. */
  lemma FindsTheRecorded(ops: seq<Op>, id: string)
    requires FreshIds(ops) && StatusOf(ops, id).Settled?
    ensures var response := StatusOf(ops, id).record.response;
      (FindDecision(PerformAll(ops), id) ==
         if response.decision == "granted" || response.decision == "denied" then Some(response) else None)
    ensures GetPending(PerformAll(ops), id) == None
  {
    SerialStatus(ops, id);
  }

  // A call is a run of its process's steps.

  function DecideSteps(p: nat, response: Response): seq<Step> {
    [Check(p, response), Load(p), Decide(p), CopyDecision(p), Remove(p)]
  }

  lemma RequestIsRun(s: State, p: nat, request: Request)
    requires p !in s.requesters
    ensures IsRun(s, [Ask(p, request), CopyRequest(p)])
    ensures AfterRun(s, [Ask(p, request), CopyRequest(p)])
      == s.(disk := Perform(s.disk, RequestOp(request)), asked := s.asked + [request])
  {
    var t := After(s, Ask(p, request));
    OneStep(t, CopyRequest(p));
    assert [Ask(p, request), CopyRequest(p)][1..] == [CopyRequest(p)];
    assert s.requesters[p := request] - {p} == s.requesters;
  }

  lemma OneStep(s: State, step: Step)
    requires Enabled(s, step)
    ensures IsRun(s, [step]) && AfterRun(s, [step]) == After(s, step)
  {
    assert [step][1..] == [];
  }

  /** The states a recorder passes through, alone; `k` steps taken. */
  function DecideState(s: State, p: nat, response: Response, k: nat): State
    requires response.id in s.disk.awaiting && k <= 5
  {
    var r := Record(s.disk.awaiting[response.id], response);
    var d := if k < 3 then s.disk else WriteTarget(s.disk, r);
    var e := if k < 4 then d else d.(logs := d.logs[response.id := r]);
    var decisions := if k < 3 then s.decisions else s.decisions + [r];
    if k == 5 then s.(disk := Unpend(e, response.id), decisions := decisions)
    else if k == 0 then s
    else
      s.(disk := e, decisions := decisions,
         recorders := s.recorders[p := if k == 1 then Checked(response) else if k == 2 then Loaded(r)
                                       else if k == 3 then Targeted(r) else Logged(r)])
  }

  lemma TargetKeepsAwaiting(d: Disk, r: Record)
    ensures WriteTarget(d, r).awaiting == d.awaiting
  {}

  lemma DecideNext(s: State, p: nat, response: Response, k: nat)
    requires p !in s.recorders && response.id in s.disk.awaiting && k < 5
    ensures var t, step := DecideState(s, p, response, k), DecideSteps(p, response)[k];
      Enabled(t, step) && After(t, step) == DecideState(s, p, response, k + 1)
  {
    hide WriteTarget, Unpend;
    var r := Record(s.disk.awaiting[response.id], response);
    TargetKeepsAwaiting(s.disk, r);
    assert s.recorders[p := Logged(r)] - {p} == s.recorders;
  }

  lemma {:induction false} RunConcat(s: State, a: seq<Step>, b: seq<Step>)
    requires IsRun(s, a) && IsRun(AfterRun(s, a), b)
    ensures IsRun(s, a + b) && AfterRun(s, a + b) == AfterRun(AfterRun(s, a), b)
    decreases |a|
  {
    hide Enabled, After;
    if a == [] {
      assert a + b == b;
    } else {
      assert (a + b)[0] == a[0] && (a + b)[1..] == a[1..] + b;
      RunConcat(After(s, a[0]), a[1..], b);
    }
  }

  lemma {:induction false} DecidePrefix(s: State, p: nat, response: Response, k: nat)
    requires p !in s.recorders && response.id in s.disk.awaiting && k <= 5
    ensures IsRun(s, DecideSteps(p, response)[..k])
    ensures AfterRun(s, DecideSteps(p, response)[..k]) == DecideState(s, p, response, k)
  {
    hide Enabled, After;
    var steps := DecideSteps(p, response);
    if k > 0 {
      DecidePrefix(s, p, response, k - 1);
      DecideNext(s, p, response, k - 1);
      OneStep(DecideState(s, p, response, k - 1), steps[k - 1]);
      RunConcat(s, steps[..k - 1], [steps[k - 1]]);
      assert steps[..k] == steps[..k - 1] + [steps[k - 1]];
    }
  }

  lemma WindowOf(s: State, p: nat, response: Response, k: nat)
    requires response.id in s.disk.awaiting && !Decided(s.disk, response.id) && k <= 5
    ensures var d := DecideState(s, p, response, k).disk;
      && (response.id in d.awaiting && Decided(d, response.id) <==> 3 <= k < 5)
      && (k == 5 ==> d == Perform(s.disk, DecideOp(response)))
  {}

  /** A recorder that stops after k of its five steps leaves a pending request both pending and
      decided exactly when it had written the decision file and not removed the request; all five
      steps are the whole call. */
  lemma CrashWindow(ops: seq<Op>, s: State, p: nat, response: Response, k: nat)
    requires FreshIds(ops) && s.disk == PerformAll(ops) && p !in s.recorders && k <= 5
    requires StatusOf(ops, response.id).Pending?
    ensures IsRun(s, DecideSteps(p, response)[..k])
    ensures var d := AfterRun(s, DecideSteps(p, response)[..k]).disk;
      && (response.id in d.awaiting && Decided(d, response.id) <==> 3 <= k < 5)
      && (k == 5 ==> d == Perform(PerformAll(ops), DecideOp(response)))
  {
    hide IsRun, AfterRun, FreshIds, StatusOf, PerformAll, DecideSteps, DecideState, Perform;
    SerialStatus(ops, response.id);
    DecidePrefix(s, p, response, k);
    WindowOf(s, p, response, k);
  }

  /** A run that shows the window matters: a grant that stops before its last step, then a denial.
      The request ends granted and denied, and the older grant is what is found. */
  lemma StoppedGrantOutlivesDenial(request: Request) returns (d: Disk)
    ensures var grant, denial := Response(request.id, "granted", ""), Response(request.id, "denied", "");
      var s := DecideState(AskedState(request), 0, grant, 4);
      && Reachable(s) && d == Perform(s.disk, DecideOp(denial))
    ensures request.id in d.granted && request.id in d.denied && request.id !in d.awaiting
    ensures FindDecision(d, request.id) == Some(Response(request.id, "granted", ""))
    ensures d.logs[request.id].response.decision == "denied"
  {
    var grant, denial := Response(request.id, "granted", ""), Response(request.id, "denied", "");
    var asked := AskedState(request);
    RequestIsRun(Start(), 0, request);
    assert Start().asked + [request] == [request];
    DecidePrefix(asked, 0, grant, 4);
    var steps := [Ask(0, request), CopyRequest(0)];
    RunConcat(Start(), steps, DecideSteps(0, grant)[..4]);
    assert Reached(steps + DecideSteps(0, grant)[..4], DecideState(asked, 0, grant, 4));
    d := Perform(DecideState(asked, 0, grant, 4).disk, DecideOp(denial));
  }

  ghost predicate Reachable(s: State) { exists steps :: Reached(steps, s) }

  function AskedState(request: Request): State {
    Start().(disk := Perform(Start().disk, RequestOp(request)), asked := [request])
  }

  // ---- Granted and denied at once -----------------------------------------------------------

  /** The recorder has read the request of this id and means to decide it. */
  predicate Holds(r: Recorder, id: string) { !r.Checked? && r.record.response.id == id }

  /** Two recorders that would decide the id differently hold its request at the same time. */
  ghost predicate Met(s: State, id: string) {
    exists p, q :: p in s.recorders && q in s.recorders && Holds(s.recorders[p], id) && Holds(s.recorders[q], id)
      && Grants(s.recorders[p].record) != Grants(s.recorders[q].record)
  }

  /** The decisions written for the id agree, and all who hold its request agree with them. */
  ghost predicate OneWay(s: State, id: string) {
    && (forall d, e | d in s.decisions && e in s.decisions && d.response.id == id == e.response.id :: Grants(d) == Grants(e))
    && (forall d, p | d in s.decisions && d.response.id == id && p in s.recorders && Holds(s.recorders[p], id) ::
          Grants(s.recorders[p].record) == Grants(d))
  }

  lemma DecisionStands(s: State, d: Record)
    requires Remembered(s) && d in s.decisions
    ensures if Grants(d) then d.response.id in s.disk.granted else d.response.id in s.disk.denied
  {
    var id := d.response.id;
    assert Lookup(s.disk.granted, id) == LastDecision(s.decisions, id, true);
    assert Lookup(s.disk.denied, id) == LastDecision(s.decisions, id, false);
    LastIsGrant(s.decisions, id, true);
    LastIsGrant(s.decisions, id, false);
  }

  lemma FileWasDecided(s: State, id: string, grant: bool) returns (d: Record)
    requires Remembered(s) && (if grant then id in s.disk.granted else id in s.disk.denied)
    ensures d in s.decisions && d.response.id == id && Grants(d) == grant
  {
    assert Lookup(s.disk.granted, id) == LastDecision(s.decisions, id, true);
    assert Lookup(s.disk.denied, id) == LastDecision(s.decisions, id, false);
    LastIsGrant(s.decisions, id, grant);
    d := LastDecision(s.decisions, id, grant).value;
  }

  /** A recorder that reads a request already decided meets the one that decided it. */
  lemma LoadMeets(s: State, step: Step, id: string)
    requires Inv(s) && OnlyBetween(s) && Enabled(s, step) && step.Load? && OneWay(s, id)
    ensures OneWay(After(s, step), id) || Met(After(s, step), id)
  {
    hide AllSound, Safe, Grants;
    var t := After(s, step);
    if d :| d in s.decisions && d.response.id == id && step.p in t.recorders && Holds(t.recorders[step.p], id) {
      DecisionStands(s, d);
      assert Between(s, id);
      var b :| b in s.recorders && IsBetween(s.recorders[b], id);
      assert s.recorders[b].record in s.decisions && Holds(s.recorders[b], id);
      assert b != step.p && t.recorders[b] == s.recorders[b];
    }
  }

  lemma StepMeets(s: State, step: Step, id: string)
    requires Inv(s) && OnlyBetween(s) && Enabled(s, step) && OneWay(s, id) && !Met(s, id)
    ensures OneWay(After(s, step), id) || Met(After(s, step), id)
  {
    hide AllSound, Safe, Remembered, Grants, OnlyBetween, RecorderGood;
    if step.Load? { LoadMeets(s, step, id); }
  }

  lemma {:induction false} RunMeets(s: State, steps: seq<Step>, id: string) returns (k: nat)
    requires Inv(s) && OnlyBetween(s) && IsFreshRun(s, steps) && OneWay(s, id)
    ensures k <= |steps| && IsRun(s, steps) && IsRun(s, steps[..k])
    ensures OneWay(AfterRun(s, steps), id) || Met(AfterRun(s, steps[..k]), id)
    decreases |steps|
  {
    hide Inv, OnlyBetween, After, Enabled, OneWay, Met, FreshAsk;
    k := 0;
    RunOnlyBetween(s, steps);
    if steps != [] && !Met(s, id) {
      StepInv(s, steps[0]);
      StepOnlyBetween(s, steps[0]);
      var t := After(s, steps[0]);
      FreshIsRun(t, steps[1..]);
      if OneWay(t, id) {
        k := RunMeets(t, steps[1..], id);
      } else {
        StepMeets(s, steps[0], id);
      }
      k := k + 1;
      assert steps[..k][0] == steps[0] && steps[..k][1..] == steps[1..][..k - 1];
    }
  }

  lemma {:induction false} FreshIsRun(s: State, steps: seq<Step>)
    requires IsFreshRun(s, steps)
    ensures IsRun(s, steps)
    decreases |steps|
  {
    hide After, Enabled, FreshAsk;
    if steps != [] { FreshIsRun(After(s, steps[0]), steps[1..]); }
  }

  /** Who holds a request decides it, or stops before. */
  ghost predicate DecidedOrStopped(s: State, p: nat, r: Record) {
    r in s.decisions || (p in s.recorders && s.recorders[p] == Loaded(r))
  }

  lemma StepDecides(s: State, step: Step, p: nat, r: Record)
    requires Enabled(s, step) && DecidedOrStopped(s, p, r)
    ensures DecidedOrStopped(After(s, step), p, r)
  {}

  lemma {:induction false} RunDecides(s: State, steps: seq<Step>, p: nat, r: Record)
    requires IsRun(s, steps) && DecidedOrStopped(s, p, r)
    ensures DecidedOrStopped(AfterRun(s, steps), p, r)
    decreases |steps|
  {
    hide After, Enabled, DecidedOrStopped;
    if steps != [] {
      StepDecides(s, steps[0], p, r);
      RunDecides(After(s, steps[0]), steps[1..], p, r);
    }
  }

  lemma {:induction false} RunSplit(s: State, steps: seq<Step>, k: nat)
    requires IsRun(s, steps) && k <= |steps|
    ensures IsRun(s, steps[..k]) && IsRun(AfterRun(s, steps[..k]), steps[k..])
    ensures AfterRun(AfterRun(s, steps[..k]), steps[k..]) == AfterRun(s, steps)
    decreases |steps|
  {
    hide After, Enabled;
    if k == 0 {
      assert steps[..0] == [] && steps[0..] == steps;
    } else {
      assert steps[..k][0] == steps[0] && steps[..k][1..] == steps[1..][..k - 1] && steps[k..] == steps[1..][k - 1..];
      RunSplit(After(s, steps[0]), steps[1..], k - 1);
    }
  }

  ghost predicate MetAt(steps: seq<Step>, id: string, k: nat)
    requires IsRun(Start(), steps)
  {
    k <= |steps| && IsRun(Start(), steps[..k]) && Met(AfterRun(Start(), steps[..k]), id)
  }

  lemma MeetingLeavesBoth(steps: seq<Step>, id: string, k: nat)
    requires IsRun(Start(), steps) && MetAt(steps, id, k)
    requires forall p, r :: p in AfterRun(Start(), steps).recorders && AfterRun(Start(), steps).recorders[p] == Loaded(r) ==>
      r.response.id != id
    ensures var d := AfterRun(Start(), steps).disk; id in d.granted && id in d.denied
  {
    hide IsRun, AfterRun, AllSound, Safe, Remembered;
    var s, t := AfterRun(Start(), steps[..k]), AfterRun(Start(), steps);
    RunSplit(Start(), steps, k);
    assert Reached(steps[..k], s) && Reached(steps, t);
    ReachedInv(steps[..k], s);
    ReachedInv(steps, t);
    var p, q :| p in s.recorders && q in s.recorders && Holds(s.recorders[p], id) && Holds(s.recorders[q], id)
      && Grants(s.recorders[p].record) != Grants(s.recorders[q].record);
    assert DecidedOrStopped(s, p, s.recorders[p].record) && DecidedOrStopped(s, q, s.recorders[q].record);
    RunDecides(s, steps[k..], p, s.recorders[p].record);
    RunDecides(s, steps[k..], q, s.recorders[q].record);
    DecisionStands(t, s.recorders[p].record);
    DecisionStands(t, s.recorders[q].record);
  }

  /** Over fresh runs in which no recorder is left between reading a request and deciding it: a
      request ends both granted and denied if and only if at some moment two recorders that would
      decide it differently were holding it. */
  lemma BothFilesIff(steps: seq<Step>, id: string)
    requires IsFreshRun(Start(), steps)
    requires IsRun(Start(), steps)
    requires forall p, r :: p in AfterRun(Start(), steps).recorders && AfterRun(Start(), steps).recorders[p] == Loaded(r) ==>
      r.response.id != id
    ensures var d := AfterRun(Start(), steps).disk;
      id in d.granted && id in d.denied <==> exists k :: MetAt(steps, id, k)
  {
    hide IsRun, AfterRun, IsFreshRun, Met, AllSound, Safe, Remembered;
    var t := AfterRun(Start(), steps);
    if k :| MetAt(steps, id, k) { MeetingLeavesBoth(steps, id, k); }
    if id in t.disk.granted && id in t.disk.denied {
      NothingDecided(id);
      var k := RunMeets(Start(), steps, id);
      assert Reached(steps, t);
      ReachedInv(steps, t);
      var d := FileWasDecided(t, id, true);
      var e := FileWasDecided(t, id, false);
      assert !OneWay(t, id);
      assert MetAt(steps, id, k);
    }
  }

  lemma NothingDecided(id: string)
    ensures Inv(Start()) && OnlyBetween(Start()) && OneWay(Start(), id)
  {}

  // ---- The calls as they are made -----------------------------------------------------------

  class ApprovalStore {
    var awaiting: map<string, Request>
    var granted: map<string, Record>
    var denied: map<string, Record>
    var requestLog: map<string, Request>
    var logs: map<string, Record>

    function Contents(): Disk
      reads this
    {
      Disk(awaiting, granted, denied, requestLog, logs)
    }

    constructor ()
      ensures Contents() == PerformAll([])
    {
      awaiting, granted, denied, requestLog, logs := map[], map[], map[], map[], map[];
    }

    method WriteApprovalRequest(request: Request)
      modifies this
      ensures Contents() == Perform(old(Contents()), RequestOp(request))
    {
      awaiting := awaiting[request.id := request];
      requestLog := requestLog[request.id := request];
    }

    /** The decision file, then its copy, and only then is the request removed. */
    method RecordDecision(response: Response) returns (r: Result<string, string>)
      modifies this
      ensures Contents() == Perform(old(Contents()), DecideOp(response))
      ensures r == if response.id !in old(awaiting) then Err("no pending approval request with this id")
                   else Ok(if response.decision == "granted" then "approval_granted" else "approval_denied")
    {
      if response.id !in awaiting {
        return Err("no pending approval request with this id");
      }
      var merged := Record(awaiting[response.id], response);
      if response.decision == "granted" {
        granted := granted[response.id := merged];
        r := Ok("approval_granted");
      } else {
        denied := denied[response.id := merged];
        r := Ok("approval_denied");
      }
      logs := logs[response.id := merged];
      awaiting := map i | i in awaiting && i != response.id :: awaiting[i];
    }

    method FindDecisionFor(id: string) returns (found: Option<Response>)
      ensures found == FindDecision(Contents(), id)
    {
      var keys := ["granted", "denied"];
      for k := 0 to |keys|
        invariant k >= 1 ==> !(id in granted && Readable(granted[id].response))
        invariant k >= 2 ==> !(id in denied && Readable(denied[id].response))
      {
        var directory := if keys[k] == "granted" then granted else denied;
        if id in directory && Readable(directory[id].response) {
          return Some(directory[id].response);
        }
      }
      return None;
    }
  }
}
