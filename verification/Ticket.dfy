/** Tickets: the state machine, the order of its file writes, and what their directory proves at
    every crash point. */
module Tickets {
  import opened Wrappers
  import opened Text

  datatype TicketState = Pending | Running | Success | Skipped | Error

  const ALLOWED: map<TicketState, set<TicketState>> := map[
    Pending := {Running, Skipped, Error},
    Running := {Success, Skipped, Error},
    Success := {},
    Skipped := {},
    Error := {}]

  predicate TransitionAllowed(current: TicketState, proposed: TicketState) {
    current in ALLOWED && proposed in ALLOWED[current]
  }

  predicate Terminal(s: TicketState) { s.Success? || s.Skipped? || s.Error? }

  // ---- Manifests ----------------------------------------------------------------------------

  datatype OutputRecord = OutputRecord(path: string, sha256: string, size: nat)

  datatype Manifest = Manifest(ticketId: string, operation: string, outputs: seq<OutputRecord>)

  /** The files a manifest may list, and their hash. */
  type Files = map<string, string>

  type Hash = string -> string

  predicate RecordHolds(sha: Hash, files: Files, r: OutputRecord) {
    r.path in files && sha(files[r.path]) == r.sha256
  }

  predicate Verifies(sha: Hash, files: Files, m: Manifest) {
    forall i | 0 <= i < |m.outputs| :: RecordHolds(sha, files, m.outputs[i])
  }

  method Verify(sha: Hash, files: Files, m: Manifest) returns (ok: bool)
    ensures ok <==> forall r | r in m.outputs :: r.path in files && sha(files[r.path]) == r.sha256
  {
    for i := 0 to |m.outputs|
      invariant forall j | 0 <= j < i :: RecordHolds(sha, files, m.outputs[j])
    {
      var record := m.outputs[i];
      if record.path !in files {
        return false;
      }
      if sha(files[record.path]) != record.sha256 {
        return false;
      }
    }
    return true;
  }

  // ---- A handle and its directory -----------------------------------------------------------

  datatype Failure = Failure(code: string, message: string)

  /** `state.json`, `manifest.json` and `summary.md`. */
  datatype Disk = Disk(state: TicketState, failure: Option<Failure>, manifest: Option<Manifest>, summary: Option<string>)

  /** A ticket handle with its directory, every state the directory has been in, and every
      manifest that verified, with the files it verified against. */
  datatype Handle = Handle(
    state: TicketState, startedAt: Option<int>, disk: Disk, trace: seq<Disk>, verified: seq<(Manifest, Files)>)

  datatype Call =
    | Start(now: int)
    | Succeed(manifest: Manifest, summary: string, files: Files)
    | Skip(reason: string)
    | Fail(code: string, message: string)

  function Proposed(call: Call): TicketState {
    match call
    case Start(_) => Running
    case Succeed(_, _, _) => Success
    case Skip(_) => Skipped
    case Fail(_, _) => Error
  }

  /** Why a call is refused before it writes anything. */
  function Refusal(sha: Hash, h: Handle, call: Call): Option<Failure> {
    if !TransitionAllowed(h.state, Proposed(call)) then
      Some(Failure("SA_VAL_INVALID_STATE_TRANSITION", "invalid ticket transition"))
    else if call.Succeed? && Blank(call.summary) then
      Some(Failure("SA_VAL_MISSING_REQUIRED_FIELD", "ticket.succeed() requires a non-empty summary"))
    else if call.Succeed? && !Verifies(sha, call.files, call.manifest) then
      Some(Failure("SA_IO_MANIFEST_INVALID", "manifest for ticket did not verify"))
    else None
  }

  function SummaryOf(call: Call): string
    requires !call.Start?
  {
    match call
    case Succeed(_, summary, _) => summary
    case Skip(reason) => "Skipped: " + reason
    case Fail(code, message) => "Error [" + code + "]: " + message
  }

  /** The directory after each of the writes of a call that is not refused, in order. */
  function Writes(d: Disk, call: Call): seq<Disk> {
    match call
    case Start(_) => [d.(state := Running, failure := None)]
    case Succeed(manifest, summary, _) =>
      var d1 := d.(manifest := Some(manifest));
      var d2 := d1.(summary := Some(summary));
      [d1, d2, d2.(state := Success, failure := None)]
    case Skip(_) =>
      var d1 := d.(summary := Some(SummaryOf(call)));
      [d1, d1.(state := Skipped, failure := None)]
    case Fail(code, message) =>
      var d1 := d.(summary := Some(SummaryOf(call)));
      [d1, d1.(state := Error, failure := Some(Failure(code, message)))]
  }

  const WRITE_FAILED := Failure("SA_IO_ATOMIC_WRITE_FAILED", "atomic write failed")

  datatype Acted = Acted(handle: Handle, error: Option<Failure>)

  /** A call of which only the first `through` writes succeed, for any cause: a failed write
      raises, and stopping for good after any of them is a crash. */
  function Act(sha: Hash, h: Handle, call: Call, through: nat): Acted {
    var refusal := Refusal(sha, h, call);
    if refusal.Some? then Acted(h, refusal)
    else
      var writes := Writes(h.disk, call);
      var n := if through < |writes| then through else |writes|;
      var h1 := h.(
        startedAt := if call.Start? then Some(call.now) else h.startedAt,
        disk := if n == 0 then h.disk else writes[n - 1],
        trace := h.trace + writes[..n],
        verified := if call.Succeed? then h.verified + [(call.manifest, call.files)] else h.verified);
      if n < |writes| then Acted(h1, Some(WRITE_FAILED))
      else Acted(h1.(state := Proposed(call)), None)
  }

  function Fresh(): Handle {
    var d := Disk(Pending, None, None, None);
    Handle(Pending, None, d, [d], [])
  }

  datatype Attempt = Attempt(call: Call, through: nat)

  function ActAll(sha: Hash, h: Handle, attempts: seq<Attempt>): Handle
    decreases |attempts|
  {
    if attempts == [] then h
    else ActAll(sha, Act(sha, h, attempts[0].call, attempts[0].through).handle, attempts[1..])
  }

  // ---- Success implies proof on disk --------------------------------------------------------

  ghost predicate Proven(sha: Hash, verified: seq<(Manifest, Files)>, m: Manifest) {
    exists e :: e in verified && e.0 == m && Verifies(sha, e.1, m)
  }

  /** A success on disk stands on a manifest that verified and a summary with something in it. */
  ghost predicate Safe(sha: Hash, h: Handle, d: Disk) {
    && (d.manifest.Some? ==> Proven(sha, h.verified, d.manifest.value))
    && (d.state.Success? ==> d.manifest.Some? && d.summary.Some? && !Blank(d.summary.value) && d.failure.None?)
    && (d.state.Error? <==> d.failure.Some?)
    && (Terminal(d.state) ==> d.summary.Some?)
  }

  ghost predicate Inv(sha: Hash, h: Handle) {
    && h.disk.state == h.state
    && h.trace != [] && h.trace[|h.trace| - 1] == h.disk
    && (forall d | d in h.trace :: Safe(sha, h, d))
    && Forward(h.trace)
  }

  /** From one write to the next the state stays or makes an allowed transition. */
  ghost predicate Forward(trace: seq<Disk>) {
    forall i | 0 <= i < |trace| - 1 :: MayFollow(trace[i], trace[i + 1])
  }

  predicate MayFollow(d: Disk, e: Disk) { d.state == e.state || TransitionAllowed(d.state, e.state) }

  lemma StillProven(sha: Hash, verified: seq<(Manifest, Files)>, more: seq<(Manifest, Files)>, m: Manifest)
    requires Proven(sha, verified, m)
    ensures Proven(sha, verified + more, m)
  {
    var e :| e in verified && e.0 == m && Verifies(sha, e.1, m);
    assert e in verified + more;
  }

  lemma WritesSafe(sha: Hash, h: Handle, call: Call, through: nat)
    requires Inv(sha, h) && Refusal(sha, h, call).None?
    ensures var t := Act(sha, h, call, through).handle;
      forall d | d in Writes(h.disk, call) :: Safe(sha, t, d)
  {
    hide Forward, Blank, Verifies;
    var t := Act(sha, h, call, through).handle;
    assert Safe(sha, h, h.disk);
    if call.Succeed? {
      assert (call.manifest, call.files) in t.verified;
      assert Proven(sha, t.verified, call.manifest);
    }
  }

  lemma TraceSafe(sha: Hash, h: Handle, t: Handle)
    requires forall d | d in h.trace :: Safe(sha, h, d)
    requires h.verified <= t.verified
    ensures forall d | d in h.trace :: Safe(sha, t, d)
  {
    forall d | d in h.trace ensures Safe(sha, t, d) {
      assert Safe(sha, h, d);
      if d.manifest.Some? {
        assert t.verified == h.verified + t.verified[|h.verified|..];
        StillProven(sha, h.verified, t.verified[|h.verified|..], d.manifest.value);
      }
    }
  }

  lemma ForwardAppend(trace: seq<Disk>, writes: seq<Disk>)
    requires trace != [] && Forward(trace) && Forward([trace[|trace| - 1]] + writes)
    ensures Forward(trace + writes)
  {
    var all, tail := trace + writes, [trace[|trace| - 1]] + writes;
    forall i | 0 <= i < |all| - 1 ensures MayFollow(all[i], all[i + 1]) {
      if i >= |trace| - 1 {
        assert all[i] == tail[i - (|trace| - 1)] && all[i + 1] == tail[i - (|trace| - 1) + 1];
      } else {
        assert MayFollow(trace[i], trace[i + 1]);
      }
    }
  }

  lemma WritesForward(d: Disk, call: Call, n: nat)
    requires TransitionAllowed(d.state, Proposed(call)) && n <= |Writes(d, call)|
    ensures Forward([d] + Writes(d, call)[..n])
  {
    hide TransitionAllowed;
  }

  lemma ActInv(sha: Hash, h: Handle, call: Call, through: nat)
    requires Inv(sha, h)
    ensures Inv(sha, Act(sha, h, call, through).handle)
  {
    hide Forward, Safe, Verifies, Blank;
    if Refusal(sha, h, call).None? {
      var t, writes := Act(sha, h, call, through).handle, Writes(h.disk, call);
      var n := if through < |writes| then through else |writes|;
      WritesSafe(sha, h, call, through);
      TraceSafe(sha, h, t);
      WritesForward(h.disk, call, n);
      ForwardAppend(h.trace, writes[..n]);
      forall d | d in t.trace ensures Safe(sha, t, d) {
        if d !in h.trace { assert d in writes[..n] && d in writes; }
      }
      LastWrite(h.disk, call);
    }
  }

  lemma LastWrite(d: Disk, call: Call)
    ensures forall i | 0 <= i < |Writes(d, call)| ::
      Writes(d, call)[i].state == if i == |Writes(d, call)| - 1 then Proposed(call) else d.state
  {}

  lemma FreshInv(sha: Hash)
    ensures Inv(sha, Fresh())
  {}

  lemma {:induction false} ActAllInv(sha: Hash, h: Handle, attempts: seq<Attempt>)
    requires Inv(sha, h)
    ensures Inv(sha, ActAll(sha, h, attempts))
    decreases |attempts|
  {
    hide Inv, Act;
    if attempts != [] {
      ActInv(sha, h, attempts[0].call, attempts[0].through);
      ActAllInv(sha, Act(sha, h, attempts[0].call, attempts[0].through).handle, attempts[1..]);
    }
  }

  /** At every crash point of any calls on one handle, with writes failing anywhere, `success` on
      disk means a manifest file that verified and a summary that is not blank. */
  lemma SuccessIsProven(sha: Hash, attempts: seq<Attempt>, d: Disk)
    requires d in ActAll(sha, Fresh(), attempts).trace && d.state.Success?
    ensures d.manifest.Some? && d.summary.Some? && !Blank(d.summary.value)
    ensures Proven(sha, ActAll(sha, Fresh(), attempts).verified, d.manifest.value)
  {
    FreshInv(sha);
    ActAllInv(sha, Fresh(), attempts);
    assert Safe(sha, ActAll(sha, Fresh(), attempts), d);
  }

  /** Just so, any terminal state on disk has its summary, and an error its failure. */
  lemma EndsAreTold(sha: Hash, attempts: seq<Attempt>, d: Disk)
    requires d in ActAll(sha, Fresh(), attempts).trace
    ensures d.state.Success? || d.state.Skipped? || d.state.Error? ==> d.summary.Some?
    ensures d.state.Error? <==> d.failure.Some?
  {
    FreshInv(sha);
    ActAllInv(sha, Fresh(), attempts);
    assert Safe(sha, ActAll(sha, Fresh(), attempts), d);
  }

  /** Exactly which calls a ticket accepts. */
  lemma AcceptedCalls(sha: Hash, h: Handle, call: Call, through: nat)
    ensures Act(sha, h, call, through).error.None? || Act(sha, h, call, through).error == Some(WRITE_FAILED) <==>
      match call
      case Start(_) => h.state.Pending?
      case Succeed(manifest, summary, files) =>
        && h.state.Running? && !Blank(summary)
        && forall r | r in manifest.outputs :: r.path in files && sha(files[r.path]) == r.sha256
      case Skip(_) => h.state.Pending? || h.state.Running?
      case Fail(_, _) => h.state.Pending? || h.state.Running?
  {
    hide Blank;
    if call.Succeed? {
      assert Verifies(sha, call.files, call.manifest) <==>
        forall r | r in call.manifest.outputs :: RecordHolds(sha, call.files, r);
    }
  }

  /** The code of a refusal, by the state the call is made in, then the summary, then the manifest. */
  function Reason(h: Handle, call: Call): string {
    var wrongState :=
      if call.Start? then h.state != Pending
      else if call.Succeed? then h.state != Running
      else h.state != Pending && h.state != Running;
    if wrongState then "SA_VAL_INVALID_STATE_TRANSITION"
    else if call.Succeed? && Blank(call.summary) then "SA_VAL_MISSING_REQUIRED_FIELD"
    else "SA_IO_MANIFEST_INVALID"
  }

  lemma RefusalCode(sha: Hash, h: Handle, call: Call)
    ensures var r := Refusal(sha, h, call);
      r.Some? ==> r != Some(WRITE_FAILED) && r.value.code == Reason(h, call)
  {
    hide Blank, Verifies;
  }

  /** A refused call changes nothing, in memory or on disk, and gives the first reason. */
  lemma RefusedCalls(sha: Hash, h: Handle, call: Call, through: nat)
    ensures var r := Act(sha, h, call, through);
      r.error.Some? && r.error != Some(WRITE_FAILED) ==> r.handle == h && r.error.value.code == Reason(h, call)
  {
    hide Refusal, Writes, Reason;
    RefusalCode(sha, h, call);
  }

  /** What an accepted call whose writes all succeed leaves on disk. */
  lemma CompletedCalls(sha: Hash, h: Handle, call: Call)
    requires Act(sha, h, call, 3).error.None?
    ensures var t := Act(sha, h, call, 3).handle;
      && t.disk.state == t.state
      && match call
         case Start(now) => t.state == Running && t.startedAt == Some(now) && t.disk == h.disk.(state := Running, failure := None)
         case Succeed(manifest, summary, _) => t.disk == Disk(Success, None, Some(manifest), Some(summary))
         case Skip(reason) => t.disk == Disk(Skipped, None, h.disk.manifest, Some("Skipped: " + reason))
         case Fail(code, message) =>
           t.disk == Disk(Error, Some(Failure(code, message)), h.disk.manifest, Some("Error [" + code + "]: " + message))
  {
    hide Blank, Verifies, TransitionAllowed;
  }

  /** A terminal ticket refuses every call: nothing is written, ever again. */
  lemma {:induction false} TerminalAbsorbs(sha: Hash, h: Handle, attempts: seq<Attempt>)
    requires h.state == Success || h.state == Skipped || h.state == Error
    ensures ActAll(sha, h, attempts) == h
    ensures attempts != [] ==> Act(sha, h, attempts[0].call, attempts[0].through).error.Some?
    decreases |attempts|
  {
    if attempts != [] { TerminalAbsorbs(sha, h, attempts[1..]); }
  }

  /** Over the whole trace a ticket that has left pending never returns to it, and a terminal state
      is the last one. */
  lemma {:induction false} ForwardOnly(sha: Hash, attempts: seq<Attempt>, i: nat, j: nat)
    requires i <= j < |ActAll(sha, Fresh(), attempts).trace|
    ensures var a, b := ActAll(sha, Fresh(), attempts).trace[i].state, ActAll(sha, Fresh(), attempts).trace[j].state;
      && (b == Pending ==> a == Pending)
      && (a == Success || a == Skipped || a == Error ==> b == a)
    decreases j - i
  {
    FreshInv(sha);
    ActAllInv(sha, Fresh(), attempts);
    var trace := ActAll(sha, Fresh(), attempts).trace;
    if i < j {
      ForwardOnly(sha, attempts, i, j - 1);
      assert MayFollow(trace[j - 1], trace[j - 1 + 1]);
    }
  }
}
