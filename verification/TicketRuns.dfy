/** The ticket object, and the two wrappers that run an operation under a ticket. */
module TicketRuns {
  import opened Wrappers
  import opened Text
  import opened Tickets
  import opened ReactLoop

  class Ticket {
    const id: string
    const operation: string
    var state: TicketState
    var startedAt: Option<int>
    var onDisk: Disk
    ghost var trace: seq<Disk>
    ghost var verified: seq<(Manifest, Files)>

    ghost function View(): Handle
      reads this
    {
      Handle(state, startedAt, onDisk, trace, verified)
    }

    constructor (id: string, operation: string)
      ensures View() == Fresh() && this.id == id && this.operation == operation
    {
      this.id, this.operation := id, operation;
      state, startedAt, verified := Pending, None, [];
      onDisk := Disk(Pending, None, None, None);
      trace := [Disk(Pending, None, None, None)];
    }

    /** One atomic write. */
    method Put(d: Disk)
      modifies this
      ensures View() == old(View()).(disk := d, trace := old(trace) + [d])
    {
      onDisk := d;
      trace := trace + [d];
    }

    method Start(ghost sha: Hash, now: int, through: nat) returns (error: Option<Failure>)
      modifies this
      ensures Acted(View(), error) == Act(sha, old(View()), Call.Start(now), through)
    {
      if !TransitionAllowed(state, Running) {
        return Some(Failure("SA_VAL_INVALID_STATE_TRANSITION", "invalid ticket transition"));
      }
      startedAt := Some(now);
      if through == 0 { return Some(WRITE_FAILED); }
      Put(onDisk.(state := Running, failure := None));
      state := Running;
      return None;
    }

    method Succeed(sha: Hash, manifest: Manifest, summary: string, files: Files, through: nat)
        returns (error: Option<Failure>)
      modifies this
      ensures Acted(View(), error) == Act(sha, old(View()), Call.Succeed(manifest, summary, files), through)
    {
      if !TransitionAllowed(state, Success) {
        return Some(Failure("SA_VAL_INVALID_STATE_TRANSITION", "invalid ticket transition"));
      }
      if Blank(summary) {
        return Some(Failure("SA_VAL_MISSING_REQUIRED_FIELD", "ticket.succeed() requires a non-empty summary"));
      }
      var ok := Verify(sha, files, manifest);
      assert ok <==> Verifies(sha, files, manifest);
      if !ok {
        return Some(Failure("SA_IO_MANIFEST_INVALID", "manifest for ticket did not verify"));
      }
      verified := verified + [(manifest, files)];
      if through == 0 { return Some(WRITE_FAILED); }
      Put(onDisk.(manifest := Some(manifest)));
      if through == 1 { return Some(WRITE_FAILED); }
      Put(onDisk.(summary := Some(summary)));
      if through == 2 { return Some(WRITE_FAILED); }
      Put(onDisk.(state := Success, failure := None));
      state := Success;
      return None;
    }

    method Skip(ghost sha: Hash, reason: string, through: nat) returns (error: Option<Failure>)
      modifies this
      ensures Acted(View(), error) == Act(sha, old(View()), Call.Skip(reason), through)
    {
      if !TransitionAllowed(state, Skipped) {
        return Some(Failure("SA_VAL_INVALID_STATE_TRANSITION", "invalid ticket transition"));
      }
      if through == 0 { return Some(WRITE_FAILED); }
      Put(onDisk.(summary := Some("Skipped: " + reason)));
      if through == 1 { return Some(WRITE_FAILED); }
      Put(onDisk.(state := Skipped, failure := None));
      state := Skipped;
      return None;
    }

    method Fail(ghost sha: Hash, code: string, message: string, through: nat) returns (error: Option<Failure>)
      modifies this
      ensures Acted(View(), error) == Act(sha, old(View()), Call.Fail(code, message), through)
    {
      if !TransitionAllowed(state, Error) {
        return Some(Failure("SA_VAL_INVALID_STATE_TRANSITION", "invalid ticket transition"));
      }
      if through == 0 { return Some(WRITE_FAILED); }
      Put(onDisk.(summary := Some("Error [" + code + "]: " + message)));
      if through == 1 { return Some(WRITE_FAILED); }
      Put(onDisk.(state := Error, failure := Some(Failure(code, message))));
      state := Error;
      return None;
    }
  }

  // ---- Running an operation under a ticket --------------------------------------------------

  function RawManifest(sha: Hash, ticketId: string, operation: string, path: string, raw: string): Manifest {
    Manifest(ticketId, operation, [OutputRecord(path, sha(raw), |raw|)])
  }

  /** An operation as the wrappers see it: what names it, where its raw output goes, how that
      output and its summary are written. */
  datatype Operation<!T> = Operation(ticketId: string, name: string, path: string, raw: T -> string, summary: T -> string)

  /** How an operation that ran under a pending ticket must leave it: succeeded, with its summary
      and a manifest that verifies the raw output as written, or failed with what was raised. */
  ghost predicate Concluded<T>(
      sha: Hash, h: Handle, op: Operation<T>, files: Files, body: Result<T, Exn>, r: Result<T, Exn>)
  {
    && h.disk.state == h.state
    && match body
       case Ok(value) =>
         && r == Ok(value) && h.state.Success?
         && h.disk.summary == Some(op.summary(value)) && !Blank(op.summary(value))
         && var manifest := Manifest(op.ticketId, op.name, [OutputRecord(op.path, sha(op.raw(value)), |op.raw(value)|)]);
            h.disk.manifest == Some(manifest) && Verifies(sha, files[op.path := op.raw(value)], manifest)
       case Err(e) =>
         && r == Err(Wrapped(e)) && h.state.Error?
         && h.disk.failure == Some(Failure(Wrapped(e).code, Wrapped(e).message))
         && h.disk.summary == Some("Error [" + Wrapped(e).code + "]: " + Wrapped(e).message)
  }

  lemma RawVerifies(sha: Hash, files: Files, ticketId: string, operation: string, path: string, raw: string)
    ensures Verifies(sha, files[path := raw], RawManifest(sha, ticketId, operation, path, raw))
  {}

  lemma SucceedsFrom(sha: Hash, h: Handle, manifest: Manifest, summary: string, files: Files)
    requires h.state.Running? && !Blank(summary) && Verifies(sha, files, manifest)
    ensures var a := Act(sha, h, Call.Succeed(manifest, summary, files), 3);
      && a.error == None && a.handle.state == Success == a.handle.disk.state
      && a.handle.disk.manifest == Some(manifest) && a.handle.disk.summary == Some(summary)
  {}

  lemma FailsFrom(sha: Hash, h: Handle, code: string, message: string)
    requires h.state.Running?
    ensures var a := Act(sha, h, Call.Fail(code, message), 3);
      && a.error == None && a.handle.state == Error == a.handle.disk.state
      && a.handle.disk.failure == Some(Failure(code, message))
      && a.handle.disk.summary == Some("Error [" + code + "]: " + message)
  {}

  lemma StartsFrom(sha: Hash, h: Handle, now: int)
    ensures var a := Act(sha, h, Call.Start(now), 3);
      && (h.state.Pending? ==> a.error == None && a.handle.state.Running?)
      && (!h.state.Pending? ==> a.error.Some? && a.handle == h)
  {}

  function Join(names: seq<string>): string {
    if names == [] then "" else if |names| == 1 then names[0] else names[0] + ", " + Join(names[1..])
  }

  function Names(made: seq<Entry>): seq<string> { seq(|made|, i requires 0 <= i < |made| => made[i].name) }

  function ExecutorSummary(subgoal: string, result: ExecutorResult): (r: string)
    ensures !Blank(r)
  {
    var names := Names(result.made);
    var r := "Executor " + (if result.success then "completed" else "did not complete") + " subgoal " + subgoal
      + " in " + Decimal(result.turns) + " turn(s). Made " + Decimal(|result.made|) + " tool call(s)"
      + (if names == [] then "." else ": " + Join(names) + ".")
      + (if result.handoff.Some? then " Handoff to structured half requested." else "");
    assert r[0] == 'E';
    r
  }

  function ExecutorOperation(
      ticket: Ticket, path: string, raw: ExecutorResult -> string, subgoal: string): Operation<ExecutorResult>
  {
    Operation(ticket.id, ticket.operation, path, raw, (r: ExecutorResult) => ExecutorSummary(subgoal, r))
  }

  /** All writes are taken to succeed and the raw output to stay as written until it is hashed. */
  method RunExecutorViaTicket(
      ticket: Ticket, env: Env, wording: Wording, subgoal: Subgoal, maxTurns: int,
      sha: Hash, path: string, raw: ExecutorResult -> string, files: Files, now: int)
      returns (r: Result<ExecutorResult, Exn>, ghost o: Outcome)
    requires AnswersAll(env)
    modifies ticket
    ensures !old(ticket.state.Pending?) ==> r.Err? && ticket.View() == old(ticket.View())
    ensures old(ticket.state.Pending?) ==>
      && Explained(env, FreshSetup(wording, subgoal, maxTurns), maxTurns, o)
      && Concluded(sha, ticket.View(), ExecutorOperation(ticket, path, raw, subgoal.id), files, o.result, r)
  {
    hide Act, Verifies, Blank, Explained, AnswersAll, FreshSetup, ExecutorSummary, Wrapped;
    StartsFrom(sha, ticket.View(), now);
    var refused := ticket.Start(sha, now, 3);
    if refused.Some? {
      o := Outcome(Err(Sovereign(refused.value.code, refused.value.message)), [], [], []);
      return Err(Sovereign(refused.value.code, refused.value.message)), o;
    }
    var outcome := FreshLoop(env, wording, subgoal, maxTurns);
    o := outcome;
    if outcome.result.Ok? {
      var result := outcome.result.value;
      var written := files[path := raw(result)];
      var manifest := RawManifest(sha, ticket.id, ticket.operation, path, raw(result));
      var summary := ExecutorSummary(subgoal.id, result);
      RawVerifies(sha, files, ticket.id, ticket.operation, path, raw(result));
      SucceedsFrom(sha, ticket.View(), manifest, summary, written);
      var failed := ticket.Succeed(sha, manifest, summary, written, 3);
      return Ok(result), o;
    }
    var wrapped := Wrapped(outcome.result.error);
    FailsFrom(sha, ticket.View(), wrapped.code, wrapped.message);
    var failed := ticket.Fail(sha, wrapped.code, wrapped.message, 3);
    return Err(wrapped), o;
  }

  // The planner is the second user of the same pattern.

  datatype PlannedSubgoal = PlannedSubgoal(id: string, half: string, estimatedCalls: int)

  function Count(plan: seq<PlannedSubgoal>, half: string): nat {
    if plan == [] then 0 else (if plan[0].half == half then 1 else 0) + Count(plan[1..], half)
  }

  function Estimate(plan: seq<PlannedSubgoal>): int {
    if plan == [] then 0 else plan[0].estimatedCalls + Estimate(plan[1..])
  }

  function PlannerSummary(plan: seq<PlannedSubgoal>): (r: string)
    ensures !Blank(r)
  {
    var r := "Planner produced " + Decimal(|plan|) + " subgoals. " + Decimal(Count(plan, "loop")) + " to loop half, "
      + Decimal(Count(plan, "structured")) + " to structured half. Estimated total tool calls: " + Decimal(Estimate(plan)) + ".";
    assert r[0] == 'P';
    r
  }

  function PlannerOperation(
      ticket: Ticket, path: string, raw: seq<PlannedSubgoal> -> string): Operation<seq<PlannedSubgoal>>
  {
    Operation(ticket.id, "planner.plan", path, raw, (plan: seq<PlannedSubgoal>) => PlannerSummary(plan))
  }

  method RunPlannerViaTicket(
      ticket: Ticket, chat: string -> Result<Option<string>, Exn>, parse: string -> Result<seq<PlannedSubgoal>, Exn>,
      prompt: string, sha: Hash, path: string, raw: seq<PlannedSubgoal> -> string, files: Files, now: int)
      returns (r: Result<seq<PlannedSubgoal>, Exn>)
    modifies ticket
    ensures !old(ticket.state.Pending?) ==> r.Err? && ticket.View() == old(ticket.View())
    ensures old(ticket.state.Pending?) ==>
      var body := match chat(prompt) case Err(e) => Err(e) case Ok(None) => parse("") case Ok(Some(text)) => parse(text);
      Concluded(sha, ticket.View(), PlannerOperation(ticket, path, raw), files, body, r)
    ensures old(ticket.state.Pending?) && r.Ok? ==>
      ticket.onDisk.manifest.Some? && ticket.onDisk.manifest.value.operation == "planner.plan"
  {
    hide Act, Verifies, Blank, PlannerSummary, Wrapped;
    StartsFrom(sha, ticket.View(), now);
    var refused := ticket.Start(sha, now, 3);
    if refused.Some? { return Err(Sovereign(refused.value.code, refused.value.message)); }
    var reply := chat(prompt);
    var plan := if reply.Err? then Err(reply.error) else parse(OrElse(reply.value, ""));
    if plan.Ok? {
      var written := files[path := raw(plan.value)];
      var manifest := RawManifest(sha, ticket.id, "planner.plan", path, raw(plan.value));
      var summary := PlannerSummary(plan.value);
      RawVerifies(sha, files, ticket.id, "planner.plan", path, raw(plan.value));
      SucceedsFrom(sha, ticket.View(), manifest, summary, written);
      var failed := ticket.Succeed(sha, manifest, summary, written, 3);
      return Ok(plan.value);
    }
    var wrapped := Wrapped(plan.error);
    FailsFrom(sha, ticket.View(), wrapped.code, wrapped.message);
    var failed := ticket.Fail(sha, wrapped.code, wrapped.message, 3);
    return Err(wrapped);
  }
}
