/** The executor's turn loop, in its two copies: the fresh one and the one resumed from an approval
    decision. Both are proved against one relation between the opening, the environment and the
    outcome, and that relation is shown to fix the outcome. */
module ReactLoop {
  import opened Wrappers
  import opened Dispatch
  import opened Text

  datatype Message =
    | System(content: string)
    | User(content: string)
    | Assistant(reply: Option<string>, calls: seq<Call>)
    | ToolReply(callId: string, name: string, content: string)

  datatype Response = Response(content: Option<string>, calls: seq<Call>)

  /** A tool result as the dictionary the loop reads; `None` is an absent key. */
  datatype Output = Output(
    success: Option<bool>, summary: Option<string>, needsApproval: Option<bool>,
    payload: Option<string>, approvalReason: Option<string>)

  /** What the loop cannot see into, by turn number: the model, the tools, JSON. */
  datatype Env = Env(
    chat: (nat, seq<Message>) -> Result<Response, Exn>,
    dispatch: (nat, seq<Call>) -> Result<seq<Output>, Exn>,
    dumps: Output -> string)

  /** Dispatch answers every call, which `PlaceOutputs` guarantees. */
  ghost predicate AnswersAll(env: Env) {
    forall turn: nat, calls: seq<Call> :: var r := env.dispatch(turn, calls); r.Ok? ==> |r.value| == |calls|
  }

  datatype Subgoal = Subgoal(id: string, description: string, criterion: string)

  datatype Entry = Entry(name: string, arguments: string, success: bool, summary: string, needsApproval: bool)

  datatype Request = Request(
    id: string, subgoal: string, ticketId: string, tool: string, callId: string, arguments: string,
    output: string, summary: string, reason: string)

  datatype ExecutorResult = ExecutorResult(
    subgoal: string, success: bool, answer: string, made: seq<Entry>, turns: nat,
    handoff: Option<string>, approval: Option<Request>)

  /** `prompts` are the message lists given to the model, one for each call of `chat`; `written`
      the approval requests put on disk. */
  datatype Outcome = Outcome(
    result: Result<ExecutorResult, Exn>, messages: seq<Message>, prompts: seq<seq<Message>>, written: seq<Request>)

  /** All in which the two copies of the loop differ. */
  datatype Setup = Setup(subgoal: string, opening: seq<Message>, ticketId: string, exhausted: string)

  // ---- One turn's worth of conversation -----------------------------------------------------

  datatype Block = Block(content: Option<string>, calls: seq<Call>, outputs: seq<Output>)

  predicate Paired(b: Block) { |b.outputs| == |b.calls| }

  function OrElse<T>(o: Option<T>, other: T): T { if o.Some? then o.value else other }

  function Flagged(out: Output): bool { OrElse(out.needsApproval, false) }

  predicate HandsOff(b: Block, i: nat)
    requires Paired(b) && i < |b.calls|
  {
    b.calls[i].name == "handoff_to_structured" && OrElse(b.outputs[i].success, false)
  }

  function EntryOf(c: Call, out: Output): Entry {
    Entry(c.name, c.arguments, OrElse(out.success, true), OrElse(out.summary, ""), Flagged(out))
  }

  function Entries(b: Block): (r: seq<Entry>)
    requires Paired(b)
    ensures |r| == |b.calls|
  {
    seq(|b.calls|, i requires 0 <= i < |b.calls| => EntryOf(b.calls[i], b.outputs[i]))
  }

  function Replies(env: Env, b: Block): (r: seq<Message>)
    requires Paired(b)
    ensures |r| == |b.calls|
  {
    seq(|b.calls|, i requires 0 <= i < |b.calls| => ToolReply(b.calls[i].id, b.calls[i].name, env.dumps(b.outputs[i])))
  }

  function BlockMessages(env: Env, b: Block): (r: seq<Message>)
    requires Paired(b)
    ensures |r| == |b.calls| + 1 && r[0] == Assistant(b.content, b.calls)
    ensures forall i | 0 <= i < |b.calls| :: r[i + 1] == ToolReply(b.calls[i].id, b.calls[i].name, env.dumps(b.outputs[i]))
  {
    [Assistant(b.content, b.calls)] + Replies(env, b)
  }

  /** The message list after some blocks. */
  function Prompt(env: Env, opening: seq<Message>, blocks: seq<Block>): seq<Message>
    requires forall t | 0 <= t < |blocks| :: Paired(blocks[t])
  {
    if blocks == [] then opening
    else Prompt(env, opening, blocks[..|blocks| - 1]) + BlockMessages(env, blocks[|blocks| - 1])
  }

  function Made(blocks: seq<Block>): seq<Entry>
    requires forall t | 0 <= t < |blocks| :: Paired(blocks[t])
  {
    if blocks == [] then [] else Made(blocks[..|blocks| - 1]) + Entries(blocks[|blocks| - 1])
  }

  // ---- What a run of the loop must look like ------------------------------------------------

  ghost predicate IsFirstFlagged(b: Block, i: nat) {
    && Paired(b) && i < |b.outputs| && Flagged(b.outputs[i])
    && forall j | 0 <= j < i :: !Flagged(b.outputs[j])
  }

  ghost predicate NoneFlagged(b: Block) { forall j | 0 <= j < |b.outputs| :: !Flagged(b.outputs[j]) }

  ghost predicate NoHandoff(b: Block) {
    Paired(b) && forall j | 0 <= j < |b.calls| :: !HandsOff(b, j)
  }

  /** The payload is that of the last successful handoff of the batch. */
  ghost predicate IsLastHandoff(b: Block, i: nat) {
    && Paired(b) && i < |b.calls| && HandsOff(b, i)
    && forall j | i < j < |b.calls| :: !HandsOff(b, j)
  }

  ghost predicate Quiet(b: Block) { NoneFlagged(b) && NoHandoff(b) }

  /** Turn t + 1 of the conversation: the model is shown everything so far and asks for the
      block's calls, the tools give the block's outputs. */
  ghost predicate TookTurn(env: Env, opening: seq<Message>, blocks: seq<Block>, t: nat)
    requires t < |blocks| && forall t | 0 <= t < |blocks| :: Paired(blocks[t])
  {
    var b := blocks[t];
    && b.calls != []
    && env.chat(t + 1, Prompt(env, opening, blocks[..t])) == Ok(Response(b.content, b.calls))
    && env.dispatch(t + 1, b.calls) == Ok(b.outputs)
  }

  ghost predicate Conversation(env: Env, opening: seq<Message>, blocks: seq<Block>) {
    && (forall t | 0 <= t < |blocks| :: Paired(blocks[t]))
    && (forall t | 0 <= t < |blocks| :: TookTurn(env, opening, blocks, t))
    && (forall t | 0 <= t < |blocks| - 1 :: Quiet(blocks[t]))
  }

  datatype Ending =
    | Exhausted
    | Answered(content: Option<string>)
    | Paused(index: nat)
    | HandedOff(index: nat)
    | ModelRaised(error: Exn)
    | ToolsRaised(content: Option<string>, calls: seq<Call>, error: Exn)

  ghost predicate AllQuiet(blocks: seq<Block>) { forall t | 0 <= t < |blocks| :: Quiet(blocks[t]) }

  ghost predicate Ends(env: Env, opening: seq<Message>, maxTurns: int, blocks: seq<Block>, e: Ending) {
    && Conversation(env, opening, blocks)
    && (blocks != [] ==> |blocks| <= maxTurns)
    && match e
       case Exhausted => AllQuiet(blocks) && |blocks| >= maxTurns
       case Answered(content) =>
         AllQuiet(blocks) && |blocks| < maxTurns
         && env.chat(|blocks| + 1, Prompt(env, opening, blocks)) == Ok(Response(content, []))
       case Paused(i) => blocks != [] && IsFirstFlagged(blocks[|blocks| - 1], i)
       case HandedOff(i) =>
         blocks != [] && NoneFlagged(blocks[|blocks| - 1]) && IsLastHandoff(blocks[|blocks| - 1], i)
       case ModelRaised(error) =>
         AllQuiet(blocks) && |blocks| < maxTurns
         && env.chat(|blocks| + 1, Prompt(env, opening, blocks)) == Err(error)
       case ToolsRaised(content, calls, error) =>
         AllQuiet(blocks) && |blocks| < maxTurns && calls != []
         && env.chat(|blocks| + 1, Prompt(env, opening, blocks)) == Ok(Response(content, calls))
         && env.dispatch(|blocks| + 1, calls) == Err(error)
  }

  /** The calls of `chat`: every finished turn, and the turn that ended without a block. */
  function Asked(blocks: seq<Block>, e: Ending): nat {
    |blocks| + if e.Answered? || e.ModelRaised? || e.ToolsRaised? then 1 else 0
  }

  /** The last eight characters of a text, or all of a shorter one. */
  function LastEight(s: string): (tail: string)
    ensures |tail| <= |s| && s[|s| - |tail|..] == tail
    ensures |tail| == 8 || (|tail| < 8 && tail == s)
  {
    if |s| <= 8 then s else s[|s| - 8..]
  }

  function RequestId(ticketId: string, callId: string): string {
    "appr_" + LastEight(ticketId) + "_" + LastEight(callId)
  }

  function RequestOf(setup: Setup, b: Block, i: nat): Request
    requires Paired(b) && i < |b.calls|
  {
    var c, out := b.calls[i], b.outputs[i];
    Request(RequestId(setup.ticketId, c.id), setup.subgoal, setup.ticketId, c.name, c.id, c.arguments,
            OrElse(out.payload, ""), OrElse(out.summary, ""), OrElse(out.approvalReason, ""))
  }

  /** The message lists of the first n calls of `chat`. */
  function Prompts(env: Env, opening: seq<Message>, blocks: seq<Block>, n: nat): (r: seq<seq<Message>>)
    requires n <= |blocks| + 1 && forall t | 0 <= t < |blocks| :: Paired(blocks[t])
    ensures |r| == n
  {
    seq(n, t requires 0 <= t < n => Prompt(env, opening, blocks[..t]))
  }

  ghost function Report(env: Env, setup: Setup, maxTurns: int, blocks: seq<Block>, e: Ending): Outcome
    requires Ends(env, setup.opening, maxTurns, blocks, e)
  {
    var n := |blocks|;
    var messages := Prompt(env, setup.opening, blocks);
    var prompts := Prompts(env, setup.opening, blocks, Asked(blocks, e));
    var result := ExecutorResult(setup.subgoal, true, "", Made(blocks), Asked(blocks, e), None, None);
    match e
    case Exhausted => Outcome(Ok(result.(success := false, answer := setup.exhausted)), messages, prompts, [])
    case Answered(content) => Outcome(Ok(result.(answer := OrElse(content, ""))), messages, prompts, [])
    case Paused(i) =>
      var request := RequestOf(setup, blocks[n - 1], i);
      Outcome(Ok(result.(answer := "(awaiting human approval: " + request.id + ")", approval := Some(request))),
              messages, prompts, [request])
    case HandedOff(i) =>
      Outcome(Ok(result.(answer := "(handoff requested)", handoff := Some(blocks[n - 1].calls[i].arguments))),
              messages, prompts, [])
    case ModelRaised(error) => Outcome(Err(error), messages, prompts, [])
    case ToolsRaised(content, calls, error) =>
      Outcome(Err(error), messages + [Assistant(content, calls)], prompts, [])
  }

  ghost predicate ReportedBy(env: Env, setup: Setup, maxTurns: int, o: Outcome, blocks: seq<Block>, e: Ending) {
    Ends(env, setup.opening, maxTurns, blocks, e) && o == Report(env, setup, maxTurns, blocks, e)
  }

  ghost predicate Explained(env: Env, setup: Setup, maxTurns: int, o: Outcome) {
    exists blocks, e :: ReportedBy(env, setup, maxTurns, o, blocks, e)
  }

  // ---- The relation fixes the outcome -------------------------------------------------------

  lemma {:induction false} SamePrefix(env: Env, opening: seq<Message>, bs: seq<Block>, cs: seq<Block>, t: nat)
    requires Conversation(env, opening, bs) && Conversation(env, opening, cs)
    requires t <= |bs| && t <= |cs|
    ensures bs[..t] == cs[..t]
  {
    if t > 0 {
      SamePrefix(env, opening, bs, cs, t - 1);
      assert TookTurn(env, opening, bs, t - 1) && TookTurn(env, opening, cs, t - 1);
      assert bs[..t] == bs[..t - 1] + [bs[t - 1]] && cs[..t] == cs[..t - 1] + [cs[t - 1]];
    }
  }

  lemma LastNotQuiet(b: Block, i: nat)
    requires IsFirstFlagged(b, i) || IsLastHandoff(b, i)
    ensures !Quiet(b)
  {
    if IsFirstFlagged(b, i) { assert Flagged(b.outputs[i]); } else { assert HandsOff(b, i); }
  }

  /** An ended run cannot be the beginning of a longer one. */
  lemma NotShorter(env: Env, opening: seq<Message>, maxTurns: int, bs: seq<Block>, d: Ending, cs: seq<Block>, e: Ending)
    requires Ends(env, opening, maxTurns, bs, d) && Ends(env, opening, maxTurns, cs, e)
    ensures |bs| >= |cs|
  {
    hide Quiet, IsFirstFlagged, IsLastHandoff, NoneFlagged, Prompt;
    if |bs| < |cs| {
      var n := |bs|;
      SamePrefix(env, opening, bs, cs, n);
      assert bs[..n] == bs;
      assert TookTurn(env, opening, cs, n);
      if d.Paused? || d.HandedOff? {
        var last := cs[n - 1];
        assert last == cs[..n][n - 1] && Quiet(last);
        LastNotQuiet(last, d.index);
      }
    }
  }

  lemma SameEnding(env: Env, opening: seq<Message>, maxTurns: int, bs: seq<Block>, d: Ending, e: Ending)
    requires Ends(env, opening, maxTurns, bs, d) && Ends(env, opening, maxTurns, bs, e)
    ensures d == e
  {
    hide Quiet, Prompt, TookTurn;
    if d.Paused? || d.HandedOff? { LastNotQuiet(bs[|bs| - 1], d.index); }
    if e.Paused? || e.HandedOff? { LastNotQuiet(bs[|bs| - 1], e.index); }
  }

  /** One environment, one opening: one way the run can go. */
  lemma EndsUnique(env: Env, opening: seq<Message>, maxTurns: int, bs: seq<Block>, d: Ending, cs: seq<Block>, e: Ending)
    requires Ends(env, opening, maxTurns, bs, d) && Ends(env, opening, maxTurns, cs, e)
    ensures bs == cs && d == e
  {
    NotShorter(env, opening, maxTurns, bs, d, cs, e);
    NotShorter(env, opening, maxTurns, cs, e, bs, d);
    SamePrefix(env, opening, bs, cs, |bs|);
    assert bs == bs[..|bs|] == cs[..|cs|] == cs;
    SameEnding(env, opening, maxTurns, bs, d, e);
  }

  lemma ExplainedUnique(env: Env, setup: Setup, maxTurns: int, o: Outcome, p: Outcome)
    requires Explained(env, setup, maxTurns, o) && Explained(env, setup, maxTurns, p)
    ensures o == p
  {
    hide Ends, Report;
    var bs, d :| ReportedBy(env, setup, maxTurns, o, bs, d);
    var cs, e :| ReportedBy(env, setup, maxTurns, p, cs, e);
    EndsUnique(env, setup.opening, maxTurns, bs, d, cs, e);
  }

  // ---- The shape of the conversation --------------------------------------------------------

  /** Assistant messages with n > 0 calls, each followed by n tool replies with the same ids and
      names in the same order. */
  ghost predicate InBlocks(ms: seq<Message>)
    decreases |ms|
  {
    ms != [] ==> StartsWithBlock(ms) && InBlocks(ms[|ms[0].calls| + 1..])
  }

  predicate IsReplyTo(m: Message, c: Call) { m.ToolReply? && m.callId == c.id && m.name == c.name }

  ghost predicate StartsWithBlock(ms: seq<Message>) {
    && ms != [] && ms[0].Assistant? && ms[0].calls != [] && |ms[0].calls| < |ms|
    && forall i | 0 <= i < |ms[0].calls| :: IsReplyTo(ms[i + 1], ms[0].calls[i])
  }

  lemma StartsLonger(ms: seq<Message>, ns: seq<Message>)
    requires StartsWithBlock(ms)
    ensures StartsWithBlock(ms + ns) && (ms + ns)[0] == ms[0]
    ensures ms[0].Assistant? && |ms[0].calls| < |ms| && (ms + ns)[|ms[0].calls| + 1..] == ms[|ms[0].calls| + 1..] + ns
  {
    hide IsReplyTo;
    var n := |ms[0].calls|;
    forall i | 0 <= i < n ensures IsReplyTo((ms + ns)[i + 1], ms[0].calls[i]) {
      assert (ms + ns)[i + 1] == ms[i + 1];
    }
  }

  lemma {:induction false} InBlocksAppend(ms: seq<Message>, ns: seq<Message>)
    requires InBlocks(ms) && InBlocks(ns)
    ensures InBlocks(ms + ns)
    decreases |ms|
  {
    hide StartsWithBlock;
    if ms == [] {
      assert ms + ns == ns;
    } else {
      StartsLonger(ms, ns);
      InBlocksAppend(ms[|ms[0].calls| + 1..], ns);
    }
  }

  lemma BlockInBlocks(env: Env, b: Block)
    requires Paired(b) && b.calls != []
    ensures InBlocks(BlockMessages(env, b))
  {
    var ms := BlockMessages(env, b);
    assert ms[|b.calls| + 1..] == [];
  }

  lemma NoBlocks()
    ensures InBlocks([])
  {}

  lemma {:induction false} PromptShape(env: Env, opening: seq<Message>, blocks: seq<Block>) returns (rest: seq<Message>)
    requires forall t | 0 <= t < |blocks| :: Paired(blocks[t]) && blocks[t].calls != []
    ensures Prompt(env, opening, blocks) == opening + rest && InBlocks(rest)
    decreases |blocks|
  {
    hide InBlocks, BlockMessages;
    NoBlocks();
    if blocks == [] {
      rest := [];
    } else {
      var n := |blocks| - 1;
      var before := PromptShape(env, opening, blocks[..n]);
      BlockInBlocks(env, blocks[n]);
      InBlocksAppend(before, BlockMessages(env, blocks[n]));
      rest := before + BlockMessages(env, blocks[n]);
    }
  }

  ghost predicate WellFormed(opening: seq<Message>, ms: seq<Message>) {
    opening <= ms && InBlocks(ms[|opening|..])
  }

  lemma PromptWellFormed(env: Env, opening: seq<Message>, blocks: seq<Block>, n: nat)
    requires Conversation(env, opening, blocks) && n <= |blocks|
    ensures WellFormed(opening, Prompt(env, opening, blocks[..n]))
  {
    hide InBlocks, Prompt, Quiet;
    forall t | 0 <= t < |blocks| ensures blocks[t].calls != [] { assert TookTurn(env, opening, blocks, t); }
    var rest := PromptShape(env, opening, blocks[..n]);
    assert (opening + rest)[|opening|..] == rest;
  }

  lemma PromptGrows(env: Env, opening: seq<Message>, blocks: seq<Block>, n: nat)
    requires n < |blocks| && forall t | 0 <= t < |blocks| :: Paired(blocks[t])
    ensures Prompt(env, opening, blocks[..n + 1]) == Prompt(env, opening, blocks[..n]) + BlockMessages(env, blocks[n])
  {
    assert blocks[..n + 1][..n] == blocks[..n];
  }

  lemma FirstPrompt(env: Env, opening: seq<Message>, blocks: seq<Block>)
    requires forall t | 0 <= t < |blocks| :: Paired(blocks[t])
    ensures Prompt(env, opening, blocks[..0]) == opening
  {}

  /** Everything the model is ever shown, and the final list, is the opening followed by complete
      blocks; each prompt extends the one before. */
  lemma ConversationWellFormed(env: Env, setup: Setup, maxTurns: int, o: Outcome)
    requires Explained(env, setup, maxTurns, o)
    ensures forall t | 0 <= t < |o.prompts| :: WellFormed(setup.opening, o.prompts[t])
    ensures o.result.Ok? ==> WellFormed(setup.opening, o.messages)
    ensures o.prompts != [] ==> o.prompts[0] == setup.opening
    ensures forall t | 0 <= t < |o.prompts| - 1 :: o.prompts[t] < o.prompts[t + 1]
    ensures o.prompts != [] ==> o.prompts[|o.prompts| - 1] <= o.messages
  {
    hide WellFormed, BlockMessages, Quiet, Prompt, TookTurn, AllQuiet, IsFirstFlagged, IsLastHandoff, NoneFlagged;
    var blocks, e :| ReportedBy(env, setup, maxTurns, o, blocks, e);
    FirstPrompt(env, setup.opening, blocks);
    forall t | 0 <= t < |o.prompts|
      ensures WellFormed(setup.opening, o.prompts[t])
      ensures t < |o.prompts| - 1 ==> o.prompts[t] < o.prompts[t + 1]
    {
      PromptWellFormed(env, setup.opening, blocks, t);
      if t < |o.prompts| - 1 { NextPrompt(env, setup.opening, blocks, t); }
    }
    PromptWellFormed(env, setup.opening, blocks, |blocks|);
    assert blocks[..|blocks|] == blocks;
    if |blocks| > 0 { NextPrompt(env, setup.opening, blocks, |blocks| - 1); }
  }

  lemma NextPrompt(env: Env, opening: seq<Message>, blocks: seq<Block>, n: nat)
    requires n < |blocks| && forall t | 0 <= t < |blocks| :: Paired(blocks[t])
    ensures Prompt(env, opening, blocks[..n]) < Prompt(env, opening, blocks[..n + 1])
  {
    PromptGrows(env, opening, blocks, n);
  }

  // ---- Turns, success and the ways out ------------------------------------------------------

  /** `chat` is called exactly `turns_used` times, within the limit; a result is unsuccessful
      exactly when the conversation ran out of turns. */
  lemma TurnsUsed(env: Env, setup: Setup, maxTurns: int, o: Outcome)
    requires Explained(env, setup, maxTurns, o)
    ensures |o.prompts| <= Max(0, maxTurns)
    ensures o.result.Ok? ==> o.result.value.turns == |o.prompts| && o.result.value.subgoal == setup.subgoal
    ensures o.result.Ok? && !o.result.value.success <==> exists blocks :: Ends(env, setup.opening, maxTurns, blocks, Exhausted)
    ensures o.result.Ok? && !o.result.value.success ==>
      |o.prompts| == Max(0, maxTurns) && o.result.value.answer == setup.exhausted && o.written == []
      && o.result.value.handoff == None && o.result.value.approval == None
  {
    hide Conversation, AllQuiet, IsFirstFlagged, IsLastHandoff, NoneFlagged, Prompt;
    var blocks, e :| ReportedBy(env, setup, maxTurns, o, blocks, e);
    if bs :| Ends(env, setup.opening, maxTurns, bs, Exhausted) {
      EndsUnique(env, setup.opening, maxTurns, blocks, e, bs, Exhausted);
    }
  }

  /** The output asks for human approval, in so many words. */
  predicate AsksApproval(b: Block, i: nat) { i < |b.outputs| && b.outputs[i].needsApproval == Some(true) }

  /** The call is a handoff that succeeded, in so many words. */
  predicate IsHandoff(b: Block, i: nat) {
    i < |b.calls| && i < |b.outputs| && b.calls[i].name == "handoff_to_structured" && b.outputs[i].success == Some(true)
  }

  ghost predicate LastOne(b: Block, i: nat) { IsHandoff(b, i) && forall j: nat | j > i :: !IsHandoff(b, j) }

  lemma OneLast(b: Block, i: nat)
    requires LastOne(b, i)
    ensures forall j: nat | LastOne(b, j) :: j == i
  {}

  lemma QuietMeans(b: Block)
    requires Paired(b)
    ensures NoneFlagged(b) <==> forall i: nat :: !AsksApproval(b, i)
    ensures NoHandoff(b) <==> forall i: nat :: !IsHandoff(b, i)
    ensures Quiet(b) <==> forall i: nat :: !AsksApproval(b, i) && !IsHandoff(b, i)
    ensures forall i: nat :: IsFirstFlagged(b, i) <==> AsksApproval(b, i) && forall j: nat | j < i :: !AsksApproval(b, j)
    ensures forall i: nat :: IsLastHandoff(b, i) <==> LastOne(b, i)
  {
    forall i: nat | i < |b.calls| ensures Flagged(b.outputs[i]) <==> AsksApproval(b, i) {}
    forall i: nat | i < |b.calls| ensures HandsOff(b, i) <==> IsHandoff(b, i) {}
  }

  lemma TurnsTaken(env: Env, opening: seq<Message>, blocks: seq<Block>)
    requires Conversation(env, opening, blocks)
    ensures forall t | 0 <= t < |blocks| ::
      (env.chat(t + 1, Prompt(env, opening, blocks[..t])) == Ok(Response(blocks[t].content, blocks[t].calls)))
    ensures forall t | 0 <= t < |blocks| :: blocks[t].calls != [] && env.dispatch(t + 1, blocks[t].calls) == Ok(blocks[t].outputs)
  {
    hide Prompt;
    forall t | 0 <= t < |blocks|
      ensures env.chat(t + 1, Prompt(env, opening, blocks[..t])) == Ok(Response(blocks[t].content, blocks[t].calls))
      ensures blocks[t].calls != [] && env.dispatch(t + 1, blocks[t].calls) == Ok(blocks[t].outputs)
    {
      assert TookTurn(env, opening, blocks, t);
    }
  }

  /** A batch that is not quiet is the last. */
  lemma LastBatch(env: Env, setup: Setup, maxTurns: int, o: Outcome, t: nat, b: Block) returns (e: Ending)
    requires Explained(env, setup, maxTurns, o) && 0 < t <= |o.prompts|
    requires env.chat(t, o.prompts[t - 1]) == Ok(Response(b.content, b.calls)) && b.calls != []
    requires env.dispatch(t, b.calls) == Ok(b.outputs) && Paired(b) && !Quiet(b)
    ensures t == |o.prompts| && o.messages == o.prompts[t - 1] + BlockMessages(env, b)
    ensures o.result.Ok? && o.result.value.success
    ensures (e.Paused? && IsFirstFlagged(b, e.index)) || (e.HandedOff? && NoneFlagged(b) && IsLastHandoff(b, e.index))
    ensures e.Paused? ==> o.result.value.approval.Some? && o.result.value.handoff == None
    ensures e.HandedOff? ==> o.result.value.approval == None && o.result.value.handoff == Some(b.calls[e.index].arguments)
    ensures e.HandedOff? ==> o.written == [] && o.result.value.answer == "(handoff requested)"
  {
    hide Prompt, BlockMessages, RequestOf, Made, Quiet, NoneFlagged, IsFirstFlagged, IsLastHandoff;
    var blocks;
    blocks, e :| ReportedBy(env, setup, maxTurns, o, blocks, e);
    assert blocks[..|blocks|] == blocks;
    TurnsTaken(env, setup.opening, blocks);
    assert t <= |blocks| ==> blocks[t - 1] == b;
    PromptGrows(env, setup.opening, blocks, t - 1);
  }

  /** An output that asks for approval, or a handoff that succeeded, ends the run in the turn it
      appears, approval first; the payload handed off is that of the last such call. */
  lemma StopsAtOnce(env: Env, setup: Setup, maxTurns: int, o: Outcome, t: nat, b: Block)
    requires Explained(env, setup, maxTurns, o) && 0 < t <= |o.prompts|
    requires env.chat(t, o.prompts[t - 1]) == Ok(Response(b.content, b.calls)) && b.calls != []
    requires env.dispatch(t, b.calls) == Ok(b.outputs) && Paired(b)
    requires exists i: nat :: AsksApproval(b, i) || IsHandoff(b, i)
    ensures t == |o.prompts| && o.result.Ok? && o.result.value.success
    ensures o.result.value.approval.Some? <==> exists i: nat :: AsksApproval(b, i)
    ensures o.result.value.handoff.Some? <==> forall i: nat :: !AsksApproval(b, i)
    ensures forall i: nat | o.result.value.handoff.Some? && LastOne(b, i) ::
      i < |b.calls| && o.result.value.handoff.value == b.calls[i].arguments
    ensures o.result.value.handoff.Some? ==> o.result.value.answer == "(handoff requested)" && o.written == []
    ensures o.messages == o.prompts[t - 1] + BlockMessages(env, b)
  {
    hide Explained, BlockMessages, Quiet, NoneFlagged, IsFirstFlagged, IsLastHandoff, LastOne, AsksApproval, IsHandoff;
    QuietMeans(b);
    var e := LastBatch(env, setup, maxTurns, o, t, b);
    if e.HandedOff? {
      OneLast(b, e.index);
      LastIndex(b, e.index);
    }
  }

  /** A reply without calls ends the run in its turn, and is the answer. */
  lemma AnswersAtOnce(env: Env, setup: Setup, maxTurns: int, o: Outcome, t: nat, content: Option<string>)
    requires Explained(env, setup, maxTurns, o) && 0 < t <= |o.prompts|
    requires env.chat(t, o.prompts[t - 1]) == Ok(Response(content, []))
    ensures t == |o.prompts| && o.result.Ok? && o.result.value.success
    ensures o.result.value.answer == (if content.Some? then content.value else "")
    ensures o.result.value.approval == None && o.result.value.handoff == None && o.written == []
    ensures o.messages == o.prompts[t - 1]
  {
    hide Prompt, Entries, BlockMessages, Made, Quiet, NoneFlagged, IsFirstFlagged, IsLastHandoff;
    var blocks, e :| ReportedBy(env, setup, maxTurns, o, blocks, e);
    assert blocks[..|blocks|] == blocks;
    TurnsTaken(env, setup.opening, blocks);
  }

  /** An exception of the model, or of the tools, leaves the loop as it is. */
  lemma RaisesAtOnce(env: Env, setup: Setup, maxTurns: int, o: Outcome, t: nat, error: Exn)
    requires Explained(env, setup, maxTurns, o) && 0 < t <= |o.prompts|
    requires var r := env.chat(t, o.prompts[t - 1]);
      r == Err(error) || (r.Ok? && r.value.calls != [] && env.dispatch(t, r.value.calls) == Err(error))
    ensures t == |o.prompts| && o.result == Err(error) && o.written == []
    ensures var r := env.chat(t, o.prompts[t - 1]);
      o.messages == o.prompts[t - 1] + if r.Ok? then [Assistant(r.value.content, r.value.calls)] else []
  {
    hide Prompt, Entries, BlockMessages, Made, Quiet, NoneFlagged, IsFirstFlagged, IsLastHandoff;
    var blocks, e :| ReportedBy(env, setup, maxTurns, o, blocks, e);
    assert blocks[..|blocks|] == blocks;
    TurnsTaken(env, setup.opening, blocks);
  }

  /** A result's conversation: each finished turn adds its block to what the model was shown, and the
      log has one entry for each of its calls, in order, with what came of it. */
  lemma LogTells(env: Env, setup: Setup, maxTurns: int, o: Outcome) returns (blocks: seq<Block>)
    requires Explained(env, setup, maxTurns, o) && o.result.Ok?
    ensures |blocks| <= |o.prompts| <= |blocks| + 1
    ensures forall t | 0 <= t < |blocks| :: Paired(blocks[t])
    ensures forall t | 0 <= t < |blocks| :: env.chat(t + 1, o.prompts[t]) == Ok(Response(blocks[t].content, blocks[t].calls))
    ensures forall t | 0 <= t < |blocks| :: env.dispatch(t + 1, blocks[t].calls) == Ok(blocks[t].outputs)
    ensures |o.prompts| > |blocks| ==>
      exists content :: env.chat(|o.prompts|, o.prompts[|blocks|]) == Ok(Response(content, []))
    ensures forall t | 0 <= t < |blocks| ::
      (if t + 1 < |o.prompts| then o.prompts[t + 1] else o.messages) == o.prompts[t] + BlockMessages(env, blocks[t])
    ensures Logs(o.result.value.made, blocks)
  {
    hide Prompt, Entries, BlockMessages, Made, Quiet, NoneFlagged, IsFirstFlagged, IsLastHandoff;
    var e;
    blocks, e :| ReportedBy(env, setup, maxTurns, o, blocks, e);
    forall t | 0 <= t < |blocks|
      ensures env.chat(t + 1, o.prompts[t]) == Ok(Response(blocks[t].content, blocks[t].calls))
      ensures env.dispatch(t + 1, blocks[t].calls) == Ok(blocks[t].outputs)
    {
      assert TookTurn(env, setup.opening, blocks, t);
    }
    assert blocks[..|blocks|] == blocks;
    forall t | 0 <= t < |blocks|
      ensures (if t + 1 < |o.prompts| then o.prompts[t + 1] else o.messages) == o.prompts[t] + BlockMessages(env, blocks[t])
    {
      PromptGrows(env, setup.opening, blocks, t);
    }
    MadeLogs(blocks);
  }

  predicate Logged(e: Entry, c: Call, out: Output) {
    && e.name == c.name && e.arguments == c.arguments
    && (e.success <==> out.success != Some(false))
    && (e.needsApproval <==> out.needsApproval == Some(true))
    && e.summary == (if out.summary.Some? then out.summary.value else "")
  }

  ghost predicate Logs(made: seq<Entry>, blocks: seq<Block>)
    decreases |blocks|
  {
    if blocks == [] then made == []
    else
      var b := blocks[|blocks| - 1];
      && Paired(b) && |b.calls| <= |made|
      && Logs(made[..|made| - |b.calls|], blocks[..|blocks| - 1])
      && forall i | 0 <= i < |b.calls| :: Logged(made[|made| - |b.calls| + i], b.calls[i], b.outputs[i])
  }

  lemma MadeLast(blocks: seq<Block>)
    requires blocks != [] && forall t | 0 <= t < |blocks| :: Paired(blocks[t])
    ensures var n := |blocks| - 1; var k := |blocks[n].calls|; var made := Made(blocks);
      k <= |made| && made[..|made| - k] == Made(blocks[..n])
      && forall i | 0 <= i < k :: Logged(made[|made| - k + i], blocks[n].calls[i], blocks[n].outputs[i])
  {
    var n := |blocks| - 1;
    var made := Made(blocks);
    assert made == Made(blocks[..n]) + Entries(blocks[n]);
    EntriesLogged(blocks[n]);
  }

  lemma EntriesLogged(b: Block)
    requires Paired(b)
    ensures |Entries(b)| == |b.calls|
    ensures forall i | 0 <= i < |b.calls| :: Logged(Entries(b)[i], b.calls[i], b.outputs[i])
  {}

  lemma {:induction false} MadeLogs(blocks: seq<Block>)
    requires forall t | 0 <= t < |blocks| :: Paired(blocks[t])
    ensures Logs(Made(blocks), blocks)
    decreases |blocks|
  {
    hide Entries, Logged;
    if blocks != [] {
      var n := |blocks| - 1;
      MadeLogs(blocks[..n]);
      MadeLast(blocks);
    }
  }

  /** The request for a call, field by field. */
  ghost predicate Names(r: Request, setup: Setup, b: Block, i: nat) {
    && i < |b.calls| && i < |b.outputs|
    && r.tool == b.calls[i].name && r.callId == b.calls[i].id && r.arguments == b.calls[i].arguments
    && r.output == (if b.outputs[i].payload.Some? then b.outputs[i].payload.value else "")
    && r.summary == (if b.outputs[i].summary.Some? then b.outputs[i].summary.value else "")
    && r.reason == (if b.outputs[i].approvalReason.Some? then b.outputs[i].approvalReason.value else "")
    && r.ticketId == setup.ticketId && r.subgoal == setup.subgoal
    && r.id == "appr_" + LastEight(setup.ticketId) + "_" + LastEight(b.calls[i].id)
  }

  lemma RequestNames(setup: Setup, b: Block, i: nat)
    requires Paired(b) && i < |b.calls|
    ensures Names(RequestOf(setup, b, i), setup, b, i)
  {
    hide LastEight;
  }

  /** An approval exit names, in every field, the first call of the last batch whose output asks for
      approval, and that one request is what was written. */
  lemma ApprovalNamesFirst(env: Env, setup: Setup, maxTurns: int, o: Outcome) returns (b: Block, i: nat)
    requires Explained(env, setup, maxTurns, o) && o.result.Ok? && o.result.value.approval.Some?
    ensures Paired(b) && AsksApproval(b, i) && (forall j: nat | j < i :: !AsksApproval(b, j)) && o.prompts != []
    ensures env.dispatch(|o.prompts|, b.calls) == Ok(b.outputs)
    ensures o.messages == o.prompts[|o.prompts| - 1] + BlockMessages(env, b)
    ensures Names(o.result.value.approval.value, setup, b, i)
    ensures o.result.value.answer == "(awaiting human approval: " + o.result.value.approval.value.id + ")"
    ensures o.written == [o.result.value.approval.value]
  {
    hide Prompt, Entries, BlockMessages, Made, IsFirstFlagged, Names, RequestOf;
    var blocks, e :| ReportedBy(env, setup, maxTurns, o, blocks, e);
    var n := |blocks|;
    b, i := blocks[n - 1], e.index;
    assert TookTurn(env, setup.opening, blocks, n - 1);
    PromptGrows(env, setup.opening, blocks, n - 1);
    assert blocks[..n] == blocks;
    QuietMeans(b);
    FirstIndex(b, i);
    RequestNames(setup, b, i);
  }

  // ---- The limit and the setup --------------------------------------------------------------

  /** A run that did not run out of turns is the same under any larger limit. */
  lemma LargerLimit(env: Env, setup: Setup, m: int, m': int, o: Outcome)
    requires Explained(env, setup, m, o) && m <= m'
    requires o.result.Ok? ==> o.result.value.success
    ensures Explained(env, setup, m', o)
  {
    hide Conversation, AllQuiet, IsFirstFlagged, IsLastHandoff, NoneFlagged, Prompt;
    var blocks, e :| ReportedBy(env, setup, m, o, blocks, e);
    assert ReportedBy(env, setup, m', o, blocks, e);
  }

  lemma Reported(env: Env, setup: Setup, m: int, blocks: seq<Block>, e: Ending)
    requires Ends(env, setup.opening, m, blocks, e)
    ensures Explained(env, setup, m, Report(env, setup, m, blocks, e))
  {
    assert ReportedBy(env, setup, m, Report(env, setup, m, blocks, e), blocks, e);
  }

  /** The first n turns of a run that went past them. */
  lemma CutEnds(env: Env, opening: seq<Message>, m: int, blocks: seq<Block>, e: Ending, n: nat)
    requires Ends(env, opening, m, blocks, e) && (n < Asked(blocks, e) || n == 0)
    ensures Ends(env, opening, n, blocks[..n], Exhausted)
  {
    hide Quiet, IsFirstFlagged, IsLastHandoff, NoneFlagged, Prompt;
    var cut := blocks[..n];
    forall t | 0 <= t < n ensures Paired(cut[t]) && TookTurn(env, opening, cut, t) && Quiet(cut[t]) {
      assert TookTurn(env, opening, blocks, t) && cut[..t] == blocks[..t];
      assert Quiet(blocks[t]);
    }
  }

  lemma CutPrompts(env: Env, opening: seq<Message>, blocks: seq<Block>, n: nat, k: nat)
    requires n <= |blocks| && n <= k <= |blocks| + 1 && forall t | 0 <= t < |blocks| :: Paired(blocks[t])
    ensures Prompts(env, opening, blocks[..n], n) == Prompts(env, opening, blocks, k)[..n]
  {
    hide Prompt;
    forall t | 0 <= t < n ensures blocks[..n][..t] == blocks[..t] {}
  }

  lemma Reports(env: Env, setup: Setup, m: int, blocks: seq<Block>, e: Ending)
    requires Ends(env, setup.opening, m, blocks, e)
    ensures Report(env, setup, m, blocks, e).prompts == Prompts(env, setup.opening, blocks, Asked(blocks, e))
    ensures e.Exhausted? ==> Report(env, setup, m, blocks, e).result.Ok? && !Report(env, setup, m, blocks, e).result.value.success
  {
    hide Ends, Prompts;
  }

  /** Under a limit it does not reach, the same run is cut off: same prompts, no success. */
  lemma SmallerLimit(env: Env, setup: Setup, m: int, o: Outcome, setup': Setup, m': int, o': Outcome)
    requires Explained(env, setup, m, o) && m' < |o.prompts| && setup'.opening == setup.opening
    requires Explained(env, setup', m', o')
    ensures o'.result.Ok? && !o'.result.value.success && o'.prompts == o.prompts[..Max(0, m')]
  {
    hide TookTurn, AllQuiet, Quiet, IsFirstFlagged, IsLastHandoff, NoneFlagged, Prompt, Prompts, Report;
    var blocks, e :| ReportedBy(env, setup, m, o, blocks, e);
    var n: nat := Max(0, m');
    Reports(env, setup, m, blocks, e);
    CutEnds(env, setup.opening, m, blocks, e, n);
    assert Ends(env, setup'.opening, m', blocks[..n], Exhausted);
    var cut := Report(env, setup', m', blocks[..n], Exhausted);
    Reported(env, setup', m', blocks[..n], Exhausted);
    Reports(env, setup', m', blocks[..n], Exhausted);
    ExplainedUnique(env, setup', m', cut, o');
    CutPrompts(env, setup.opening, blocks, n, Asked(blocks, e));
  }

  function Resetup(r: Request, setup: Setup): Request {
    r.(ticketId := setup.ticketId, id := RequestId(setup.ticketId, r.callId))
  }

  function Retold(o: Outcome, setup: Setup): Outcome {
    if o.result.Err? then o
    else
      var r := o.result.value;
      var r1 := if r.success then r else r.(answer := setup.exhausted);
      var r2 :=
        if r.approval.None? then r1
        else
          var request := Resetup(r.approval.value, setup);
          r1.(approval := Some(request), answer := "(awaiting human approval: " + request.id + ")");
      o.(result := Ok(r2), written := seq(|o.written|, i requires 0 <= i < |o.written| => Resetup(o.written[i], setup)))
  }

  /** Same opening, same run: only the ticket id, which a request's id derives
      from, and the exhaustion text tell the copies apart. */
  lemma SameMachine(env: Env, setup: Setup, setup': Setup, maxTurns: int, o: Outcome)
    requires setup'.subgoal == setup.subgoal && setup'.opening == setup.opening
    requires Explained(env, setup, maxTurns, o)
    ensures Explained(env, setup', maxTurns, Retold(o, setup'))
  {
    hide Conversation, AllQuiet, IsFirstFlagged, IsLastHandoff, NoneFlagged, Prompt;
    var blocks, e :| ReportedBy(env, setup, maxTurns, o, blocks, e);
    assert Retold(o, setup') == Report(env, setup', maxTurns, blocks, e);
    assert ReportedBy(env, setup', maxTurns, Retold(o, setup'), blocks, e);
  }

  // ---- The loops ----------------------------------------------------------------------------

  /** The first flagged output, if any. */
  method FirstFlagged(b: Block) returns (index: Option<nat>)
    requires Paired(b)
    ensures index.None? <==> NoneFlagged(b)
    ensures index.Some? ==> IsFirstFlagged(b, index.value)
  {
    for i := 0 to |b.outputs|
      invariant forall j | 0 <= j < i :: !Flagged(b.outputs[j])
    {
      if Flagged(b.outputs[i]) { return Some(i); }
    }
    return None;
  }

  /** The log entries, the tool replies and the last successful handoff of a batch. */
  method RecordBatch(env: Env, b: Block) returns (entries: seq<Entry>, replies: seq<Message>, handoff: Option<nat>)
    requires Paired(b)
    ensures entries == Entries(b) && replies == Replies(env, b)
    ensures forall i | 0 <= i < |b.calls| :: Logged(entries[i], b.calls[i], b.outputs[i])
    ensures forall i | 0 <= i < |b.calls| :: replies[i] == ToolReply(b.calls[i].id, b.calls[i].name, env.dumps(b.outputs[i]))
    ensures handoff.None? <==> NoHandoff(b)
    ensures handoff.Some? ==> IsLastHandoff(b, handoff.value)
  {
    entries, replies, handoff := [], [], None;
    for i := 0 to |b.calls|
      invariant entries == Entries(b)[..i] && replies == Replies(env, b)[..i]
      invariant handoff.None? ==> forall j | 0 <= j < i :: !HandsOff(b, j)
      invariant handoff.Some? ==> handoff.value < i && HandsOff(b, handoff.value)
      invariant handoff.Some? ==> forall j | handoff.value < j < i :: !HandsOff(b, j)
    {
      var call, out := b.calls[i], b.outputs[i];
      entries := entries + [EntryOf(call, out)];
      if call.name == "handoff_to_structured" && OrElse(out.success, false) {
        handoff := Some(i);
      }
      replies := replies + [ToolReply(call.id, call.name, env.dumps(out))];
    }
  }

  /** What the loop knows after finished, quiet turns. */
  ghost predicate Underway(
      env: Env, opening: seq<Message>, maxTurns: int, blocks: seq<Block>,
      turn: nat, messages: seq<Message>, made: seq<Entry>, prompts: seq<seq<Message>>)
  {
    && Conversation(env, opening, blocks) && AllQuiet(blocks)
    && |blocks| == turn <= Max(0, maxTurns)
    && messages == Prompt(env, opening, blocks) && made == Made(blocks)
    && prompts == Prompts(env, opening, blocks, turn)
  }

  lemma Start(env: Env, opening: seq<Message>, maxTurns: int)
    ensures Underway(env, opening, maxTurns, [], 0, opening, [], [])
  {}

  lemma PromptsNext(env: Env, opening: seq<Message>, blocks: seq<Block>)
    requires forall t | 0 <= t < |blocks| :: Paired(blocks[t])
    ensures Prompts(env, opening, blocks, |blocks| + 1)
         == Prompts(env, opening, blocks, |blocks|) + [Prompt(env, opening, blocks)]
  {
    assert blocks[..|blocks|] == blocks;
  }

  lemma PromptsOfLonger(env: Env, opening: seq<Message>, blocks: seq<Block>, b: Block)
    requires Paired(b) && forall t | 0 <= t < |blocks| :: Paired(blocks[t])
    ensures Prompts(env, opening, blocks + [b], |blocks| + 1) == Prompts(env, opening, blocks, |blocks| + 1)
  {
    forall t | 0 <= t <= |blocks| ensures (blocks + [b])[..t] == blocks[..t] {}
  }

  lemma Extended(env: Env, opening: seq<Message>, blocks: seq<Block>, b: Block)
    requires Conversation(env, opening, blocks) && AllQuiet(blocks) && Paired(b) && b.calls != []
    requires env.chat(|blocks| + 1, Prompt(env, opening, blocks)) == Ok(Response(b.content, b.calls))
    requires env.dispatch(|blocks| + 1, b.calls) == Ok(b.outputs)
    ensures Conversation(env, opening, blocks + [b])
    ensures Prompt(env, opening, blocks + [b]) == Prompt(env, opening, blocks) + BlockMessages(env, b)
    ensures Made(blocks + [b]) == Made(blocks) + Entries(b)
  {
    hide Quiet;
    var bs := blocks + [b];
    assert bs[..|blocks|] == blocks;
    forall t | 0 <= t < |bs| ensures TookTurn(env, opening, bs, t) {
      if t < |blocks| {
        assert TookTurn(env, opening, blocks, t) && bs[..t] == blocks[..t];
      }
    }
  }

  /** A finished turn: the loop's variables describe one block more. */
  lemma Turned(
      env: Env, opening: seq<Message>, maxTurns: int, blocks: seq<Block>, b: Block,
      turn: nat, messages: seq<Message>, made: seq<Entry>, prompts: seq<seq<Message>>)
    requires Underway(env, opening, maxTurns, blocks, turn, messages, made, prompts)
    requires turn < maxTurns && Paired(b) && b.calls != []
    requires env.chat(turn + 1, messages) == Ok(Response(b.content, b.calls))
    requires env.dispatch(turn + 1, b.calls) == Ok(b.outputs)
    ensures Conversation(env, opening, blocks + [b])
    ensures messages + [Assistant(b.content, b.calls)] + Replies(env, b) == Prompt(env, opening, blocks + [b])
    ensures made + Entries(b) == Made(blocks + [b])
    ensures prompts + [messages] == Prompts(env, opening, blocks + [b], turn + 1)
    ensures Quiet(b) ==> Underway(env, opening, maxTurns, blocks + [b], turn + 1,
                                  Prompt(env, opening, blocks + [b]), Made(blocks + [b]), prompts + [messages])
  {
    hide Quiet, Prompt, Prompts, TookTurn, Made;
    Extended(env, opening, blocks, b);
    PromptsNext(env, opening, blocks);
    PromptsOfLonger(env, opening, blocks, b);
  }

  // What each way out returns is what the relation reports.

  lemma RaisedEnds(
      env: Env, setup: Setup, maxTurns: int, blocks: seq<Block>,
      turn: nat, messages: seq<Message>, made: seq<Entry>, prompts: seq<seq<Message>>, error: Exn)
    requires Underway(env, setup.opening, maxTurns, blocks, turn, messages, made, prompts)
    requires turn < maxTurns && env.chat(turn + 1, messages) == Err(error)
    ensures Explained(env, setup, maxTurns, Outcome(Err(error), messages, prompts + [messages], []))
  {
    hide Quiet, Prompt, Prompts, TookTurn, Made;
    PromptsNext(env, setup.opening, blocks);
    Reported(env, setup, maxTurns, blocks, ModelRaised(error));
  }

  lemma AnsweredEnds(
      env: Env, setup: Setup, maxTurns: int, blocks: seq<Block>,
      turn: nat, messages: seq<Message>, made: seq<Entry>, prompts: seq<seq<Message>>, content: Option<string>)
    requires Underway(env, setup.opening, maxTurns, blocks, turn, messages, made, prompts)
    requires turn < maxTurns && env.chat(turn + 1, messages) == Ok(Response(content, []))
    ensures Explained(env, setup, maxTurns, Outcome(
      Ok(ExecutorResult(setup.subgoal, true, OrElse(content, ""), made, turn + 1, None, None)),
      messages, prompts + [messages], []))
  {
    hide Quiet, Prompt, Prompts, TookTurn, Made;
    PromptsNext(env, setup.opening, blocks);
    Reported(env, setup, maxTurns, blocks, Answered(content));
  }

  lemma ToolsRaisedEnds(
      env: Env, setup: Setup, maxTurns: int, blocks: seq<Block>,
      turn: nat, messages: seq<Message>, made: seq<Entry>, prompts: seq<seq<Message>>,
      content: Option<string>, calls: seq<Call>, error: Exn)
    requires Underway(env, setup.opening, maxTurns, blocks, turn, messages, made, prompts)
    requires turn < maxTurns && env.chat(turn + 1, messages) == Ok(Response(content, calls)) && calls != []
    requires env.dispatch(turn + 1, calls) == Err(error)
    ensures Explained(env, setup, maxTurns,
                      Outcome(Err(error), messages + [Assistant(content, calls)], prompts + [messages], []))
  {
    hide Quiet, Prompt, Prompts, TookTurn, Made;
    PromptsNext(env, setup.opening, blocks);
    Reported(env, setup, maxTurns, blocks, ToolsRaised(content, calls, error));
  }

  lemma ExhaustedEnds(
      env: Env, setup: Setup, maxTurns: int, blocks: seq<Block>,
      turn: nat, messages: seq<Message>, made: seq<Entry>, prompts: seq<seq<Message>>)
    requires Underway(env, setup.opening, maxTurns, blocks, turn, messages, made, prompts) && turn >= maxTurns
    ensures Explained(env, setup, maxTurns, Outcome(
      Ok(ExecutorResult(setup.subgoal, false, setup.exhausted, made, turn, None, None)), messages, prompts, []))
  {
    hide Quiet, Prompt, Prompts, TookTurn, Made;
    Reported(env, setup, maxTurns, blocks, Exhausted);
  }

  lemma PausedEnds(
      env: Env, setup: Setup, maxTurns: int, blocks: seq<Block>, b: Block, i: nat)
    requires Conversation(env, setup.opening, blocks + [b]) && |blocks| < maxTurns && IsFirstFlagged(b, i)
    ensures var bs, n := blocks + [b], |blocks| + 1;
      var request := RequestOf(setup, b, i);
      Explained(env, setup, maxTurns, Outcome(
        Ok(ExecutorResult(setup.subgoal, true, "(awaiting human approval: " + request.id + ")", Made(bs), n, None, Some(request))),
        Prompt(env, setup.opening, bs), Prompts(env, setup.opening, bs, n), [request]))
  {
    hide Quiet, Prompt, Prompts, TookTurn, Made, IsFirstFlagged;
    FirstIndex(b, i);
    Reported(env, setup, maxTurns, blocks + [b], Paused(i));
  }

  lemma FirstIndex(b: Block, i: nat)
    requires IsFirstFlagged(b, i)
    ensures Paired(b) && i < |b.calls|
  {}

  lemma LastIndex(b: Block, i: nat)
    requires IsLastHandoff(b, i)
    ensures Paired(b) && i < |b.calls|
  {}

  lemma HandedOffEnds(
      env: Env, setup: Setup, maxTurns: int, blocks: seq<Block>, b: Block, i: nat)
    requires Conversation(env, setup.opening, blocks + [b]) && |blocks| < maxTurns
    requires NoneFlagged(b) && IsLastHandoff(b, i)
    ensures var bs, n := blocks + [b], |blocks| + 1;
      i < |b.calls| && Explained(env, setup, maxTurns, Outcome(
        Ok(ExecutorResult(setup.subgoal, true, "(handoff requested)", Made(bs), n, Some(b.calls[i].arguments), None)),
        Prompt(env, setup.opening, bs), Prompts(env, setup.opening, bs, n), []))
  {
    hide Quiet, Prompt, Prompts, TookTurn, Made, IsLastHandoff, NoneFlagged;
    LastIndex(b, i);
    Reported(env, setup, maxTurns, blocks + [b], HandedOff(i));
  }

  lemma Answering(env: Env, turn: nat, calls: seq<Call>)
    requires AnswersAll(env) && env.dispatch(turn, calls).Ok?
    ensures |env.dispatch(turn, calls).value| == |calls|
  {}

  lemma UnderwayTurn(
      env: Env, opening: seq<Message>, maxTurns: int, blocks: seq<Block>,
      turn: nat, messages: seq<Message>, made: seq<Entry>, prompts: seq<seq<Message>>)
    requires Underway(env, opening, maxTurns, blocks, turn, messages, made, prompts)
    ensures |blocks| == turn
  {}

  lemma QuietBlock(b: Block)
    requires NoneFlagged(b) && NoHandoff(b)
    ensures Quiet(b)
  {}

  // The two copies.

  /** A recorded decision, as the resumed prompt tells it. */
  datatype Decision = Decision(
    decision: string, approver: string, decidedAt: string, reason: string, overriding: Option<string>)

  /** The texts the model is opened with; nothing below depends on what they say. */
  datatype Wording = Wording(system: string, start: Subgoal -> string, resume: (Subgoal, string, Decision) -> string)

  function FreshSetup(wording: Wording, subgoal: Subgoal, maxTurns: int): (r: Setup)
    ensures r.subgoal == subgoal.id
  {
    Setup(subgoal.id, [System(wording.system), User(wording.start(subgoal))], "exec_" + subgoal.id,
          "(max_turns=" + Decimal(maxTurns) + " exhausted without final answer)")
  }

  function ResumedSetup(wording: Wording, subgoal: Subgoal, requestId: string, d: Decision, maxTurns: int): (r: Setup)
    ensures r.subgoal == subgoal.id
  {
    Setup(subgoal.id, [System(wording.system), User(wording.resume(subgoal, requestId, d))], "exec_resume_" + subgoal.id,
          "(max_turns=" + Decimal(maxTurns) + " exhausted in resumed subgoal)")
  }

  /** What tells the two copies apart, and all of it. */
  lemma SetupsTell(wording: Wording, subgoal: Subgoal, requestId: string, d: Decision, maxTurns: int)
    ensures var f, r := FreshSetup(wording, subgoal, maxTurns), ResumedSetup(wording, subgoal, requestId, d, maxTurns);
      && f.subgoal == r.subgoal == subgoal.id
      && f.ticketId == "exec_" + subgoal.id && r.ticketId == "exec_resume_" + subgoal.id
      && |f.opening| == 2 == |r.opening| && f.opening[0] == r.opening[0] == System(wording.system)
      && f.opening[1] == User(wording.start(subgoal)) && r.opening[1] == User(wording.resume(subgoal, requestId, d))
  {
    hide Decimal;
  }

  /** A fresh subgoal. */
  method FreshLoop(env: Env, wording: Wording, subgoal: Subgoal, maxTurns: int)
      returns (o: Outcome)
    requires AnswersAll(env)
    ensures Explained(env, FreshSetup(wording, subgoal, maxTurns), maxTurns, o)
  {
    hide Quiet, Underway, Conversation, AllQuiet, Prompt, Prompts, Made, Entries, Replies;
    hide NoneFlagged, NoHandoff, AnswersAll, Explained, FreshSetup, ResumedSetup;
    var setup := FreshSetup(wording, subgoal, maxTurns);
    var messages := setup.opening;
    ghost var opening := messages;
    ghost var blocks: seq<Block> := [];
    var made, prompts, turn := [], [], 0;
    Start(env, opening, maxTurns);
    while turn < maxTurns
      invariant Underway(env, opening, maxTurns, blocks, turn, messages, made, prompts)
    {
      ghost var before, asked := messages, prompts;
      turn := turn + 1;
      prompts := prompts + [messages];
      var response := env.chat(turn, messages);
      if response.Err? {
        RaisedEnds(env, setup, maxTurns, blocks, turn - 1, messages, made, asked, response.error);
        return Outcome(Err(response.error), messages, prompts, []);
      }
      var content, calls := response.value.content, response.value.calls;
      if calls == [] {
        AnsweredEnds(env, setup, maxTurns, blocks, turn - 1, messages, made, asked, content);
        return Outcome(
            Ok(ExecutorResult(subgoal.id, true, OrElse(content, ""), made, turn, None, None)), messages, prompts, []);
      }
      messages := messages + [Assistant(content, calls)];
      var outputs := env.dispatch(turn, calls);
      if outputs.Err? {
        ToolsRaisedEnds(env, setup, maxTurns, blocks, turn - 1, before, made, asked, content, calls, outputs.error);
        return Outcome(Err(outputs.error), messages, prompts, []);
      }
      Answering(env, turn, calls);
      var b := Block(content, calls, outputs.value);
      var index := FirstFlagged(b);
      var entries, replies, handoff := RecordBatch(env, b);
      Turned(env, opening, maxTurns, blocks, b, turn - 1, before, made, asked);
      UnderwayTurn(env, opening, maxTurns, blocks, turn - 1, before, made, asked);
      made := made + entries;
      messages := messages + replies;
      if index.Some? {
        FirstIndex(b, index.value);
        PausedEnds(env, setup, maxTurns, blocks, b, index.value);
        var request := RequestOf(setup, b, index.value);
        return Outcome(
            Ok(ExecutorResult(subgoal.id, true, "(awaiting human approval: " + request.id + ")", made, turn, None, Some(request))),
            messages, prompts, [request]);
      }
      if handoff.Some? {
        HandedOffEnds(env, setup, maxTurns, blocks, b, handoff.value);
        return Outcome(
            Ok(ExecutorResult(subgoal.id, true, "(handoff requested)", made, turn, Some(calls[handoff.value].arguments), None)),
            messages, prompts, []);
      }
      QuietBlock(b);
      blocks := blocks + [b];
    }
    ExhaustedEnds(env, setup, maxTurns, blocks, turn, messages, made, prompts);
    o := Outcome(
        Ok(ExecutorResult(subgoal.id, false, setup.exhausted, made, turn, None, None)), messages, prompts, []);
  }

  /** A subgoal taken up again after a decision; without one there is nothing to resume. */
  method ResumeFromApproval(
      env: Env, wording: Wording, subgoal: Subgoal, requestId: string, decision: Option<Decision>,
      stillPending: bool, maxTurns: int)
      returns (o: Result<Outcome, Exn>)
    requires AnswersAll(env)
    ensures o.Err? <==> decision.None?
    ensures o.Err? ==> o.error.Sovereign? && o.error.code == "SA_IO_NOT_FOUND"
    ensures o.Ok? ==> Explained(env, ResumedSetup(wording, subgoal, requestId, decision.value, maxTurns), maxTurns, o.value)
  {
    hide Quiet, Underway, Conversation, AllQuiet, Prompt, Prompts, Made, Entries, Replies;
    hide NoneFlagged, NoHandoff, AnswersAll, Explained, FreshSetup, ResumedSetup;
    if decision.None? {
      return Err(Sovereign("SA_IO_NOT_FOUND",
                           if stillPending then "approval is still pending; no decision to resume from"
                           else "no approval record with this id"));
    }
    var setup := ResumedSetup(wording, subgoal, requestId, decision.value, maxTurns);
    var messages := setup.opening;
    ghost var opening := messages;
    ghost var blocks: seq<Block> := [];
    var made, prompts, turn := [], [], 0;
    Start(env, opening, maxTurns);
    while turn < maxTurns
      invariant Underway(env, opening, maxTurns, blocks, turn, messages, made, prompts)
    {
      ghost var before, asked := messages, prompts;
      turn := turn + 1;
      prompts := prompts + [messages];
      var response := env.chat(turn, messages);
      if response.Err? {
        RaisedEnds(env, setup, maxTurns, blocks, turn - 1, messages, made, asked, response.error);
        return Ok(Outcome(Err(response.error), messages, prompts, []));
      }
      var content, calls := response.value.content, response.value.calls;
      if calls == [] {
        AnsweredEnds(env, setup, maxTurns, blocks, turn - 1, messages, made, asked, content);
        return Ok(Outcome(
            Ok(ExecutorResult(subgoal.id, true, OrElse(content, ""), made, turn, None, None)), messages, prompts, []));
      }
      messages := messages + [Assistant(content, calls)];
      var outputs := env.dispatch(turn, calls);
      if outputs.Err? {
        ToolsRaisedEnds(env, setup, maxTurns, blocks, turn - 1, before, made, asked, content, calls, outputs.error);
        return Ok(Outcome(Err(outputs.error), messages, prompts, []));
      }
      Answering(env, turn, calls);
      var b := Block(content, calls, outputs.value);
      var index := FirstFlagged(b);
      var entries, replies, handoff := RecordBatch(env, b);
      Turned(env, opening, maxTurns, blocks, b, turn - 1, before, made, asked);
      UnderwayTurn(env, opening, maxTurns, blocks, turn - 1, before, made, asked);
      made := made + entries;
      messages := messages + replies;
      if index.Some? {
        FirstIndex(b, index.value);
        PausedEnds(env, setup, maxTurns, blocks, b, index.value);
        var request := RequestOf(setup, b, index.value);
        return Ok(Outcome(
            Ok(ExecutorResult(subgoal.id, true, "(awaiting human approval: " + request.id + ")", made, turn, None, Some(request))),
            messages, prompts, [request]));
      }
      if handoff.Some? {
        HandedOffEnds(env, setup, maxTurns, blocks, b, handoff.value);
        return Ok(Outcome(
            Ok(ExecutorResult(subgoal.id, true, "(handoff requested)", made, turn, Some(calls[handoff.value].arguments), None)),
            messages, prompts, []));
      }
      QuietBlock(b);
      blocks := blocks + [b];
    }
    ExhaustedEnds(env, setup, maxTurns, blocks, turn, messages, made, prompts);
    o := Ok(Outcome(
        Ok(ExecutorResult(subgoal.id, false, setup.exhausted, made, turn, None, None)), messages, prompts, []));
  }
}
