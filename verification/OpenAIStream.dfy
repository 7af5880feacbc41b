/** Streaming an OpenAI-compatible provider to an Anthropic client
    (providers/openai_compat.py, `_stream_response_impl` and its recovery). */
module OpenAIStream {
  import opened OrderedDict
  import opened StreamContract
  import opened BlockState
  import opened JsonTexts
  import opened ToolCalls
  import opened StreamRecovery

  // ----- the upstream -----

  datatype FinishReason = Stop | Length | ToolCallsFinish | ContentFilter | OtherFinish

  /** `map_stop_reason`. */
  function MapStopReason(finish: FinishReason): StopReason {
    match finish
    case Length => MaxTokens
    case ToolCallsFinish => ToolUse
    case _ => EndTurn
  }

  /** A piece of `delta.content`, as the think-tag parser and the heuristic tool parser hand it on. */
  datatype Part = ThinkPart(content: string) | TextPart(filtered: string, tools: seq<HeuristicTool>)

  /** One upstream chunk; a chunk without choices is an empty one. */
  datatype Chunk = Chunk(finish: Option<FinishReason>, reasoning: string, parts: seq<Part>, calls: seq<ToolCall>)

  datatype StreamEnd = Exhausted | Broke(retryable: bool)

  /** What the think-tag parser still holds at the end. */
  datatype Leftover = NoLeftover | LeftThinking(content: string) | LeftText(content: string)

  /** One upstream attempt, with what its text parsers hand over when it ends. */
  datatype Attempt =
    | NotOpened(retryable: bool)
    | Opened(chunks: seq<Chunk>, end: StreamEnd, leftover: Leftover, lateTools: seq<HeuristicTool>)

  /** How the recovery requests and the token estimate turn out; `None` is a raised exception. */
  datatype Answers = Answers(
    repairs: RepairAnswers,
    continuation: Option<(string, string)>,         // text and thinking
    estimate: Option<nat>)

  // ----- one attempt -----

  function ProcessTools(json: Json, b: Blocks, tools: seq<HeuristicTool>): Out
    decreases |tools|
  {
    if tools == [] then Out(b, [])
    else
      var first := EmitHeuristic(json, b, tools[0]);
      Then(first, ProcessTools(json, first.b, tools[1..]))
  }

  function ProcessPart(json: Json, thinking: bool, b: Blocks, part: Part): Out {
    match part
    case ThinkPart(content) => if thinking then SayThinking(b, content) else Out(b, [])
    case TextPart(filtered, tools) =>
      var said := if filtered != "" then SayText(b, filtered) else Out(b, []);
      Then(said, ProcessTools(json, said.b, tools))
  }

  function ProcessParts(json: Json, thinking: bool, b: Blocks, parts: seq<Part>): Out
    decreases |parts|
  {
    if parts == [] then Out(b, [])
    else
      var first := ProcessPart(json, thinking, b, parts[0]);
      Then(first, ProcessParts(json, thinking, first.b, parts[1..]))
  }

  /** Everything of a chunk before its tool calls. */
  function ProcessContent(json: Json, thinking: bool, b: Blocks, chunk: Chunk): Out {
    var reasoned := if thinking && chunk.reasoning != "" then SayThinking(b, chunk.reasoning) else Out(b, []);
    var said := Then(reasoned, ProcessParts(json, thinking, reasoned.b, chunk.parts));
    if chunk.calls == [] then said else Then(said, CloseContent(said.b))
  }

  function ProcessChunk(json: Json, thinking: bool, s: Session, chunk: Chunk): Turn {
    var content := ProcessContent(json, thinking, s.b, chunk);
    var turn := ProcessToolCalls(json, s.(b := content.b), chunk.calls);
    turn.(events := content.events + turn.events)
  }

  function ProcessChunks(json: Json, thinking: bool, s: Session, chunks: seq<Chunk>): Turn
    decreases |chunks|
  {
    if chunks == [] then Turn(s, [], false)
    else
      var first := ProcessChunk(json, thinking, s, chunks[0]);
      if first.raised then first
      else
        var rest := ProcessChunks(json, thinking, first.s, chunks[1..]);
        rest.(events := first.events + rest.events)
  }

  function LastFinish(chunks: seq<Chunk>): Option<FinishReason> {
    if chunks == [] then None
    else if chunks[|chunks| - 1].finish.Some? then chunks[|chunks| - 1].finish
    else LastFinish(chunks[..|chunks| - 1])
  }

  /** The state and events of an attempt up to its end or its failure. */
  function AttemptTurn(json: Json, thinking: bool, a: Attempt): Turn {
    match a
    case NotOpened(_) => Turn(NewSession, [], false)
    case Opened(chunks, _, _, _) => ProcessChunks(json, thinking, NewSession, chunks)
  }

  datatype Outcome = Finished(finish: FinishReason) | Failed(retryable: bool)

  function AttemptOutcome(json: Json, thinking: bool, a: Attempt): Outcome {
    match a
    case NotOpened(retryable) => Failed(retryable)
    case Opened(chunks, end, _, _) =>
      if ProcessChunks(json, thinking, NewSession, chunks).raised then Failed(false)
      else if end.Broke? then Failed(end.retryable)
      else if LastFinish(chunks).None? then Failed(true)     // TruncatedProviderStreamError
      else Finished(LastFinish(chunks).value)
  }

  // ----- the normal end -----

  function FlushLeftover(thinking: bool, b: Blocks, leftover: Leftover): Out {
    match leftover
    case LeftThinking(content) => if thinking then SayThinking(b, content) else Out(b, [])
    case LeftText(content) => SayText(b, content)
    case NoLeftover => Out(b, [])
  }

  predicate GeneratedOutput(b: Blocks) {
    b.textIndex != -1 || b.thinkingIndex != -1 || HasStartedTool(b)
  }

  /** A stream with nothing in it, or with reasoning only, still shows a text block. */
  function Placeholder(b: Blocks): Out {
    if !GeneratedOutput(b) || (!HasStartedTool(b) && !HasInk(b.text) && HasInk(b.reasoning)) then SayText(b, " ")
    else Out(b, [])
  }

  /** The text side of the end of a stream. */
  function FinishContent(json: Json, thinking: bool, b: Blocks, a: Attempt): Out
    requires a.Opened?
  {
    var left := FlushLeftover(thinking, b, a.leftover);
    var tools := Then(left, ProcessTools(json, left.b, a.lateTools));
    Then(tools, Placeholder(tools.b))
  }

  /** The buffered arguments, aliased and Task. */
  function Flushes(json: Json, s: Session): Turn {
    var aliases := FlushAliases(json, s, s.aliasBuffers.keys);
    var tasks := FlushTasks(json, aliases.s);
    tasks.(events := aliases.events + tasks.events)
  }

  /** The completion up to the final stops. */
  function Flushed(json: Json, thinking: bool, s: Session, a: Attempt): Turn
    requires a.Opened?
  {
    var content := FinishContent(json, thinking, s.b, a);
    var turn := Flushes(json, s.(b := content.b));
    turn.(events := content.events + turn.events)
  }

  /** The block events of the completion. */
  function CompletionBlocks(json: Json, thinking: bool, s: Session, a: Attempt): seq<Event>
    requires a.Opened?
  {
    var turn := Flushed(json, thinking, s, a);
    turn.events + CloseAll(turn.s.b).events
  }

  /** The buffered tool arguments, then every open block's stop, then the message's own end. */
  function Completion(json: Json, thinking: bool, s: Session, a: Attempt, finish: FinishReason): seq<Event>
    requires a.Opened?
  {
    CompletionBlocks(json, thinking, s, a) + [MessageDelta(Some(MapStopReason(finish))), MessageStop]
  }

  // ----- recovery -----

  /** `_all_started_tools_complete`. */
  predicate AllStartedComplete(json: Json, b: Blocks) {
    HasStartedTool(b) && forall t :: t in b.tools.at && b.tools.at[t].started ==>
      json.Complete(b.tools.at[t].contents, b.tools.at[t].name)
  }

  /** What to repair: the shown arguments, or, before any were shown, the buffered ones. */
  function RepairPrefix(s: Session, t: int): string
    requires t in s.b.tools.at
  {
    var state := s.b.tools.at[t];
    if state.contents != "" then state.contents
    else if state.name == "Task" && state.taskArgBuffer != "" then state.taskArgBuffer
    else if t in s.aliasBuffers.at then s.aliasBuffers.at[t]
    else ""
  }

  /** Repairing one tool: `None` when it cannot be done. */
  function RepairTool(json: Json, s: Session, t: int, repairs: RepairAnswers): Option<Out>
    requires t in s.b.tools.at
  {
    var state := s.b.tools.at[t];
    var prefix := RepairPrefix(s, t);
    if json.Complete(prefix, state.name) then
      Some(if state.contents == "" && prefix != "" then EmitTool(s.b, t, prefix) else Out(s.b, []))
    else
      match TryRepair(json, prefix, state.name, t, repairs, 0)
      case Suffix(suffix) =>
        var toEmit := if state.contents != "" then suffix else prefix + suffix;
        Some(if toEmit != "" then EmitTool(s.b, t, toEmit) else Out(s.b, []))
      case _ => None
  }

  datatype Repairs = Repairs(b: Blocks, events: seq<Event>, ok: bool)

  /** `_repair_openai_tool_args` over the tools `order`: the state keeps what was built for the tools
      already done even when a later one fails. */
  function RepairTools(json: Json, s: Session, order: seq<int>, repairs: RepairAnswers): Repairs
    decreases |order|
  {
    if order == [] then Repairs(s.b, [], AllStartedComplete(json, s.b))
    else if !Live(s.b, order[0]) then RepairTools(json, s, order[1..], repairs)
    else
      match RepairTool(json, s, order[0], repairs)
      case None => Repairs(s.b, [], false)
      case Some(first) =>
        var rest := RepairTools(json, s.(b := first.b), order[1..], repairs);
        rest.(events := first.events + rest.events)
  }

  /** The repairs `RecoverTools` starts from. */
  function ToolRepairs(json: Json, s: Session, answers: Answers): Repairs {
    if AllStartedComplete(json, s.b) then Repairs(s.b, [], true)
    else RepairTools(json, s, s.b.tools.keys, answers.repairs)
  }

  /** `Crashed` is an exception after the blocks were closed in the state but not on the wire. */
  datatype Recovery = Declined(b: Blocks) | Crashed(b: Blocks) | Recovered(b: Blocks, events: seq<Event>)

  function CloseRecovery(b: Blocks, events: seq<Event>, reason: StopReason, answers: Answers): Recovery {
    var closed := CloseAll(b);
    if answers.estimate.None? then Crashed(closed.b)
    else Recovered(closed.b, events + closed.events + [MessageDelta(Some(reason)), MessageStop])
  }

  function RecoverTools(json: Json, s: Session, answers: Answers): Recovery {
    var repairs := ToolRepairs(json, s, answers);
    if !repairs.ok then Declined(repairs.b) else CloseRecovery(repairs.b, repairs.events, ToolUse, answers)
  }

  /** The continuation, appended to what was shown. */
  function Continue(b: Blocks, text: string, thinking: string): Out {
    var thought := if Continued(b.reasoning, thinking) != "" then SayThinking(b, Continued(b.reasoning, thinking)) else Out(b, []);
    var said := if Continued(b.text, text) != "" then SayText(thought.b, Continued(b.text, text)) else Out(thought.b, []);
    Then(thought, said)
  }

  function RecoverText(b: Blocks, answers: Answers): Recovery {
    if (b.text == "" && b.reasoning == "") || answers.continuation.None? then Declined(b)
    else
      var continued := Continue(b, answers.continuation.value.0, answers.continuation.value.1);
      if continued.events == [] then Declined(b) else CloseRecovery(continued.b, continued.events, EndTurn, answers)
  }

  /** `_openai_recovery_events`, exceptions included. */
  function Recover(json: Json, s: Session, answers: Answers): Recovery {
    if HasStartedTool(s.b) then RecoverTools(json, s, answers) else RecoverText(s.b, answers)
  }

  /** `_emit_openai_error_tail`. */
  function ErrorTail(b: Blocks, message: string): seq<Event> {
    var closed := CloseAll(b);
    closed.events
    + (if HasStartedTool(closed.b) then [ErrorEvent(message)] else EmitError(closed.b, message).events)
    + [MessageDelta(Some(EndTurn)), MessageStop]
  }

  /** What follows the events of a failed attempt that is not retried. */
  function FailureTail(json: Json, s: Session, retryable: bool, answers: Answers, message: string): seq<Event> {
    if GeneratedOutput(s.b) && retryable then
      match Recover(json, s, answers)
      case Recovered(_, events) => events
      case Declined(b) => ErrorTail(b, message)
      case Crashed(b) => ErrorTail(b, message)
    else ErrorTail(s.b, message)
  }

  /** Everything an attempt shows after message_start, when it is the last one. */
  function AttemptOutput(json: Json, thinking: bool, a: Attempt, answers: Answers, message: string): seq<Event> {
    var turn := AttemptTurn(json, thinking, a);
    turn.events +
    match AttemptOutcome(json, thinking, a)
    case Finished(finish) => assert a.Opened?; Completion(json, thinking, turn.s, a, finish)
    case Failed(retryable) => FailureTail(json, turn.s, retryable, answers, message)
  }
}
