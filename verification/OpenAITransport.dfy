/** The OpenAI transport's code (providers/openai_compat.py): the tool-call assembler, the recovery and
    the retry loop, run on the builder object and proved equal to the stream functions. */
module OpenAITransport {
  import opened OrderedDict
  import opened StreamContract
  import opened JsonTexts
  import opened BlockState
  import opened ToolCalls
  import opened StreamRecovery
  import opened OpenAIStream
  import opened OpenAIContract
  import opened SseBuilder
  import Text

  // ----- tool calls -----

  method EmitToolArgDelta(json: Json, sse: SSEBuilder, t: int, args: string, buffers: Dict<int, string>)
    returns (events: seq<Event>, buffers': Dict<int, string>, raised: bool)
    requires t in sse.toolStates.at
    modifies sse
    ensures Turn(Session(sse.State(), buffers'), events, raised) == EmitArg(json, Session(old(sse.State()), buffers), t, args)
  {
    events, buffers', raised := [], buffers, false;
    if args == "" {
      return;
    }
    var name := sse.toolStates.at[t].name;
    if name == "Task" {
      var parsed;
      parsed, raised := sse.BufferTaskArgs(json, t, args);
      if parsed.Some? {
        var delta := sse.EmitToolDelta(t, parsed.value);
        events := [delta];
      }
    } else if json.aliased(name) {
      var buffered := (if t in buffers.at then buffers.at[t] else "") + args;
      var restored := json.Restored(name, buffered);
      if restored.None? {
        buffers' := buffers.Put(t, buffered);
      } else {
        buffers' := buffers.Remove(t);
        var delta := sse.EmitToolDelta(t, restored.value);
        events := [delta];
      }
    } else {
      var delta := sse.EmitToolDelta(t, args);
      events := [delta];
    }
  }

  method ProcessOneToolCall(json: Json, sse: SSEBuilder, tc: ToolCall, buffers: Dict<int, string>)
    returns (events: seq<Event>, buffers': Dict<int, string>, raised: bool)
    modifies sse
    ensures Turn(Session(sse.State(), buffers'), events, raised) == ProcessToolCall(json, Session(old(sse.State()), buffers), tc)
  {
    if tc.MissingFunction? {
      return [], buffers, true;
    }
    var t := if tc.index.Some? then tc.index.value else 0;
    if t < 0 {
      t := |sse.toolStates.keys|;
    }
    NoteToolCall(sse, t, tc);
    if (t !in sse.toolStates.at || !sse.toolStates.at[t].started) &&
       HasInk(if t in sse.toolStates.at then sse.toolStates.at[t].name else "") {
      assert t in sse.toolStates.at;
      events, buffers', raised := BeginToolBlock(json, sse, t, tc.freshId, buffers);
      if !raised {
        var sent;
        sent, buffers', raised := TakeToolArguments(json, sse, t, tc.arguments, buffers');
        events := events + sent;
      }
    } else {
      events, buffers', raised := TakeToolArguments(json, sse, t, tc.arguments, buffers);
    }
  }

  /** The id and the name fragment of a delta. */
  method NoteToolCall(sse: SSEBuilder, t: int, tc: ToolCall)
    requires tc.ToolCall?
    modifies sse
    ensures sse.State() == Note(old(sse.State()), t, tc)
  {
    sse.SetStreamToolId(t, tc.id);
    if tc.name.Some? {
      sse.RegisterToolName(t, tc.name.value);
    }
  }

  method TakeToolArguments(json: Json, sse: SSEBuilder, t: int, args: string, buffers: Dict<int, string>)
    returns (events: seq<Event>, buffers': Dict<int, string>, raised: bool)
    modifies sse
    ensures Turn(Session(sse.State(), buffers'), events, raised) == TakeArguments(json, Session(old(sse.State()), buffers), t, args)
  {
    if args == "" {
      return [], buffers, false;
    }
    if t !in sse.toolStates.at || !sse.toolStates.at[t].started {
      var state := if t in sse.toolStates.at then sse.toolStates.at[t] else NewTool;
      sse.toolStates := sse.toolStates.Put(t, state.(preStartArgs := state.preStartArgs + args));
      return [], buffers, false;
    }
    events, buffers', raised := EmitToolArgDelta(json, sse, t, args, buffers);
  }

  /** The block start, and the arguments that waited for it. */
  method BeginToolBlock(json: Json, sse: SSEBuilder, t: int, freshId: string, buffers: Dict<int, string>)
    returns (events: seq<Event>, buffers': Dict<int, string>, raised: bool)
    requires t in sse.toolStates.at
    modifies sse
    ensures Turn(Session(sse.State(), buffers'), events, raised) == Begin(json, Session(old(sse.State()), buffers), t, freshId)
  {
    var state := sse.toolStates.at[t];
    var toolId := if state.toolId != "" then state.toolId else freshId;
    var start := sse.StartToolBlock(t, toolId, Text.Strip(state.name));
    var pre := state.preStartArgs;
    sse.toolStates := sse.toolStates.Put(t, sse.toolStates.at[t].(preStartArgs := ""));
    ghost var cleared := SetTool(old(sse.State()), t, state.(preStartArgs := ""));
    assert sse.State() == StartTool(cleared, t, toolId, Text.Strip(state.name)).b;
    var sent;
    sent, buffers', raised := EmitToolArgDelta(json, sse, t, pre, buffers);
    events := [start] + sent;
  }

  method FlushOneAlias(json: Json, sse: SSEBuilder, t: int, buffers: Dict<int, string>)
    returns (events: seq<Event>, buffers': Dict<int, string>)
    modifies sse
    ensures Turn(Session(sse.State(), buffers'), events, false) == FlushAlias(json, Session(old(sse.State()), buffers), t)
  {
    events, buffers' := [], buffers;
    var buffered := if t in buffers.at then buffers.at[t] else "";
    if buffered == "" {
      buffers' := buffers.Remove(t);
    } else if t in sse.toolStates.at && sse.toolStates.at[t].name != "Task" && json.aliased(sse.toolStates.at[t].name) {
      var restored := json.Restored(sse.toolStates.at[t].name, buffered);
      var delta := sse.EmitToolDelta(t, if restored.Some? then restored.value else buffered);
      events := [delta];
      buffers' := buffers.Remove(t);
    }
  }

  lemma AliasesUnroll(json: Json, s: Session, order: seq<int>, i: nat, sofar: seq<Event>, whole: Turn)
    requires i < |order|
    requires var rest := FlushAliases(json, s, order[i..]); whole == rest.(events := sofar + rest.events)
    ensures var first := FlushAlias(json, s, order[i]);
            var rest := FlushAliases(json, first.s, order[i + 1..]);
            whole == rest.(events := sofar + first.events + rest.events)
  {
    assert order[i..][0] == order[i] && order[i..][1..] == order[i + 1..];
    var first := FlushAlias(json, s, order[i]);
    ConcatAssoc(sofar, first.events, FlushAliases(json, first.s, order[i + 1..]).events);
  }

  method FlushAliasBuffers(json: Json, sse: SSEBuilder, buffers: Dict<int, string>)
    returns (events: seq<Event>, buffers': Dict<int, string>)
    modifies sse
    ensures Turn(Session(sse.State(), buffers'), events, false) ==
            FlushAliases(json, Session(old(sse.State()), buffers), buffers.keys)
  {
    events, buffers' := [], buffers;
    var order := buffers.keys;
    ghost var whole := FlushAliases(json, Session(sse.State(), buffers), order);
    for i := 0 to |order|
      invariant var rest := FlushAliases(json, Session(sse.State(), buffers'), order[i..]);
                whole == rest.(events := events + rest.events)
    {
      AliasesUnroll(json, Session(sse.State(), buffers'), order, i, events, whole);
      var sent;
      sent, buffers' := FlushOneAlias(json, sse, order[i], buffers');
      events := events + sent;
    }
  }

  method FlushTaskBuffers(json: Json, sse: SSEBuilder, ghost buffers: Dict<int, string>)
    returns (events: seq<Event>, raised: bool)
    modifies sse
    ensures Turn(Session(sse.State(), buffers), events, raised) == FlushTasks(json, Session(old(sse.State()), buffers))
  {
    DrainedKeys(json, sse.State(), sse.toolStates.keys);
    var results;
    results, raised := sse.FlushTaskArgBuffers(json);
    events := [];
    if !raised {
      events := EmitToolDeltas(sse, results);
    }
  }

  method EmitToolDeltas(sse: SSEBuilder, results: seq<(int, string)>) returns (events: seq<Event>)
    requires forall r :: r in results ==> r.0 in sse.toolStates.at
    modifies sse
    ensures Out(sse.State(), events) == EmitResults(old(sse.State()), results)
  {
    events := [];
    ghost var keys := sse.toolStates.at.Keys;
    for i := 0 to |results|
      invariant sse.toolStates.at.Keys == keys
      invariant var rest := EmitResults(sse.State(), results[i..]);
                EmitResults(old(sse.State()), results) == Out(rest.b, events + rest.events)
    {
      assert results[i..][1..] == results[i + 1..];
      assert results[i] in results;
      var delta := sse.EmitToolDelta(results[i].0, results[i].1);
      events := events + [delta];
    }
  }

  // ----- one chunk -----

  method EmitHeuristicTools(json: Json, sse: SSEBuilder, tools: seq<HeuristicTool>) returns (events: seq<Event>)
    modifies sse
    ensures Out(sse.State(), events) == ProcessTools(json, old(sse.State()), tools)
  {
    events := [];
    for i := 0 to |tools|
      invariant var rest := ProcessTools(json, sse.State(), tools[i..]);
                ProcessTools(json, old(sse.State()), tools) == Out(rest.b, events + rest.events)
    {
      assert tools[i..][1..] == tools[i + 1..];
      var sent := sse.EmitHeuristicTool(json, tools[i]);
      events := events + sent;
    }
  }

  method EmitPart(json: Json, thinking: bool, sse: SSEBuilder, part: Part) returns (events: seq<Event>)
    modifies sse
    ensures Out(sse.State(), events) == ProcessPart(json, thinking, old(sse.State()), part)
  {
    events := [];
    match part
    case ThinkPart(content) =>
      if thinking {
        events := sse.Think(content);
      }
    case TextPart(filtered, tools) =>
      if filtered != "" {
        events := sse.Say(filtered);
      }
      var sent := EmitHeuristicTools(json, sse, tools);
      events := events + sent;
  }

  method EmitContent(json: Json, thinking: bool, sse: SSEBuilder, chunk: Chunk) returns (events: seq<Event>)
    modifies sse
    ensures Out(sse.State(), events) == ProcessContent(json, thinking, old(sse.State()), chunk)
  {
    events := [];
    if thinking && chunk.reasoning != "" {
      events := sse.Think(chunk.reasoning);
    }
    var said := EmitParts(json, thinking, sse, chunk.parts);
    events := events + said;
    if chunk.calls != [] {
      var closed := sse.CloseContentBlocks();
      events := events + closed;
    }
  }

  lemma PartsUnroll(json: Json, thinking: bool, b: Blocks, parts: seq<Part>, i: nat, sofar: seq<Event>, whole: Out)
    requires i < |parts|
    requires whole == Then(Out(b, sofar), ProcessParts(json, thinking, b, parts[i..]))
    ensures var first := ProcessPart(json, thinking, b, parts[i]);
            whole == Then(Out(first.b, sofar + first.events), ProcessParts(json, thinking, first.b, parts[i + 1..]))
  {
    assert parts[i..][0] == parts[i] && parts[i..][1..] == parts[i + 1..];
    var first := ProcessPart(json, thinking, b, parts[i]);
    ConcatAssoc(sofar, first.events, ProcessParts(json, thinking, first.b, parts[i + 1..]).events);
  }

  method EmitParts(json: Json, thinking: bool, sse: SSEBuilder, parts: seq<Part>) returns (events: seq<Event>)
    modifies sse
    ensures Out(sse.State(), events) == ProcessParts(json, thinking, old(sse.State()), parts)
  {
    events := [];
    ghost var whole := ProcessParts(json, thinking, sse.State(), parts);
    for i := 0 to |parts|
      invariant whole == Then(Out(sse.State(), events), ProcessParts(json, thinking, sse.State(), parts[i..]))
    {
      PartsUnroll(json, thinking, sse.State(), parts, i, events, whole);
      var sent := EmitPart(json, thinking, sse, parts[i]);
      events := events + sent;
    }
  }

  /** The turn `whole` is the events `sofar` and then the calls from number `i` on. */
  predicate CallsLeft(json: Json, s: Session, calls: seq<ToolCall>, i: nat, sofar: seq<Event>, whole: Turn) {
    i <= |calls| && var rest := ProcessToolCalls(json, s, calls[i..]); whole == rest.(events := sofar + rest.events)
  }

  lemma AllCallsLeft(json: Json, s: Session, calls: seq<ToolCall>)
    ensures CallsLeft(json, s, calls, 0, [], ProcessToolCalls(json, s, calls))
  {
    assert calls[0..] == calls;
    ConcatEmpty(ProcessToolCalls(json, s, calls).events);
  }

  lemma NoCallsLeft(json: Json, s: Session, calls: seq<ToolCall>, sofar: seq<Event>, whole: Turn)
    requires CallsLeft(json, s, calls, |calls|, sofar, whole)
    ensures whole == Turn(s, sofar, false)
  {
    assert calls[|calls|..] == [];
    ConcatEmpty(sofar);
  }

  lemma ToolCallsUnroll(json: Json, s: Session, calls: seq<ToolCall>, i: nat, sofar: seq<Event>, whole: Turn)
    requires i < |calls| && CallsLeft(json, s, calls, i, sofar, whole)
    ensures var first := ProcessToolCall(json, s, calls[i]);
            if first.raised then whole == Turn(first.s, sofar + first.events, true)
            else CallsLeft(json, first.s, calls, i + 1, sofar + first.events, whole)
  {
    assert calls[i..][0] == calls[i] && calls[i..][1..] == calls[i + 1..];
    var first := ProcessToolCall(json, s, calls[i]);
    ConcatAssoc(sofar, first.events, ProcessToolCalls(json, first.s, calls[i + 1..]).events);
  }

  method EmitToolCalls(json: Json, sse: SSEBuilder, calls: seq<ToolCall>, buffers: Dict<int, string>)
    returns (events: seq<Event>, buffers': Dict<int, string>, raised: bool)
    modifies sse
    ensures Turn(Session(sse.State(), buffers'), events, raised) == ProcessToolCalls(json, Session(old(sse.State()), buffers), calls)
  {
    events, buffers', raised := [], buffers, false;
    ghost var whole := ProcessToolCalls(json, Session(sse.State(), buffers), calls);
    AllCallsLeft(json, Session(sse.State(), buffers), calls);
    for i := 0 to |calls|
      invariant !raised && CallsLeft(json, Session(sse.State(), buffers'), calls, i, events, whole)
    {
      ToolCallsUnroll(json, Session(sse.State(), buffers'), calls, i, events, whole);
      var sent;
      sent, buffers', raised := ProcessOneToolCall(json, sse, calls[i], buffers');
      events := events + sent;
      if raised {
        return;
      }
    }
    NoCallsLeft(json, Session(sse.State(), buffers'), calls, events, whole);
  }

  method EmitChunk(json: Json, thinking: bool, sse: SSEBuilder, chunk: Chunk, buffers: Dict<int, string>)
    returns (events: seq<Event>, buffers': Dict<int, string>, raised: bool)
    modifies sse
    ensures Turn(Session(sse.State(), buffers'), events, raised) == ProcessChunk(json, thinking, Session(old(sse.State()), buffers), chunk)
  {
    events := EmitContent(json, thinking, sse, chunk);
    var sent;
    sent, buffers', raised := EmitToolCalls(json, sse, chunk.calls, buffers);
    events := events + sent;
  }

  // ----- recovery and tails -----

  method RepairOneTool(json: Json, sse: SSEBuilder, t: int, buffers: Dict<int, string>, repairs: RepairAnswers)
    returns (events: seq<Event>, ok: bool)
    requires t in sse.toolStates.at
    modifies sse
    ensures var r := RepairTool(json, Session(old(sse.State()), buffers), t, repairs);
            if r.None? then !ok && sse.State() == old(sse.State()) else ok && Out(sse.State(), events) == r.value
  {
    var state := sse.toolStates.at[t];
    var prefix := RepairPrefix(Session(Blocks(sse.nextIndex, sse.thinkingIndex, sse.textIndex, sse.thinkingStarted, sse.textStarted,
                                              sse.toolStates, sse.accumulatedText, sse.accumulatedReasoning), buffers), t);
    var toEmit := "";
    if json.Complete(prefix, state.name) {
      toEmit := if state.contents == "" then prefix else "";
    } else {
      var result := RequestRepair(json, prefix, state.name, t, repairs);
      if !result.Suffix? {
        return [], false;
      }
      toEmit := if state.contents != "" then result.text else prefix + result.text;
    }
    events, ok := [], true;
    if toEmit != "" {
      var delta := sse.EmitToolDelta(t, toEmit);
      events := [delta];
    }
  }

  method RepairToolArgs(json: Json, sse: SSEBuilder, buffers: Dict<int, string>, repairs: RepairAnswers)
    returns (events: seq<Event>, ok: bool)
    modifies sse
    ensures var r := RepairTools(json, Session(old(sse.State()), buffers), old(sse.toolStates).keys, repairs);
            sse.State() == r.b && ok == r.ok && (ok ==> events == r.events)
  {
    events := [];
    var order := sse.toolStates.keys;
    for i := 0 to |order|
      invariant var rest := RepairTools(json, Session(sse.State(), buffers), order[i..], repairs);
                RepairTools(json, Session(old(sse.State()), buffers), order, repairs) == rest.(events := events + rest.events)
    {
      assert order[i..][1..] == order[i + 1..];
      if order[i] in sse.toolStates.at && sse.toolStates.at[order[i]].started {
        var sent;
        sent, ok := RepairOneTool(json, sse, order[i], buffers, repairs);
        if !ok {
          return;
        }
        events := events + sent;
      }
    }
    ok := AllToolsComplete(json, sse);
  }

  /** `_all_started_tools_complete`. */
  method AllToolsComplete(json: Json, sse: SSEBuilder) returns (ok: bool)
    ensures ok == AllStartedComplete(json, sse.State())
  {
    var started := false;
    var keys := sse.toolStates.at.Keys;
    ghost var all := keys;
    while keys != {}
      invariant keys <= all == sse.toolStates.at.Keys
      invariant started <==> exists t :: t in all - keys && sse.toolStates.at[t].started
      invariant forall t :: t in all - keys && sse.toolStates.at[t].started ==>
                  json.Complete(sse.toolStates.at[t].contents, sse.toolStates.at[t].name)
      decreases keys
    {
      SomeMember(keys);
      var t :| t in keys;
      keys := keys - {t};
      var state := sse.toolStates.at[t];
      if state.started {
        started := true;
        if !json.Complete(state.contents, state.name) {
          return false;
        }
      }
    }
    return started;
  }

  /** The shared end of both recoveries; the estimate may raise once the blocks are closed. */
  method FinishRecovery(sse: SSEBuilder, events: seq<Event>, reason: StopReason, answers: Answers)
    returns (recovered: Option<seq<Event>>)
    modifies sse
    ensures var r := CloseRecovery(old(sse.State()), events, reason, answers);
            sse.State() == r.b && recovered == if r.Recovered? then Some(r.events) else None
  {
    var stops := sse.CloseAllBlocks();
    if answers.estimate.None? {
      return None;
    }
    return Some(events + stops + [MessageDelta(Some(reason)), MessageStop]);
  }

  /** `_openai_recovery_events` for a retryable error; a raised exception counts as no recovery. */
  method RecoveryEvents(json: Json, sse: SSEBuilder, buffers: Dict<int, string>, answers: Answers)
    returns (recovered: Option<seq<Event>>)
    modifies sse
    ensures var r := Recover(json, Session(old(sse.State()), buffers), answers);
            sse.State() == r.b && recovered == if r.Recovered? then Some(r.events) else None
  {
    var complete := AllToolsComplete(json, sse);
    if exists t :: t in sse.toolStates.at && sse.toolStates.at[t].started {
      assert HasStartedTool(sse.State());
      var repairs := [];
      if !complete {
        var ok;
        repairs, ok := RepairToolArgs(json, sse, buffers, answers.repairs);
        if !ok {
          return None;
        }
      }
      recovered := FinishRecovery(sse, repairs, ToolUse, answers);
    } else {
      assert !HasStartedTool(sse.State());
      recovered := ContinueText(sse, answers);
    }
  }

  /** The text continuation, when no tool block has started. */
  method ContinueText(sse: SSEBuilder, answers: Answers) returns (recovered: Option<seq<Event>>)
    modifies sse
    ensures var r := RecoverText(old(sse.State()), answers);
            sse.State() == r.b && recovered == if r.Recovered? then Some(r.events) else None
  {
    if (sse.accumulatedText == "" && sse.accumulatedReasoning == "") || answers.continuation.None? {
      return None;
    }
    var (text, thinking) := answers.continuation.value;
    var textSuffix := ComputeContinuationSuffix(sse.accumulatedText, text);
    var thinkingSuffix := ComputeContinuationSuffix(sse.accumulatedReasoning, thinking);
    var events := [];
    if thinkingSuffix.Some? && thinkingSuffix.value != "" {
      events := sse.Think(thinkingSuffix.value);
    }
    if textSuffix.Some? && textSuffix.value != "" {
      var said := sse.Say(textSuffix.value);
      events := events + said;
    }
    assert Out(sse.State(), events) == Continue(old(sse.State()), text, thinking);
    if events == [] {
      return None;
    }
    recovered := FinishRecovery(sse, events, EndTurn, answers);
  }

  method EmitErrorTail(sse: SSEBuilder, message: string) returns (events: seq<Event>)
    modifies sse
    ensures events == ErrorTail(old(sse.State()), message)
  {
    events := sse.CloseAllBlocks();
    if exists t :: t in sse.toolStates.at && sse.toolStates.at[t].started {
      assert HasStartedTool(sse.State());
      events := events + [ErrorEvent(message)];
    } else {
      assert !HasStartedTool(sse.State());
      var error := sse.EmitErrorBlock(message);
      events := events + error;
    }
    events := events + [MessageDelta(Some(EndTurn)), MessageStop];
  }

  method EmitCompletion(json: Json, thinking: bool, sse: SSEBuilder, a: Attempt, buffers: Dict<int, string>, finish: FinishReason)
    returns (events: seq<Event>)
    requires a.Opened?
    modifies sse
    ensures events == Completion(json, thinking, Session(old(sse.State()), buffers), a, finish)
  {
    events := EmitFinishContent(json, thinking, sse, a);
    var aliases, buffers' := FlushAliasBuffers(json, sse, buffers);
    var tasks, _ := FlushTaskBuffers(json, sse, buffers');
    var stops := sse.CloseAllBlocks();
    events := events + (aliases + tasks) + stops + [MessageDelta(Some(MapStopReason(finish))), MessageStop];
  }

  method EmitFinishContent(json: Json, thinking: bool, sse: SSEBuilder, a: Attempt) returns (events: seq<Event>)
    requires a.Opened?
    modifies sse
    ensures Out(sse.State(), events) == FinishContent(json, thinking, old(sse.State()), a)
  {
    events := EmitLeftover(thinking, sse, a.leftover);
    var tools := EmitHeuristicTools(json, sse, a.lateTools);
    var placeholder := EmitPlaceholder(sse);
    events := events + tools + placeholder;
  }

  method EmitLeftover(thinking: bool, sse: SSEBuilder, leftover: Leftover) returns (events: seq<Event>)
    modifies sse
    ensures Out(sse.State(), events) == FlushLeftover(thinking, old(sse.State()), leftover)
  {
    events := [];
    match leftover
    case LeftThinking(content) =>
      if thinking {
        events := sse.Think(content);
      }
    case LeftText(content) =>
      events := sse.Say(content);
    case NoLeftover =>
  }

  method EmitPlaceholder(sse: SSEBuilder) returns (events: seq<Event>)
    modifies sse
    ensures Out(sse.State(), events) == Placeholder(old(sse.State()))
  {
    events := [];
    var hasTool := exists t :: t in sse.toolStates.at && sse.toolStates.at[t].started;
    assert hasTool == HasStartedTool(sse.State());
    var hasContent := sse.textIndex != -1 || sse.thinkingIndex != -1 || hasTool;
    if !hasContent {
      events := sse.Say(" ");
    } else if !hasTool && !HasInk(sse.accumulatedText) && HasInk(sse.accumulatedReasoning) {
      events := sse.Say(" ");
    }
  }

  // ----- the streaming loop -----

  /** The turn `whole` is the events `sofar` and then the chunks from number `i` on. */
  predicate ChunksLeft(json: Json, thinking: bool, s: Session, chunks: seq<Chunk>, i: nat, sofar: seq<Event>, whole: Turn) {
    i <= |chunks| && var rest := ProcessChunks(json, thinking, s, chunks[i..]); whole == rest.(events := sofar + rest.events)
  }

  lemma AllChunksLeft(json: Json, thinking: bool, s: Session, chunks: seq<Chunk>)
    ensures ChunksLeft(json, thinking, s, chunks, 0, [], ProcessChunks(json, thinking, s, chunks))
  {
    assert chunks[0..] == chunks;
    ConcatEmpty(ProcessChunks(json, thinking, s, chunks).events);
  }

  lemma NoChunksLeft(json: Json, thinking: bool, s: Session, chunks: seq<Chunk>, sofar: seq<Event>, whole: Turn)
    requires ChunksLeft(json, thinking, s, chunks, |chunks|, sofar, whole)
    ensures whole == Turn(s, sofar, false)
  {
    assert chunks[|chunks|..] == [];
    ConcatEmpty(sofar);
  }

  lemma ChunksUnroll(json: Json, thinking: bool, s: Session, chunks: seq<Chunk>, i: nat, sofar: seq<Event>, whole: Turn)
    requires i < |chunks| && ChunksLeft(json, thinking, s, chunks, i, sofar, whole)
    ensures var first := ProcessChunk(json, thinking, s, chunks[i]);
            if first.raised then whole == Turn(first.s, sofar + first.events, true)
            else ChunksLeft(json, thinking, first.s, chunks, i + 1, sofar + first.events, whole)
  {
    assert chunks[i..][0] == chunks[i] && chunks[i..][1..] == chunks[i + 1..];
    var first := ProcessChunk(json, thinking, s, chunks[i]);
    ConcatAssoc(sofar, first.events, ProcessChunks(json, thinking, first.s, chunks[i + 1..]).events);
  }

  lemma FinishUnroll(chunks: seq<Chunk>, i: nat)
    requires i < |chunks|
    ensures LastFinish(chunks[..i + 1]) == if chunks[i].finish.Some? then chunks[i].finish else LastFinish(chunks[..i])
  {
    assert chunks[..i + 1][..i] == chunks[..i];
  }

  /** Read one chunk, after the events `done`, and show what the holdback lets out. */
  method ReadChunk(json: Json, thinking: bool, chunk: Chunk, sse: SSEBuilder, buffers: Dict<int, string>,
                   holdback: RecoveryHoldbackBuffer, clock: nat -> real, size: Event -> nat, ticks: nat,
                   ghost done: seq<Event>, ghost start: nat)
    returns (out: seq<Event>, buffers': Dict<int, string>, raised: bool, ticks': nat)
    requires holdback.Valid() && holdback.Held(done, clock, size, start) && ticks == start + 2 * |done|
    modifies sse, holdback
    ensures var turn := ProcessChunk(json, thinking, Session(old(sse.State()), buffers), chunk);
            && turn.s == Session(sse.State(), buffers') && turn.raised == raised
            && out + holdback.events == old(holdback.events) + turn.events
            && holdback.Held(done + turn.events, clock, size, start) && ticks' == start + 2 * |done + turn.events|
            && (holdback.committed && !old(holdback.committed) ==> turn.events != [])
    ensures holdback.Valid() && (!holdback.committed ==> out == []) && (old(holdback.committed) ==> holdback.committed)
  {
    var events;
    events, buffers', raised := EmitChunk(json, thinking, sse, chunk, buffers);
    out, ticks' := HoldEvents(holdback, events, clock, size, ticks, done, start);
  }

  /** Read one opened upstream stream to its end or its failure. */
  method ReadChunks(json: Json, thinking: bool, chunks: seq<Chunk>, sse: SSEBuilder, holdback: RecoveryHoldbackBuffer,
                    clock: nat -> real, size: Event -> nat, ticks: nat)
    returns (shown: seq<Event>, buffers: Dict<int, string>, finish: Option<FinishReason>, raised: bool, ticks': nat)
    requires sse.State() == NewBlocks && holdback.Valid() && !holdback.committed && holdback.events == []
    requires holdback.Held([], clock, size, ticks)
    modifies sse, holdback
    ensures holdback.Valid()
    ensures ProcessChunks(json, thinking, NewSession, chunks) ==
            Turn(Session(sse.State(), buffers), shown + holdback.events, raised)
    ensures var es := shown + holdback.events; holdback.Held(es, clock, size, ticks) && ticks' == ticks + 2 * |es|
    ensures !raised ==> finish == LastFinish(chunks)
    ensures !holdback.committed ==> shown == []
    ensures holdback.committed ==> shown != []
  {
    shown, buffers, finish, raised, ticks' := [], Dict([], map[]), None, false, ticks;
    ghost var done: seq<Event> := [];
    ghost var whole := ProcessChunks(json, thinking, NewSession, chunks);
    AllChunksLeft(json, thinking, NewSession, chunks);
    for i := 0 to |chunks|
      invariant holdback.Valid() && !raised
      invariant finish == LastFinish(chunks[..i])
      invariant ChunksLeft(json, thinking, Session(sse.State(), buffers), chunks, i, done, whole)
      invariant shown + holdback.events == done
      invariant !holdback.committed ==> shown == []
      invariant holdback.committed ==> done != []
      invariant holdback.Held(done, clock, size, ticks) && ticks' == ticks + 2 * |done|
    {
      ChunksUnroll(json, thinking, Session(sse.State(), buffers), chunks, i, done, whole);
      FinishUnroll(chunks, i);
      if chunks[i].finish.Some? {
        finish := chunks[i].finish;
      }
      ghost var held, events := holdback.events, ProcessChunk(json, thinking, Session(sse.State(), buffers), chunks[i]).events;
      var out;
      out, buffers, raised, ticks' := ReadChunk(json, thinking, chunks[i], sse, buffers, holdback, clock, size, ticks', done, ticks);
      ConcatAssoc(shown, out, holdback.events);
      ConcatAssoc(shown, held, events);
      shown := shown + out;
      done := done + events;
      if raised {
        return;
      }
    }
    NoChunksLeft(json, thinking, Session(sse.State(), buffers), chunks, done, whole);
    assert chunks[..|chunks|] == chunks;
  }

  /** Whether a failed attempt is retried without the client noticing. */
  predicate RetriesUnseen(json: Json, thinking: bool, a: Attempt) {
    var b := AttemptTurn(json, thinking, a).s.b;
    a.Opened? && AttemptOutcome(json, thinking, a) == Failed(true) && !(GeneratedOutput(b) && AllStartedComplete(json, b))
  }

  /** A cut stream whose tools are complete is not retried, even if nothing was shown of it: it is shown and
      ended with tool_use, and no repair is asked for. */
  lemma CompleteIsKept(json: Json, thinking: bool, a: Attempt, answers: Answers, message: string)
    requires AttemptOutcome(json, thinking, a) == Failed(true) && answers.estimate.Some?
    requires var b := AttemptTurn(json, thinking, a).s.b;
             HasStartedTool(b) && forall t :: Live(b, t) ==> json.Complete(b.tools.at[t].contents, b.tools.at[t].name)
    ensures !RetriesUnseen(json, thinking, a)
    ensures var turn := AttemptTurn(json, thinking, a);
            AttemptOutput(json, thinking, a, answers, message) ==
            turn.events + (CloseAll(turn.s.b).events + [MessageDelta(Some(ToolUse)), MessageStop])
  {
    var b := AttemptTurn(json, thinking, a).s.b;
    assert forall t :: t in b.tools.at && b.tools.at[t].started ==> Live(b, t);
    ConcatEmpty(CloseAll(b).events);
  }

  /** A builder that has yielded nothing ends in an error as a new one does. */
  lemma SilentBuilder(b: Blocks, message: string)
    requires Good(b, [])
    ensures !GeneratedOutput(b) && ErrorTail(b, message) == ErrorTail(NewBlocks, message)
  {
    var c := Run(Fresh, []);
    assert c.open == map[] && 0 !in c.seen;
    assert forall t :: !Live(b, t);
    forall t | t in b.tools.at ensures !b.tools.at[t].started {
      assert !Live(b, t);
    }
    ToolStopsNone(b.tools, b.tools.keys);
  }

  /** The end of a failed attempt that is not retried: a recovery or the error tail, after whatever is
      still held. */
  method EndFailed(json: Json, sse: SSEBuilder, buffers: Dict<int, string>, holdback: RecoveryHoldbackBuffer,
                   retryable: bool, answers: Answers, message: string, ghost shown: seq<Event>)
    returns (out: seq<Event>)
    requires holdback.Valid() && (holdback.committed ==> shown != []) && (!holdback.committed ==> shown == [])
    requires Good(sse.State(), shown + holdback.events)
    modifies sse, holdback
    ensures out == old(holdback.events) +
                   FailureTail(json, Session(old(sse.State()), buffers), retryable, answers, message)
  {
    var committed := holdback.committed;
    var generated := sse.textIndex != -1 || sse.thinkingIndex != -1 ||
                     exists t :: t in sse.toolStates.at && sse.toolStates.at[t].started;
    assert generated == GeneratedOutput(sse.State());
    if shown + holdback.events == [] {
      SilentBuilder(sse.State(), message);
    }
    if generated && retryable {
      var recovered := RecoveryEvents(json, sse, buffers, answers);
      if recovered.Some? {
        var held := [];
        if !committed {
          held := holdback.Flush();
        }
        return held + recovered.value;
      }
    }
    out := [];
    var builder := sse;
    if !committed && holdback.events != [] {
      out := holdback.Flush();
    } else if !committed {
      holdback.Discard();
      builder := new SSEBuilder();
    }
    var tail := EmitErrorTail(builder, message);
    out := out + tail;
  }

  /** The attempt fails in a way that is retried, before the client has been shown anything of it. */
  ghost predicate FailsEarly(json: Json, thinking: bool, a: Attempt, clock: nat -> real, size: Event -> nat) {
    RetriesUnseen(json, thinking, a) && !Commits(AttemptTurn(json, thinking, a).events, clock, size, 0)
  }

  /** The first `n` attempts fail early; `clocks` are the readings each attempt takes. */
  ghost predicate AllFailEarly(json: Json, thinking: bool, attempts: seq<Attempt>, clocks: nat -> nat -> real, size: Event -> nat, n: nat)
    requires n <= |attempts|
  {
    n == 0 || (&& AllFailEarly(json, thinking, attempts, clocks, size, n - 1)
               && FailsEarly(json, thinking, attempts[n - 1], clocks(n - 1), size))
  }

  /** Attempt `n`, after those before it have failed early. */
  method NextAttempt(json: Json, thinking: bool, attempts: seq<Attempt>, n: nat, answers: Answers, message: string,
                     clocks: nat -> nat -> real, size: Event -> nat)
    returns (shown: seq<Event>, again: bool)
    requires n < |attempts| && AllFailEarly(json, thinking, attempts, clocks, size, n)
    ensures again ==> n < 4 && shown == [] && AllFailEarly(json, thinking, attempts, clocks, size, n + 1)
    ensures !again ==> shown == AttemptOutput(json, thinking, attempts[n], answers, message)
    ensures !again && n < 4 ==> !AllFailEarly(json, thinking, attempts, clocks, size, n + 1)
  {
    shown, again := RunAttempt(json, thinking, attempts[n], answers, message, n < EARLY_TRANSPARENT_MAX_RETRIES, clocks(n), size);
  }

  /** `_stream_response_impl`, for runs that return normally. `attempts` are the upstream streams an
      attempt may meet, `answers` and `messages` what recovery and error mapping would make of each. What
      the client is sent, after message_start, is the output of one attempt only: the first that does not
      fail early, or else the fifth. */
  method StreamResponse(json: Json, thinking: bool, attempts: seq<Attempt>, answers: nat -> Answers, messages: nat -> string,
                        clocks: nat -> nat -> real, size: Event -> nat)
    returns (out: seq<Event>, retries: nat)
    requires |attempts| >= EARLY_TRANSPARENT_TOTAL_ATTEMPTS
    ensures retries < EARLY_TRANSPARENT_TOTAL_ATTEMPTS
    ensures out == [MessageStart] + AttemptOutput(json, thinking, attempts[retries], answers(retries), messages(retries))
    ensures retries <= 4 && AllFailEarly(json, thinking, attempts, clocks, size, retries)
    ensures retries < 4 ==> !AllFailEarly(json, thinking, attempts, clocks, size, retries + 1)
    ensures Framed(out)
    ensures Contract(out, true) <==> !AttemptForgetsBlock(json, thinking, attempts[retries], answers(retries))
  {
    out, retries := StreamAttempts(json, thinking, attempts, answers, messages, clocks, size);
    AttemptOutputContract(json, thinking, attempts[retries], answers(retries), messages(retries));
    out := [MessageStart] + out;
  }

  /** The loop over the attempts. */
  method StreamAttempts(json: Json, thinking: bool, attempts: seq<Attempt>, answers: nat -> Answers, messages: nat -> string,
                        clocks: nat -> nat -> real, size: Event -> nat)
    returns (out: seq<Event>, retries: nat)
    requires |attempts| >= EARLY_TRANSPARENT_TOTAL_ATTEMPTS
    ensures retries <= 4 && AllFailEarly(json, thinking, attempts, clocks, size, retries)
    ensures retries < 4 ==> !AllFailEarly(json, thinking, attempts, clocks, size, retries + 1)
    ensures out == AttemptOutput(json, thinking, attempts[retries], answers(retries), messages(retries))
  {
    retries := 0;
    while true
      invariant 0 <= retries < EARLY_TRANSPARENT_TOTAL_ATTEMPTS
      invariant AllFailEarly(json, thinking, attempts, clocks, size, retries)
      decreases EARLY_TRANSPARENT_TOTAL_ATTEMPTS - retries
    {
      var again;
      out, again := NextAttempt(json, thinking, attempts, retries, answers(retries), messages(retries), clocks, size);
      if !again {
        return;
      }
      retries := retries + 1;
    }
  }

  /** One turn of the loop: either the attempt shows nothing and is retried, or it is the last. */
  method RunAttempt(json: Json, thinking: bool, a: Attempt, answers: Answers, message: string, mayRetry: bool,
                    clock: nat -> real, size: Event -> nat)
    returns (shown: seq<Event>, again: bool)
    ensures again <==> mayRetry && FailsEarly(json, thinking, a, clock, size)
    ensures again ==> shown == []
    ensures !again ==> shown == AttemptOutput(json, thinking, a, answers, message)
  {
    var sse := new SSEBuilder();
    var holdback := NewHoldback(clock, size, 0);
    var buffers, outcome, ticks;
    shown, buffers, outcome, ticks := ReadAttempt(json, thinking, a, sse, holdback, clock, size, 0);
    ghost var turn := AttemptTurn(json, thinking, a);
    AttemptSound(json, thinking, a);
    ConcatEmpty(turn.events);
    match outcome
    case Finished(reason) =>
      ghost var held := holdback.events;
      var rest := EndFinished(json, thinking, a, sse, buffers, reason, holdback, clock, size, ticks, turn.events, 0);
      ConcatAssoc(shown, held, Completion(json, thinking, turn.s, a, reason));
      return shown + rest, false;
    case Failed(retryable) =>
      ghost var held := holdback.events;
      var rest, retried := EndOrRetry(json, sse, buffers, holdback, retryable, mayRetry && a.Opened?, answers, message, shown);
      ConcatAssoc(shown, held, FailureTail(json, turn.s, retryable, answers, message));
      return shown + rest, retried;
  }

  /** Read an attempt to its end, and say how it ended. */
  method ReadAttempt(json: Json, thinking: bool, a: Attempt, sse: SSEBuilder, holdback: RecoveryHoldbackBuffer,
                     clock: nat -> real, size: Event -> nat, ticks: nat)
    returns (shown: seq<Event>, buffers: Dict<int, string>, outcome: Outcome, ticks': nat)
    requires sse.State() == NewBlocks && holdback.Valid() && !holdback.committed && holdback.events == []
    requires holdback.Held([], clock, size, ticks)
    modifies sse, holdback
    ensures holdback.Valid() && (holdback.committed ==> shown != []) && (!holdback.committed ==> shown == [])
    ensures outcome == AttemptOutcome(json, thinking, a)
    ensures AttemptTurn(json, thinking, a).s == Session(sse.State(), buffers)
    ensures var es := AttemptTurn(json, thinking, a).events;
            shown + holdback.events == es && holdback.Held(es, clock, size, ticks) && ticks' == ticks + 2 * |es|
  {
    var finish, raised := None, false;
    shown, buffers, ticks' := [], Dict([], map[]), ticks;
    if a.Opened? {
      shown, buffers, finish, raised, ticks' := ReadChunks(json, thinking, a.chunks, sse, holdback, clock, size, ticks);
    }
    outcome := if a.NotOpened? then Failed(a.retryable)
               else if raised then Failed(false)
               else if a.end.Broke? then Failed(a.end.retryable)
               else if finish.None? then Failed(true)
               else Finished(finish.value);
  }

  /** A failed attempt is retried, if that may be and nothing was shown of it nor would be worth showing, or
      it ends here. */
  method EndOrRetry(json: Json, sse: SSEBuilder, buffers: Dict<int, string>, holdback: RecoveryHoldbackBuffer, retryable: bool,
                    mayRetry: bool, answers: Answers, message: string, ghost shown: seq<Event>)
    returns (out: seq<Event>, retried: bool)
    requires holdback.Valid() && (holdback.committed ==> shown != []) && (!holdback.committed ==> shown == [])
    requires Good(sse.State(), shown + holdback.events)
    modifies sse, holdback
    ensures retried <==> mayRetry && retryable && !old(holdback.committed)
                         && !(GeneratedOutput(old(sse.State())) && AllStartedComplete(json, old(sse.State())))
    ensures retried ==> out == []
    ensures !retried ==> out == old(holdback.events) +
                                FailureTail(json, Session(old(sse.State()), buffers), retryable, answers, message)
  {
    retried := mayRetry && retryable && !holdback.committed;
    if retried {
      var salvageable := Salvageable(json, sse);
      retried := !salvageable;
    }
    if retried {
      holdback.Discard();
      return [], true;
    }
    out := EndFailed(json, sse, buffers, holdback, retryable, answers, message, shown);
  }

  /** Something was shown, and all tools that started are complete. */
  method Salvageable(json: Json, sse: SSEBuilder) returns (r: bool)
    ensures r <==> GeneratedOutput(sse.State()) && AllStartedComplete(json, sse.State())
  {
    var complete := AllToolsComplete(json, sse);
    var generated := sse.textIndex != -1 || sse.thinkingIndex != -1 ||
                     exists t :: t in sse.toolStates.at && sse.toolStates.at[t].started;
    assert generated == GeneratedOutput(sse.State());
    return generated && complete;
  }

  /** The end of an attempt that ran to its finish reason. */
  method EndFinished(json: Json, thinking: bool, a: Attempt, sse: SSEBuilder, buffers: Dict<int, string>, reason: FinishReason,
                     holdback: RecoveryHoldbackBuffer, clock: nat -> real, size: Event -> nat, ticks: nat,
                     ghost done: seq<Event>, ghost start: nat)
    returns (out: seq<Event>)
    requires a.Opened? && Good(sse.State(), done) && Pending(json, Session(sse.State(), buffers))
    requires holdback.Valid() && holdback.Held(done, clock, size, start) && ticks == start + 2 * |done|
    modifies sse, holdback
    ensures out == old(holdback.events) + Completion(json, thinking, Session(old(sse.State()), buffers), a, reason)
  {
    var rest := EmitCompletion(json, thinking, sse, a, buffers, reason);
    var more, _ := HoldEvents(holdback, rest, clock, size, ticks, done, start);
    var last := holdback.Flush();
    return more + last;
  }
}
