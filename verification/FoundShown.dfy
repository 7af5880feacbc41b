/** Every tool call found in the text of an OpenAI stream is shown
    (providers/openai_compat.py, `_iter_heuristic_tool_use_sse` and the places that call it). */
module FoundShown {
  import opened OrderedDict
  import opened StreamContract
  import opened BlockState
  import opened JsonTexts
  import opened ToolCalls
  import opened OpenAIStream
  import opened OpenAIContract
  import opened OpenAIRecovery
  import opened OpenAIArguments
  import opened SpokenWords

  // ----- what is found -----

  function PartsTools(parts: seq<Part>): seq<HeuristicTool> {
    if parts == [] then [] else (if parts[0].TextPart? then parts[0].tools else []) + PartsTools(parts[1..])
  }

  /** The calls found in the text of the chunks, in order. */
  function ToolsFound(chunks: seq<Chunk>): seq<HeuristicTool> {
    if chunks == [] then [] else PartsTools(chunks[0].parts) + ToolsFound(chunks[1..])
  }

  /** At position `p` stands a whole block of the tool: its start, its arguments, in the foreground if it is
      a Task, and its stop. */
  predicate WholeAt(json: Json, es: seq<Event>, p: int, tool: HeuristicTool) {
    && 0 <= p && p + 2 < |es|
    && es[p].BlockStart? && es[p].block == ToolUseBlock(tool.id, tool.name, "{}")
    && es[p + 1] == BlockDelta(es[p].index, InputJsonDelta(
         if tool.name == "Task" && json.parse(tool.input).Object? then json.foreground(tool.input) else tool.input))
    && es[p + 2] == BlockStop(es[p].index)
  }

  /** The tools have their whole blocks, one after the other. */
  ghost predicate ShownWhole(json: Json, es: seq<Event>, tools: seq<HeuristicTool>)
    decreases |tools|
  {
    tools == [] || exists p :: WholeAt(json, es, p, tools[0]) && ShownWhole(json, es[p + 3..], tools[1..])
  }

  lemma OneShown(json: Json, es: seq<Event>, p: int, tool: HeuristicTool)
    requires WholeAt(json, es, p, tool)
    ensures ShownWhole(json, es, [tool])
  {
    assert [tool][1..] == [] && [tool][0] == tool;
    assert ShownWhole(json, es[p + 3..], [tool][1..]);
  }

  lemma WholeStays(json: Json, a: seq<Event>, es: seq<Event>, b: seq<Event>, p: int, tool: HeuristicTool)
    requires WholeAt(json, es, p, tool)
    ensures WholeAt(json, a + es + b, |a| + p, tool) && (a + es + b)[|a| + p + 3..] == es[p + 3..] + b
  {
    var all := a + es + b;
    assert all[|a| + p] == es[p] && all[|a| + p + 1] == es[p + 1] && all[|a| + p + 2] == es[p + 2];
  }

  lemma {:induction false} LaterShown(json: Json, a: seq<Event>, es: seq<Event>, tools: seq<HeuristicTool>)
    requires ShownWhole(json, es, tools)
    ensures ShownWhole(json, a + es, tools)
  {
    if tools != [] {
      var p :| WholeAt(json, es, p, tools[0]) && ShownWhole(json, es[p + 3..], tools[1..]);
      WholeStays(json, a, es, [], p, tools[0]);
      ConcatEmpty(a + es);
      ConcatEmpty(es[p + 3..]);
    }
  }

  lemma {:induction false} BothShown(json: Json, es: seq<Event>, tools: seq<HeuristicTool>, es': seq<Event>, tools': seq<HeuristicTool>)
    requires ShownWhole(json, es, tools) && ShownWhole(json, es', tools')
    ensures ShownWhole(json, es + es', tools + tools')
    decreases |tools|
  {
    if tools == [] {
      ConcatEmpty(tools');
      LaterShown(json, es, es', tools');
    } else {
      var p :| WholeAt(json, es, p, tools[0]) && ShownWhole(json, es[p + 3..], tools[1..]);
      BothShown(json, es[p + 3..], tools[1..], es', tools');
      WholeStays(json, [], es, es', p, tools[0]);
      ConcatEmpty(es);
      FirstOfBoth(json, es + es', p, tools, tools');
    }
  }

  lemma FirstOfBoth(json: Json, es: seq<Event>, p: int, tools: seq<HeuristicTool>, tools': seq<HeuristicTool>)
    requires tools != [] && WholeAt(json, es, p, tools[0]) && ShownWhole(json, es[p + 3..], tools[1..] + tools')
    ensures ShownWhole(json, es, tools + tools')
  {
    assert (tools + tools')[1..] == tools[1..] + tools' && (tools + tools')[0] == tools[0];
  }

  lemma MoreAround(json: Json, es: seq<Event>, tools: seq<HeuristicTool>, more: seq<Event>)
    requires ShownWhole(json, es, tools)
    ensures ShownWhole(json, es + more, tools)
  {
    BothShown(json, es, tools, more, []);
    ConcatEmpty(tools);
  }

  // ----- and shown -----

  lemma ToolShown(json: Json, b: Blocks, tool: HeuristicTool)
    ensures ShownWhole(json, EmitHeuristic(json, b, tool).events, [tool])
  {
    var closed := CloseContent(b);
    var block := FoundBlock(json, closed.b.nextIndex, tool);
    OneShown(json, block, 0, tool);
    LaterShown(json, closed.events, block, [tool]);
  }

  lemma {:induction false} ToolsShown(json: Json, b: Blocks, tools: seq<HeuristicTool>)
    ensures ShownWhole(json, ProcessTools(json, b, tools).events, tools)
    decreases |tools|
  {
    if tools != [] {
      var first := EmitHeuristic(json, b, tools[0]);
      ToolShown(json, b, tools[0]);
      ToolsShown(json, first.b, tools[1..]);
      BothShown(json, first.events, [tools[0]], ProcessTools(json, first.b, tools[1..]).events, tools[1..]);
      assert tools == [tools[0]] + tools[1..];
    }
  }

  lemma {:induction false} PartsShown(json: Json, thinking: bool, b: Blocks, parts: seq<Part>)
    ensures ShownWhole(json, ProcessParts(json, thinking, b, parts).events, PartsTools(parts))
    decreases |parts|
  {
    if parts != [] {
      var first := ProcessPart(json, thinking, b, parts[0]);
      if parts[0].TextPart? {
        var said := if parts[0].filtered != "" then SayText(b, parts[0].filtered) else Out(b, []);
        ToolsShown(json, said.b, parts[0].tools);
        LaterShown(json, said.events, ProcessTools(json, said.b, parts[0].tools).events, parts[0].tools);
      }
      PartsShown(json, thinking, first.b, parts[1..]);
      BothShown(json, first.events, if parts[0].TextPart? then parts[0].tools else [],
                ProcessParts(json, thinking, first.b, parts[1..]).events, PartsTools(parts[1..]));
    }
  }

  lemma ChunkShown(json: Json, thinking: bool, s: Session, chunk: Chunk)
    ensures ShownWhole(json, ProcessChunk(json, thinking, s, chunk).events, PartsTools(chunk.parts))
  {
    var reasoned := if thinking && chunk.reasoning != "" then SayThinking(s.b, chunk.reasoning) else Out(s.b, []);
    var parts := ProcessParts(json, thinking, reasoned.b, chunk.parts);
    var content := ProcessContent(json, thinking, s.b, chunk);
    PartsShown(json, thinking, reasoned.b, chunk.parts);
    LaterShown(json, reasoned.events, parts.events, PartsTools(chunk.parts));
    MoreAround(json, reasoned.events + parts.events, PartsTools(chunk.parts), CloseContent(parts.b).events);
    MoreAround(json, content.events, PartsTools(chunk.parts), ProcessToolCalls(json, s.(b := content.b), chunk.calls).events);
  }

  lemma {:induction false} ChunksShown(json: Json, thinking: bool, s: Session, chunks: seq<Chunk>)
    ensures ShownWhole(json, ProcessChunks(json, thinking, s, chunks).events, ToolsFound(ReadChunks(json, thinking, s, chunks)))
    decreases |chunks|
  {
    if chunks != [] {
      var first, read := ProcessChunk(json, thinking, s, chunks[0]), ReadChunks(json, thinking, s, chunks);
      ChunkShown(json, thinking, s, chunks[0]);
      if first.raised {
        assert read[1..] == [];
        ConcatEmpty(PartsTools(chunks[0].parts));
      } else {
        assert read[1..] == ReadChunks(json, thinking, first.s, chunks[1..]);
        ChunksShown(json, thinking, first.s, chunks[1..]);
        BothShown(json, first.events, PartsTools(chunks[0].parts), ProcessChunks(json, thinking, first.s, chunks[1..]).events, ToolsFound(read[1..]));
      }
    }
  }

  lemma FinishShown(json: Json, thinking: bool, b: Blocks, a: Attempt)
    requires a.Opened?
    ensures ShownWhole(json, FinishContent(json, thinking, b, a).events, a.lateTools)
  {
    var left := FlushLeftover(thinking, b, a.leftover);
    var tools := ProcessTools(json, left.b, a.lateTools);
    ToolsShown(json, left.b, a.lateTools);
    LaterShown(json, left.events, tools.events, a.lateTools);
    MoreAround(json, left.events + tools.events, a.lateTools, Placeholder(tools.b).events);
  }

  lemma CompletionShown(json: Json, thinking: bool, s: Session, a: Attempt, finish: FinishReason)
    requires a.Opened?
    ensures ShownWhole(json, Completion(json, thinking, s, a, finish), a.lateTools)
  {
    var content := FinishContent(json, thinking, s.b, a);
    var rest := Flushes(json, s.(b := content.b)).events;
    var stops := CloseAll(Flushed(json, thinking, s, a).s.b).events;
    FinishShown(json, thinking, s.b, a);
    MoreAround(json, content.events, a.lateTools, rest);
    MoreAround(json, content.events + rest, a.lateTools, stops);
    MoreAround(json, content.events + rest + stops, a.lateTools, [MessageDelta(Some(MapStopReason(finish))), MessageStop]);
  }

  /** Every tool call found in the text that was read is shown, whole and in order; and at a normal end so
      are those found when the text ended. */
  lemma FoundAreShown(json: Json, thinking: bool, a: Attempt, answers: Answers, message: string)
    ensures ShownWhole(json, AttemptOutput(json, thinking, a, answers, message),
                       ToolsFound(ReadOf(json, thinking, a))
                       + if AttemptOutcome(json, thinking, a).Finished? then a.lateTools else [])
  {
    var turn, found := AttemptTurn(json, thinking, a), ToolsFound(ReadOf(json, thinking, a));
    if a.Opened? {
      ChunksShown(json, thinking, NewSession, a.chunks);
    }
    match AttemptOutcome(json, thinking, a)
    case Finished(finish) =>
      CompletionShown(json, thinking, turn.s, a, finish);
      BothShown(json, turn.events, found, Completion(json, thinking, turn.s, a, finish), a.lateTools);
    case Failed(retryable) =>
      MoreAround(json, turn.events, found, FailureTail(json, turn.s, retryable, answers, message));
      ConcatEmpty(found);
  }
}
