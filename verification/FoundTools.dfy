/** Where the tool blocks of an OpenAI stream come from: streamed tool calls, or calls found in the text
    (providers/openai_compat.py, `_iter_heuristic_tool_use_sse`), which are sent whole. */
module FoundTools {
  import opened OrderedDict
  import opened StreamContract
  import opened BlockState
  import opened JsonTexts
  import opened ToolCalls
  import opened ToolFragments
  import opened StreamRecovery
  import opened OpenAIStream
  import opened OpenAIContract
  import opened OpenAIRecovery
  import opened OpenAIArguments
  import opened OpenAITasks
  import Text

  predicate StartsTool(e: Event) {
    e.BlockStart? && e.block.ToolUseBlock?
  }

  /** Block `i` is that of a tool the client streams. */
  ghost predicate Registered(b: Blocks, i: int) {
    exists t :: Live(b, t) && b.tools.at[t].blockIndex == i
  }

  /** A whole tool block stands at position `p`, with the arguments of a call found in text. */
  ghost predicate FoundAt(json: Json, es: seq<Event>, p: int) {
    && 0 <= p && p + 2 < |es| && StartsTool(es[p])
    && exists tool: HeuristicTool :: tool.name == es[p].block.name && es[p..p + 3] == FoundBlock(json, es[p].index, tool)
  }

  /** Every tool block started in `es` belongs to a streamed call, or was found in text. */
  ghost predicate Traced(json: Json, b: Blocks, es: seq<Event>) {
    forall p :: 0 <= p < |es| && StartsTool(es[p]) ==> Registered(b, es[p].index) || FoundAt(json, es, p)
  }

  /** Tools that have started keep their blocks. */
  ghost predicate Keeps(b: Blocks, b': Blocks) {
    forall t :: Live(b, t) ==> Live(b', t) && b'.tools.at[t].blockIndex == b.tools.at[t].blockIndex
  }

  predicate NoToolStarts(es: seq<Event>) {
    forall p :: 0 <= p < |es| ==> !StartsTool(es[p])
  }

  lemma TracedConcat(json: Json, b: Blocks, es: seq<Event>, b': Blocks, more: seq<Event>)
    requires Traced(json, b, es) && Traced(json, b', more) && Keeps(b, b')
    ensures Traced(json, b', es + more)
  {
    var all := es + more;
    forall p | 0 <= p < |all| && StartsTool(all[p]) ensures Registered(b', all[p].index) || FoundAt(json, all, p) {
      if p < |es| {
        assert all[p] == es[p];
        if FoundAt(json, es, p) {
          assert all[p..p + 3] == es[p..p + 3];
          assert FoundAt(json, all, p);
        } else {
          var t :| Live(b, t) && b.tools.at[t].blockIndex == es[p].index;
          assert Live(b', t);
        }
      } else {
        var q := p - |es|;
        assert all[p] == more[q];
        if FoundAt(json, more, q) {
          assert all[p..p + 3] == more[q..q + 3];
          assert FoundAt(json, all, p);
        }
      }
    }
  }

  lemma QuietConcat(json: Json, b: Blocks, es: seq<Event>, b': Blocks, more: seq<Event>)
    requires Traced(json, b, es) && NoToolStarts(more) && Keeps(b, b')
    ensures Traced(json, b', es + more)
  {
    TracedConcat(json, b, es, b', more);
  }

  // ----- text -----

  lemma SayIsQuiet(b: Blocks, s: string)
    ensures NoToolStarts(SayText(b, s).events) && NoToolStarts(SayThinking(b, s).events)
  {
  }

  lemma FoundIsTraced(json: Json, b: Blocks, tool: HeuristicTool)
    ensures Traced(json, EmitHeuristic(json, b, tool).b, EmitHeuristic(json, b, tool).events)
  {
    var closed := CloseContent(b);
    var b', i := EmitHeuristic(json, b, tool).b, closed.b.nextIndex;
    var block := FoundBlock(json, i, tool);
    assert block[0..0 + 3] == block;
    assert FoundAt(json, block, 0);
    TracedConcat(json, b, closed.events, b', block);
  }

  lemma {:induction false} ToolsAreTraced(json: Json, b: Blocks, tools: seq<HeuristicTool>)
    ensures Traced(json, ProcessTools(json, b, tools).b, ProcessTools(json, b, tools).events)
    decreases |tools|
  {
    if tools != [] {
      var first := EmitHeuristic(json, b, tools[0]);
      FoundIsTraced(json, b, tools[0]);
      ToolsAreTraced(json, first.b, tools[1..]);
      ToolsKeepTools(json, first.b, tools[1..]);
      TracedConcat(json, first.b, first.events, ProcessTools(json, first.b, tools[1..]).b, ProcessTools(json, first.b, tools[1..]).events);
    }
  }

  lemma {:induction false} PartsAreTraced(json: Json, thinking: bool, b: Blocks, parts: seq<Part>)
    ensures Traced(json, ProcessParts(json, thinking, b, parts).b, ProcessParts(json, thinking, b, parts).events)
    decreases |parts|
  {
    if parts != [] {
      var first := ProcessPart(json, thinking, b, parts[0]);
      PartIsTraced(json, thinking, b, parts[0]);
      PartsAreTraced(json, thinking, first.b, parts[1..]);
      PartsKeepTools(json, thinking, first.b, parts[1..]);
      TracedConcat(json, first.b, first.events, ProcessParts(json, thinking, first.b, parts[1..]).b,
                   ProcessParts(json, thinking, first.b, parts[1..]).events);
    }
  }

  lemma PartIsTraced(json: Json, thinking: bool, b: Blocks, part: Part)
    ensures Traced(json, ProcessPart(json, thinking, b, part).b, ProcessPart(json, thinking, b, part).events)
  {
    if part.TextPart? {
      var said := if part.filtered != "" then SayText(b, part.filtered) else Out(b, []);
      ToolsAreTraced(json, said.b, part.tools);
      ToolsKeepTools(json, said.b, part.tools);
      TracedConcat(json, said.b, said.events, ProcessTools(json, said.b, part.tools).b, ProcessTools(json, said.b, part.tools).events);
    }
  }

  lemma ContentIsTraced(json: Json, thinking: bool, b: Blocks, chunk: Chunk)
    ensures Traced(json, ProcessContent(json, thinking, b, chunk).b, ProcessContent(json, thinking, b, chunk).events)
  {
    var reasoned := if thinking && chunk.reasoning != "" then SayThinking(b, chunk.reasoning) else Out(b, []);
    var parts := ProcessParts(json, thinking, reasoned.b, chunk.parts);
    SayIsQuiet(b, chunk.reasoning);
    PartsAreTraced(json, thinking, reasoned.b, chunk.parts);
    PartsKeepTools(json, thinking, reasoned.b, chunk.parts);
    TracedConcat(json, reasoned.b, reasoned.events, parts.b, parts.events);
    CloseIsQuiet(json, parts.b, reasoned.events + parts.events);
  }

  lemma CloseIsQuiet(json: Json, b: Blocks, es: seq<Event>)
    requires Traced(json, b, es)
    ensures Traced(json, CloseContent(b).b, es + CloseContent(b).events)
  {
    QuietConcat(json, b, es, CloseContent(b).b, CloseContent(b).events);
  }

  // ----- streamed calls -----

  lemma EmitArgIsQuiet(json: Json, s: Session, t: int, args: string)
    requires t in s.b.tools.at
    ensures NoToolStarts(EmitArg(json, s, t, args).events) && Keeps(s.b, EmitArg(json, s, t, args).s.b)
  {
  }

  lemma CallIsTraced(json: Json, s: Session, tc: ToolCall)
    ensures var turn := ProcessToolCall(json, s, tc); Traced(json, turn.s.b, turn.events) && Keeps(s.b, turn.s.b)
  {
    if tc.ToolCall? {
      var t := ResolveIndex(s.b, tc);
      var noted := s.(b := Note(s.b, t, tc));
      assert Keeps(s.b, noted.b);
      if !Live(noted.b, t) && HasInk(ToolAt(noted.b, t).name) {
        assert t in noted.b.tools.at;
        BeginIsTraced(json, noted, t, tc.freshId);
        var begun := Begin(json, noted, t, tc.freshId);
        if !begun.raised {
          TakeIsQuiet(json, begun.s, t, tc.arguments);
          var rest := TakeArguments(json, begun.s, t, tc.arguments);
          QuietConcat(json, begun.s.b, begun.events, rest.s.b, rest.events);
        }
      } else {
        TakeIsQuiet(json, noted, t, tc.arguments);
      }
    }
  }

  lemma TakeIsQuiet(json: Json, s: Session, t: int, args: string)
    ensures NoToolStarts(TakeArguments(json, s, t, args).events) && Keeps(s.b, TakeArguments(json, s, t, args).s.b)
  {
    if args != "" && Live(s.b, t) {
      EmitArgIsQuiet(json, s, t, args);
    }
  }

  lemma BeginIsTraced(json: Json, s: Session, t: int, freshId: string)
    requires t in s.b.tools.at && !Live(s.b, t)
    ensures var turn := Begin(json, s, t, freshId); Traced(json, turn.s.b, turn.events) && Keeps(s.b, turn.s.b)
  {
    var state := s.b.tools.at[t];
    var out := StartTool(SetTool(s.b, t, state.(preStartArgs := "")), t,
                         if state.toolId != "" then state.toolId else freshId, Text.Strip(state.name));
    var turn := EmitArg(json, s.(b := out.b), t, state.preStartArgs);
    EmitArgIsQuiet(json, s.(b := out.b), t, state.preStartArgs);
    assert Live(out.b, t) && out.b.tools.at[t].blockIndex == s.b.nextIndex;
    assert Registered(out.b, s.b.nextIndex);
    assert Keeps(s.b, out.b);
    QuietConcat(json, out.b, out.events, turn.s.b, turn.events);
  }

  lemma {:induction false} CallsAreTraced(json: Json, s: Session, calls: seq<ToolCall>)
    ensures var turn := ProcessToolCalls(json, s, calls); Traced(json, turn.s.b, turn.events) && Keeps(s.b, turn.s.b)
    decreases |calls|
  {
    if calls != [] {
      var first := ProcessToolCall(json, s, calls[0]);
      CallIsTraced(json, s, calls[0]);
      if !first.raised {
        var rest := ProcessToolCalls(json, first.s, calls[1..]);
        CallsAreTraced(json, first.s, calls[1..]);
        TracedConcat(json, first.s.b, first.events, rest.s.b, rest.events);
      }
    }
  }

  lemma {:induction false} ChunksAreTraced(json: Json, thinking: bool, s: Session, chunks: seq<Chunk>)
    ensures var turn := ProcessChunks(json, thinking, s, chunks); Traced(json, turn.s.b, turn.events) && Keeps(s.b, turn.s.b)
    decreases |chunks|
  {
    if chunks != [] {
      var first := ProcessChunk(json, thinking, s, chunks[0]);
      ChunkIsTraced(json, thinking, s, chunks[0]);
      if !first.raised {
        var rest := ProcessChunks(json, thinking, first.s, chunks[1..]);
        ChunksAreTraced(json, thinking, first.s, chunks[1..]);
        TracedConcat(json, first.s.b, first.events, rest.s.b, rest.events);
      }
    }
  }

  lemma ChunkIsTraced(json: Json, thinking: bool, s: Session, chunk: Chunk)
    ensures var turn := ProcessChunk(json, thinking, s, chunk); Traced(json, turn.s.b, turn.events) && Keeps(s.b, turn.s.b)
  {
    var content := ProcessContent(json, thinking, s.b, chunk);
    var turn := ProcessToolCalls(json, s.(b := content.b), chunk.calls);
    ContentIsTraced(json, thinking, s.b, chunk);
    ContentKeepsTools(json, thinking, s.b, chunk);
    CallsAreTraced(json, s.(b := content.b), chunk.calls);
    TracedConcat(json, content.b, content.events, turn.s.b, turn.events);
  }

  // ----- the ends -----

  lemma {:induction false} FlushAliasesQuiet(json: Json, s: Session, order: seq<int>)
    ensures NoToolStarts(FlushAliases(json, s, order).events)
    decreases |order|
  {
    if order != [] {
      FlushAliasesQuiet(json, FlushAlias(json, s, order[0]).s, order[1..]);
    }
  }

  lemma {:induction false} EmitResultsQuiet(b: Blocks, results: seq<(int, string)>)
    requires forall r :: r in results ==> r.0 in b.tools.at
    ensures NoToolStarts(EmitResults(b, results).events)
    decreases |results|
  {
    if results != [] {
      EmitResultsQuiet(EmitTool(b, results[0].0, results[0].1).b, results[1..]);
    }
  }

  lemma FlushesQuiet(json: Json, s: Session)
    ensures NoToolStarts(Flushes(json, s).events)
  {
    var aliases := FlushAliases(json, s, s.aliasBuffers.keys);
    FlushAliasesQuiet(json, s, s.aliasBuffers.keys);
    DrainedKeys(json, aliases.s.b, aliases.s.b.tools.keys);
    var drained := DrainTasks(json, aliases.s.b, aliases.s.b.tools.keys);
    if !drained.raised {
      EmitResultsQuiet(drained.b, drained.results);
    }
  }

  lemma LeftoverIsQuiet(thinking: bool, b: Blocks, leftover: Leftover)
    ensures var left := FlushLeftover(thinking, b, leftover); NoToolStarts(left.events) && left.b.tools == b.tools
  {
  }

  lemma PlaceholderIsQuiet(b: Blocks)
    ensures NoToolStarts(Placeholder(b).events) && Placeholder(b).b.tools == b.tools
  {
  }

  lemma FinishIsTraced(json: Json, thinking: bool, b: Blocks, a: Attempt)
    requires a.Opened?
    ensures var out := FinishContent(json, thinking, b, a); Traced(json, out.b, out.events) && out.b.tools == b.tools
  {
    var left := FlushLeftover(thinking, b, a.leftover);
    var tools := ProcessTools(json, left.b, a.lateTools);
    LeftoverIsQuiet(thinking, b, a.leftover);
    ToolsAreTraced(json, left.b, a.lateTools);
    ToolsKeepTools(json, left.b, a.lateTools);
    PlaceholderIsQuiet(tools.b);
    TracedConcat(json, left.b, left.events, tools.b, tools.events);
    QuietConcat(json, tools.b, left.events + tools.events, Placeholder(tools.b).b, Placeholder(tools.b).events);
  }

  /** A normal end starts tool blocks only for calls found in the text. */
  lemma FlushedIsTraced(json: Json, thinking: bool, s: Session, a: Attempt)
    requires a.Opened?
    ensures Traced(json, s.b, Flushed(json, thinking, s, a).events)
  {
    var content := FinishContent(json, thinking, s.b, a);
    FinishIsTraced(json, thinking, s.b, a);
    FlushesQuiet(json, s.(b := content.b));
    QuietConcat(json, content.b, content.events, s.b, Flushes(json, s.(b := content.b)).events);
  }

  lemma {:induction false} RepairsQuiet(json: Json, s: Session, order: seq<int>, repairs: RepairAnswers)
    ensures NoToolStarts(RepairTools(json, s, order, repairs).events)
    decreases |order|
  {
    if order != [] {
      RepairsQuiet(json, s, order[1..], repairs);
      if Live(s.b, order[0]) && RepairTool(json, s, order[0], repairs).Some? {
        RepairsQuiet(json, s.(b := RepairTool(json, s, order[0], repairs).value.b), order[1..], repairs);
      }
    }
  }

  // ----- what stands at a found block is all that is shown of it -----

  lemma FoundDelta(json: Json, es: seq<Event>, p: int, q: int)
    requires BlockDiscipline(es) && FoundAt(json, es, p)
    requires 0 <= q < |es| && es[q].BlockDelta? && es[q].index == es[p].index
    ensures q == p + 1
  {
    FoundShape(json, es, p);
    var r :| LiveFrom(es, r, q, es[p].index);
    assert r == p;
    assert StopsAt(es, p + 2, es[p].index);
  }

  /** A block with one delta shows that delta. */
  lemma OneDelta(es: seq<Event>, i: int, q: nat)
    requires q < |es| && es[q].BlockDelta? && es[q].index == i && es[q].delta.InputJsonDelta?
    requires forall r :: 0 <= r < |es| && es[r].BlockDelta? && es[r].index == i ==> r == q
    ensures ShownJson(es, i) == es[q].delta.partialJson
  {
    var before, after := es[..q], es[q + 1..];
    assert es == before + [es[q]] + after;
    forall e | e in before ensures JsonIn(e, i) == "" {
      var r :| 0 <= r < q && es[r] == e;
    }
    forall e | e in after ensures JsonIn(e, i) == "" {
      var r :| q < r < |es| && es[r] == e;
    }
    SilentIsEmpty(before, i);
    ShownSnocAt(before, es[q], i);
    SilentShown(before + [es[q]], after, i);
    ConcatEmpty(es[q].delta.partialJson);
  }

  lemma FoundIsAll(json: Json, es: seq<Event>, p: int)
    requires BlockDiscipline(es) && FoundAt(json, es, p)
    ensures exists tool: HeuristicTool ::
              tool.name == es[p].block.name && ShownJson(es, es[p].index) == FoundInput(json, tool)
  {
    FoundShape(json, es, p);
    forall r | 0 <= r < |es| && es[r].BlockDelta? && es[r].index == es[p].index ensures r == p + 1 {
      FoundDelta(json, es, p, r);
    }
    OneDelta(es, es[p].index, p + 1);
  }

  lemma FoundShape(json: Json, es: seq<Event>, p: int)
    requires FoundAt(json, es, p)
    ensures exists tool: HeuristicTool :: tool.name == es[p].block.name
                           && es[p + 1] == BlockDelta(es[p].index, InputJsonDelta(FoundInput(json, tool))) && es[p + 2] == BlockStop(es[p].index)
  {
    var tool: HeuristicTool :| tool.name == es[p].block.name && es[p..p + 3] == FoundBlock(json, es[p].index, tool);
    assert es[p + 1] == es[p..p + 3][1] && es[p + 2] == es[p..p + 3][2];
  }

  // ----- every Task -----

  /** Arguments with which a Task found in text may be shown: in the foreground, if an object at all. */
  predicate FoundTaskInput(json: Json, shown: string) {
    json.parse(shown).Object? ==> json.inForeground(shown)
  }

  /** Nothing more of any tool. */
  predicate Silent(tail: seq<Event>) {
    forall k :: 0 <= k < |tail| ==> !StartsTool(tail[k]) && !(tail[k].BlockDelta? && tail[k].delta.InputJsonDelta?)
  }

  lemma TaskOfText(json: Json, b: Blocks, body: seq<Event>, tail: seq<Event>, i: int)
    requires JsonRules(json) && Run(Fresh, body).ok && Traced(json, b, body) && Silent(tail)
    requires StartedAs(body + tail, i, "Task") && !Registered(b, i)
    ensures FoundTaskInput(json, ShownJson(body + tail, i))
  {
    var id :| BlockStart(i, ToolUseBlock(id, "Task", "{}")) in body + tail;
    var start := BlockStart(i, ToolUseBlock(id, "Task", "{}"));
    assert StartsTool(start);
    var p :| 0 <= p < |body| && body[p] == start;
    RunDescribes(body);
    assert FoundAt(json, body, p);
    FoundIsAll(json, body, p);
    forall e | e in tail ensures JsonIn(e, i) == "" {
      var k :| 0 <= k < |tail| && tail[k] == e;
    }
    SilentShown(body, tail, i);
  }

  lemma StopsAreSilent(b: Blocks, reason: StopReason)
    ensures Silent(CloseAll(b).events + [MessageDelta(Some(reason)), MessageStop])
  {
    CloseShowsNothing(b);
    StopsStartNothing(b);
    var closes := CloseAll(b).events;
    assert forall k :: 0 <= k < |closes| ==> closes[k] in closes;
  }

  lemma StopsStartNothing(b: Blocks)
    ensures forall e :: e in CloseAll(b).events ==> !StartsTool(e)
  {
    ToolStopsStartNothing(CloseContent(b).b.tools, CloseContent(b).b.tools.keys);
  }

  lemma ToolStopsStartNothing(tools: Dict<int, ToolCallState>, order: seq<int>)
    ensures forall e :: e in ToolStops(tools, order) ==> !StartsTool(e)
  {
  }

  lemma ErrorTailIsSilent(b: Blocks, message: string)
    ensures Silent(ErrorTail(b, message))
  {
    var closed := CloseAll(b);
    CloseShowsNothing(b);
    StopsStartNothing(b);
    var last := if HasStartedTool(closed.b) then [ErrorEvent(message)] else EmitError(closed.b, message).events;
    assert forall k :: 0 <= k < |closed.events| ==> closed.events[k] in closed.events;
    assert Silent(closed.events) && Silent(last);
  }

  lemma ToolRecoveryTask(json: Json, s: Session, es: seq<Event>, answers: Answers, i: int)
    requires JsonRules(json) && Good(s.b, es) && Traced(json, s.b, es) && !Registered(s.b, i)
    requires RecoverTools(json, s, answers).Recovered?
    requires StartedAs(es + RecoverTools(json, s, answers).events, i, "Task")
    ensures FoundTaskInput(json, ShownJson(es + RecoverTools(json, s, answers).events, i))
  {
    var repairs := ToolRepairs(json, s, answers);
    ToolRepairsGood(json, s, es, answers);
    RepairsQuiet(json, s, s.b.tools.keys, answers.repairs);
    QuietConcat(json, s.b, es, s.b, repairs.events);
    StopsAreSilent(repairs.b, ToolUse);
    RecoveryParts(repairs.b, es, repairs.events, ToolUse, answers);
    TaskOfText(json, s.b, es + repairs.events, RecoveryEnd(repairs.b, ToolUse), i);
  }

  lemma TextRecoveryTask(json: Json, b: Blocks, es: seq<Event>, answers: Answers, i: int)
    requires JsonRules(json) && Good(b, es) && Traced(json, b, es) && !Registered(b, i)
    requires RecoverText(b, answers).Recovered? && StartedAs(es + RecoverText(b, answers).events, i, "Task")
    ensures FoundTaskInput(json, ShownJson(es + RecoverText(b, answers).events, i))
  {
    var (text, thinking) := answers.continuation.value;
    var continued := Continue(b, text, thinking);
    ContinueGood(b, es, text, thinking);
    ContinueIsQuiet(b, text, thinking);
    QuietConcat(json, b, es, b, continued.events);
    StopsAreSilent(continued.b, EndTurn);
    RecoveryParts(continued.b, es, continued.events, EndTurn, answers);
    TaskOfText(json, b, es + continued.events, RecoveryEnd(continued.b, EndTurn), i);
  }

  lemma ContinueIsQuiet(b: Blocks, text: string, thinking: string)
    ensures NoToolStarts(Continue(b, text, thinking).events)
  {
    SayIsQuiet(b, Continued(b.reasoning, thinking));
    var thought := if Continued(b.reasoning, thinking) != "" then SayThinking(b, Continued(b.reasoning, thinking)) else Out(b, []);
    var said := if Continued(b.text, text) != "" then SayText(thought.b, Continued(b.text, text)) else Out(thought.b, []);
    SayIsQuiet(thought.b, Continued(b.text, text));
    assert Continue(b, text, thinking).events == thought.events + said.events;
  }

  lemma FailureTask(json: Json, s: Session, es: seq<Event>, retryable: bool, answers: Answers, message: string, i: int)
    requires JsonRules(json) && Good(s.b, es) && Traced(json, s.b, es) && !Registered(s.b, i)
    requires StartedAs(es + FailureTail(json, s, retryable, answers, message), i, "Task")
    ensures FoundTaskInput(json, ShownJson(es + FailureTail(json, s, retryable, answers, message), i))
  {
    var tail := FailureTail(json, s, retryable, answers, message);
    var recovery := Recover(json, s, answers);
    ErrorTailIsSilent(s.b, message);
    if GeneratedOutput(s.b) && retryable && recovery.Recovered? {
      if HasStartedTool(s.b) {
        ToolRecoveryTask(json, s, es, answers, i);
      } else {
        TextRecoveryTask(json, s.b, es, answers, i);
      }
    } else {
      ErrorTailIsSilent(recovery.b, message);
      TaskOfText(json, s.b, es, tail, i);
    }
  }

  lemma CompletionTask(json: Json, thinking: bool, s: Session, es: seq<Event>, a: Attempt, finish: FinishReason, i: int)
    requires JsonRules(json) && Sound(json, s, es) && Traced(json, s.b, es) && a.Opened? && !Registered(s.b, i)
    requires StartedAs(es + Completion(json, thinking, s, a, finish), i, "Task")
    ensures FoundTaskInput(json, ShownJson(es + Completion(json, thinking, s, a, finish), i))
  {
    var turn := Flushed(json, thinking, s, a);
    FlushedGood(json, thinking, s, es, a);
    FlushedIsTraced(json, thinking, s, a);
    TracedConcat(json, s.b, es, s.b, turn.events);
    StopsAreSilent(turn.s.b, MapStopReason(finish));
    CompletionParts(json, thinking, s, es, a, finish);
    TaskOfText(json, s.b, es + turn.events, CloseAll(turn.s.b).events + [MessageDelta(Some(MapStopReason(finish))), MessageStop], i);
  }

  /** Every block that the client is shown as a Task, in a whole attempt, is that of a streamed call, for
      which `TaskTextsObey` says what is shown; or it was found in the text, and then its arguments, if
      they are an object, are in the foreground. */
  lemma EveryTaskShown(json: Json, thinking: bool, a: Attempt, answers: Answers, message: string, i: int)
    requires JsonRules(json) && StartedAs(AttemptOutput(json, thinking, a, answers, message), i, "Task")
    ensures Registered(AttemptTurn(json, thinking, a).s.b, i)
            || FoundTaskInput(json, ShownJson(AttemptOutput(json, thinking, a, answers, message), i))
  {
    var turn := AttemptTurn(json, thinking, a);
    AttemptSound(json, thinking, a);
    if a.Opened? {
      ChunksAreTraced(json, thinking, NewSession, a.chunks);
    }
    if !Registered(turn.s.b, i) {
      match AttemptOutcome(json, thinking, a)
      case Finished(finish) => CompletionTask(json, thinking, turn.s, turn.events, a, finish, i);
      case Failed(retryable) => FailureTask(json, turn.s, turn.events, retryable, answers, message, i);
    }
  }
}
