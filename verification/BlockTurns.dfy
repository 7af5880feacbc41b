/** Which blocks of an OpenAI stream may be open together: tool blocks stay open, and text and thinking take
    turns (core/anthropic/sse.py, the `ensure_` and `close_` calls; providers/openai_compat.py). */
module BlockTurns {
  import opened OrderedDict
  import opened StreamContract
  import opened BlockState
  import opened JsonTexts
  import opened ToolCalls
  import opened OpenAIStream
  import opened OpenAIContract
  import opened SpokenWords
  import Text

  /** Every open block is a tool's. */
  predicate OnlyToolsOpen(c: Check) {
    forall i :: i in c.open ==> c.open[i] == ToolStream
  }

  /** Whenever a block starts, every open block is a tool's. */
  ghost predicate StartsAlone(c: Check, es: seq<Event>) {
    forall q :: 0 <= q < |es| && es[q].BlockStart? ==> OnlyToolsOpen(Run(c, es[..q]))
  }

  predicate NoStarts(es: seq<Event>) {
    forall e :: e in es ==> !e.BlockStart?
  }

  lemma StartsConcat(c: Check, a: seq<Event>, b: seq<Event>)
    requires StartsAlone(c, a) && StartsAlone(Run(c, a), b)
    ensures StartsAlone(c, a + b)
  {
    var all := a + b;
    forall q | 0 <= q < |all| && all[q].BlockStart? ensures OnlyToolsOpen(Run(c, all[..q])) {
      if q < |a| {
        assert all[..q] == a[..q];
      } else {
        assert all[..q] == a + b[..q - |a|];
        RunConcat(c, a, b[..q - |a|]);
      }
    }
  }

  lemma QuietStarts(c: Check, a: seq<Event>, b: seq<Event>)
    requires StartsAlone(c, a) && NoStarts(b)
    ensures StartsAlone(c, a + b)
  {
    StartsConcat(c, a, b);
  }

  lemma OneStarts(c: Check, e: Event)
    requires OnlyToolsOpen(c)
    ensures StartsAlone(c, [e])
  {
    assert [e][..0] == [];
  }

  /** With text and thinking closed, only tools are open. */
  lemma ClosedIsTools(b: Blocks, es: seq<Event>)
    requires Good(b, es) && !b.textStarted && !b.thinkingStarted
    ensures OnlyToolsOpen(Run(Fresh, es))
  {
    var open := Run(Fresh, es).open;
    forall i | i in open ensures open[i] == ToolStream {
      assert Owned(b, i);
    }
  }

  // ----- text and thinking -----

  /** A block that starts with text and thinking closed, after the events `stops`. */
  lemma StartAfter(b: Blocks, es: seq<Event>, stops: seq<Event>, e: Event)
    requires Good(b, es + stops) && !b.textStarted && !b.thinkingStarted && NoStarts(stops)
    ensures StartsAlone(Run(Fresh, es), stops + [e])
  {
    ClosedIsTools(b, es + stops);
    RunConcat(Fresh, es, stops);
    OneStarts(Run(Fresh, es + stops), e);
    StartsConcat(Run(Fresh, es), stops, [e]);
  }

  lemma EnsureTextAlone(b: Blocks, es: seq<Event>)
    requires Good(b, es)
    ensures StartsAlone(Run(Fresh, es), EnsureText(b).events)
  {
    var stopped := if b.thinkingStarted then StopThinking(b) else Out(b, []);
    if b.thinkingStarted {
      StopThinkingGood(b, es);
    } else {
      ConcatEmpty(es);
    }
    if !stopped.b.textStarted {
      StartAfter(stopped.b, es, stopped.events, StartText(stopped.b).events[0]);
    }
  }

  lemma EnsureThinkingAlone(b: Blocks, es: seq<Event>)
    requires Good(b, es)
    ensures StartsAlone(Run(Fresh, es), EnsureThinking(b).events)
  {
    var stopped := if b.textStarted then StopText(b) else Out(b, []);
    if b.textStarted {
      StopTextGood(b, es);
    } else {
      ConcatEmpty(es);
    }
    if !stopped.b.thinkingStarted {
      StartAfter(stopped.b, es, stopped.events, StartThinking(stopped.b).events[0]);
    }
  }

  lemma SayAlone(b: Blocks, es: seq<Event>, s: string)
    requires Good(b, es)
    ensures StartsAlone(Run(Fresh, es), SayText(b, s).events) && StartsAlone(Run(Fresh, es), SayThinking(b, s).events)
  {
    EnsureTextAlone(b, es);
    EnsureThinkingAlone(b, es);
    QuietStarts(Run(Fresh, es), EnsureText(b).events, EmitText(EnsureText(b).b, s).events);
    QuietStarts(Run(Fresh, es), EnsureThinking(b).events, EmitThinking(EnsureThinking(b).b, s).events);
  }

  /** `more` follows `es` well: it leaves a state that agrees, and its blocks start alone. */
  ghost predicate Follows(es: seq<Event>, out: Out) {
    Good(out.b, es + out.events) && StartsAlone(Run(Fresh, es), out.events)
  }

  lemma FollowsThen(es: seq<Event>, first: Out, second: Out)
    requires Follows(es, first) && Follows(es + first.events, second)
    ensures Follows(es, Then(first, second))
  {
    ConcatAssoc(es, first.events, second.events);
    RunConcat(Fresh, es, first.events);
    StartsConcat(Run(Fresh, es), first.events, second.events);
  }

  lemma NothingFollows(b: Blocks, es: seq<Event>)
    requires Good(b, es)
    ensures Follows(es, Out(b, []))
  {
    ConcatEmpty(es);
  }

  lemma SayFollows(b: Blocks, es: seq<Event>, s: string)
    requires Good(b, es)
    ensures Follows(es, SayText(b, s)) && Follows(es, SayThinking(b, s))
  {
    SayAlone(b, es, s);
    SayTextGood(b, es, s);
    SayThinkingGood(b, es, s);
  }

  lemma CloseFollows(b: Blocks, es: seq<Event>)
    requires Good(b, es)
    ensures Follows(es, CloseContent(b)) && !CloseContent(b).b.textStarted && !CloseContent(b).b.thinkingStarted
  {
    CloseContentGood(b, es);
  }

  lemma FoundAlone(json: Json, c: Check, i: int, tool: HeuristicTool)
    requires OnlyToolsOpen(c)
    ensures StartsAlone(c, FoundBlock(json, i, tool))
  {
    var block := FoundBlock(json, i, tool);
    OneStarts(c, block[0]);
    QuietStarts(c, [block[0]], [block[1], block[2]]);
    assert block == [block[0]] + [block[1], block[2]];
  }

  lemma FoundFollows(json: Json, b: Blocks, es: seq<Event>, tool: HeuristicTool)
    requires Good(b, es)
    ensures Follows(es, EmitHeuristic(json, b, tool))
  {
    var closed := CloseContent(b);
    CloseFollows(b, es);
    FoundAfter(json, closed.b, es + closed.events, tool);
    FollowsThen(es, closed, Found(json, closed.b, tool));
    FoundIs(json, b, tool);
  }

  lemma FoundIs(json: Json, b: Blocks, tool: HeuristicTool)
    ensures EmitHeuristic(json, b, tool) == Then(CloseContent(b), Found(json, CloseContent(b).b, tool))
  {
  }

  function Found(json: Json, b: Blocks, tool: HeuristicTool): Out {
    Out(b.(nextIndex := b.nextIndex + 1), FoundBlock(json, b.nextIndex, tool))
  }

  lemma FoundAfter(json: Json, b: Blocks, es: seq<Event>, tool: HeuristicTool)
    requires Good(b, es) && !b.textStarted && !b.thinkingStarted
    ensures Follows(es, Found(json, b, tool))
  {
    ClosedIsTools(b, es);
    FoundAlone(json, Run(Fresh, es), b.nextIndex, tool);
    FoundBlockGood(json, b, es, tool);
  }

  lemma {:induction false} ToolsFollow(json: Json, b: Blocks, es: seq<Event>, tools: seq<HeuristicTool>)
    requires Good(b, es)
    ensures Follows(es, ProcessTools(json, b, tools))
    decreases |tools|
  {
    if tools == [] {
      NothingFollows(b, es);
    } else {
      var first := EmitHeuristic(json, b, tools[0]);
      FoundFollows(json, b, es, tools[0]);
      ToolsFollow(json, first.b, es + first.events, tools[1..]);
      FollowsThen(es, first, ProcessTools(json, first.b, tools[1..]));
    }
  }

  lemma PartFollows(json: Json, thinking: bool, b: Blocks, es: seq<Event>, part: Part)
    requires Good(b, es)
    ensures Follows(es, ProcessPart(json, thinking, b, part))
  {
    NothingFollows(b, es);
    match part
    case ThinkPart(content) =>
      SayFollows(b, es, content);
    case TextPart(filtered, tools) =>
      var said := if filtered != "" then SayText(b, filtered) else Out(b, []);
      SayFollows(b, es, filtered);
      ToolsFollow(json, said.b, es + said.events, tools);
      FollowsThen(es, said, ProcessTools(json, said.b, tools));
  }

  lemma {:induction false} PartsFollow(json: Json, thinking: bool, b: Blocks, es: seq<Event>, parts: seq<Part>)
    requires Good(b, es)
    ensures Follows(es, ProcessParts(json, thinking, b, parts))
    decreases |parts|
  {
    if parts == [] {
      NothingFollows(b, es);
    } else {
      var first := ProcessPart(json, thinking, b, parts[0]);
      PartFollows(json, thinking, b, es, parts[0]);
      PartsFollow(json, thinking, first.b, es + first.events, parts[1..]);
      FollowsThen(es, first, ProcessParts(json, thinking, first.b, parts[1..]));
    }
  }

  lemma SaidFollows(json: Json, thinking: bool, b: Blocks, es: seq<Event>, chunk: Chunk)
    requires Good(b, es)
    ensures var reasoned := if thinking && chunk.reasoning != "" then SayThinking(b, chunk.reasoning) else Out(b, []);
            Follows(es, Then(reasoned, ProcessParts(json, thinking, reasoned.b, chunk.parts)))
  {
    var reasoned := if thinking && chunk.reasoning != "" then SayThinking(b, chunk.reasoning) else Out(b, []);
    if thinking && chunk.reasoning != "" {
      SayFollows(b, es, chunk.reasoning);
    } else {
      NothingFollows(b, es);
    }
    PartsFollow(json, thinking, reasoned.b, es + reasoned.events, chunk.parts);
    FollowsThen(es, reasoned, ProcessParts(json, thinking, reasoned.b, chunk.parts));
  }

  lemma ContentFollows(json: Json, thinking: bool, b: Blocks, es: seq<Event>, chunk: Chunk)
    requires Good(b, es)
    ensures Follows(es, ProcessContent(json, thinking, b, chunk))
    ensures chunk.calls != [] ==> var b' := ProcessContent(json, thinking, b, chunk).b; !b'.textStarted && !b'.thinkingStarted
  {
    var reasoned := if thinking && chunk.reasoning != "" then SayThinking(b, chunk.reasoning) else Out(b, []);
    var said := Then(reasoned, ProcessParts(json, thinking, reasoned.b, chunk.parts));
    SaidFollows(json, thinking, b, es, chunk);
    CloseFollows(said.b, es + said.events);
    FollowsThen(es, said, CloseContent(said.b));
  }

  // ----- tool calls -----

  lemma EmitArgNoStarts(json: Json, s: Session, t: int, args: string)
    requires t in s.b.tools.at
    ensures NoStarts(EmitArg(json, s, t, args).events)
  {
  }

  lemma TakeNoStarts(json: Json, s: Session, t: int, args: string)
    ensures NoStarts(TakeArguments(json, s, t, args).events)
  {
    if args != "" && Live(s.b, t) {
      EmitArgNoStarts(json, s, t, args);
    }
  }

  lemma BeginAlone(json: Json, s: Session, c: Check, t: int, freshId: string)
    requires t in s.b.tools.at && OnlyToolsOpen(c)
    ensures StartsAlone(c, Begin(json, s, t, freshId).events)
  {
    var state := s.b.tools.at[t];
    var out := StartTool(SetTool(s.b, t, state.(preStartArgs := "")), t,
                         if state.toolId != "" then state.toolId else freshId, Text.Strip(state.name));
    EmitArgNoStarts(json, s.(b := out.b), t, state.preStartArgs);
    OneStarts(c, out.events[0]);
    QuietStarts(c, out.events, EmitArg(json, s.(b := out.b), t, state.preStartArgs).events);
  }

  lemma CallAlone(json: Json, s: Session, c: Check, tc: ToolCall)
    requires OnlyToolsOpen(c)
    ensures StartsAlone(c, ProcessToolCall(json, s, tc).events)
  {
    if tc.ToolCall? {
      var t := ResolveIndex(s.b, tc);
      var noted := s.(b := Note(s.b, t, tc));
      if !Live(noted.b, t) && HasInk(ToolAt(noted.b, t).name) {
        assert t in noted.b.tools.at;
        var begun := Begin(json, noted, t, tc.freshId);
        BeginAlone(json, noted, c, t, tc.freshId);
        TakeNoStarts(json, begun.s, t, tc.arguments);
        QuietStarts(c, begun.events, TakeArguments(json, begun.s, t, tc.arguments).events);
      } else {
        TakeNoStarts(json, noted, t, tc.arguments);
      }
    }
  }

  lemma {:induction false} CallsAlone(json: Json, s: Session, es: seq<Event>, calls: seq<ToolCall>)
    requires Sound(json, s, es) && !s.b.textStarted && !s.b.thinkingStarted
    ensures StartsAlone(Run(Fresh, es), ProcessToolCalls(json, s, calls).events)
    decreases |calls|
  {
    if calls != [] {
      var first := ProcessToolCall(json, s, calls[0]);
      ClosedIsTools(s.b, es);
      CallAlone(json, s, Run(Fresh, es), calls[0]);
      if !first.raised {
        ProcessToolCallSound(json, s, es, calls[0]);
        CallSaysNothing(json, s, calls[0]);
        CallsAlone(json, first.s, es + first.events, calls[1..]);
        RunConcat(Fresh, es, first.events);
        StartsConcat(Run(Fresh, es), first.events, ProcessToolCalls(json, first.s, calls[1..]).events);
      }
    }
  }

  lemma ChunkAlone(json: Json, thinking: bool, s: Session, es: seq<Event>, chunk: Chunk)
    requires Sound(json, s, es)
    ensures StartsAlone(Run(Fresh, es), ProcessChunk(json, thinking, s, chunk).events)
  {
    var content := ProcessContent(json, thinking, s.b, chunk);
    var s1 := s.(b := content.b);
    ContentFollows(json, thinking, s.b, es, chunk);
    ContentKeepsTools(json, thinking, s.b, chunk);
    SamePending(json, s, content.b);
    if chunk.calls != [] {
      CallsAlone(json, s1, es + content.events, chunk.calls);
      RunConcat(Fresh, es, content.events);
    }
    StartsConcat(Run(Fresh, es), content.events, ProcessToolCalls(json, s1, chunk.calls).events);
  }

  lemma {:induction false} ChunksAlone(json: Json, thinking: bool, s: Session, es: seq<Event>, chunks: seq<Chunk>)
    requires Sound(json, s, es)
    ensures StartsAlone(Run(Fresh, es), ProcessChunks(json, thinking, s, chunks).events)
    decreases |chunks|
  {
    if chunks != [] {
      var first := ProcessChunk(json, thinking, s, chunks[0]);
      ChunkAlone(json, thinking, s, es, chunks[0]);
      if !first.raised {
        ProcessChunkSound(json, thinking, s, es, chunks[0]);
        ChunksAlone(json, thinking, first.s, es + first.events, chunks[1..]);
        RunConcat(Fresh, es, first.events);
        StartsConcat(Run(Fresh, es), first.events, ProcessChunks(json, thinking, first.s, chunks[1..]).events);
      }
    }
  }

  /** While a stream is read, no block starts while a text or a thinking block is open: text and thinking
      take turns, and a tool block, streamed or found in the text, closes both. */
  lemma BlocksTakeTurns(json: Json, thinking: bool, a: Attempt, q: int)
    requires 0 <= q < |AttemptTurn(json, thinking, a).events| && AttemptTurn(json, thinking, a).events[q].BlockStart?
    ensures OnlyToolsOpen(Run(Fresh, AttemptTurn(json, thinking, a).events[..q]))
  {
    NewSound(json);
    ChunksAlone(json, thinking, NewSession, [], a.chunks);
    assert Run(Fresh, []) == Fresh;
  }
}
