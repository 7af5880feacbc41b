/** The order in which an OpenAI stream shows text and thinking (providers/openai_compat.py, the chunk loop). */
module SpokenOrder {
  import opened OrderedDict
  import opened StreamContract
  import opened BlockState
  import opened JsonTexts
  import opened ToolCalls
  import opened OpenAIStream
  import opened OpenAIContract
  import opened SpokenWords
  import Text

  predicate IsWord(d: Delta) {
    d.TextDelta? || d.ThinkingDelta?
  }

  /** The text and thinking deltas shown, in order. */
  function Spoken(es: seq<Event>): seq<Delta> {
    if es == [] then []
    else
      var last := es[|es| - 1];
      Spoken(es[..|es| - 1]) + if last.BlockDelta? && IsWord(last.delta) then [last.delta] else []
  }

  /** The deltas the parts call for, in order. */
  function PartsSpoken(thinking: bool, parts: seq<Part>): seq<Delta> {
    if parts == [] then []
    else
      (match parts[0]
       case ThinkPart(content) => if thinking then [ThinkingDelta(content)] else []
       case TextPart(filtered, _) => if filtered != "" then [TextDelta(filtered)] else [])
      + PartsSpoken(thinking, parts[1..])
  }

  /** The deltas the chunks call for: a chunk's reasoning, and then its content. */
  function ChunksSpoken(thinking: bool, chunks: seq<Chunk>): seq<Delta> {
    if chunks == [] then []
    else
      (if thinking && chunks[0].reasoning != "" then [ThinkingDelta(chunks[0].reasoning)] else [])
      + PartsSpoken(thinking, chunks[0].parts) + ChunksSpoken(thinking, chunks[1..])
  }

  lemma {:induction false} SpokenConcat(a: seq<Event>, b: seq<Event>)
    ensures Spoken(a + b) == Spoken(a) + Spoken(b)
    decreases |b|
  {
    if b == [] {
      ConcatEmpty(a);
      ConcatEmpty(Spoken(a));
    } else {
      var init, last := b[..|b| - 1], b[|b| - 1];
      assert (a + b)[..|a + b| - 1] == a + init;
      SpokenConcat(a, init);
      ConcatAssoc(Spoken(a), Spoken(init), if last.BlockDelta? && IsWord(last.delta) then [last.delta] else []);
    }
  }

  predicate Wordless(es: seq<Event>) {
    forall e :: e in es ==> !(e.BlockDelta? && IsWord(e.delta))
  }

  lemma {:induction false} WordlessSpoken(es: seq<Event>)
    requires Wordless(es)
    ensures Spoken(es) == []
    decreases |es|
  {
    if es != [] {
      assert es[|es| - 1] in es;
      WordlessSpoken(es[..|es| - 1]);
    }
  }

  /** Events without words, and then one with. */
  lemma LastWord(es: seq<Event>, i: int, d: Delta)
    requires Wordless(es) && IsWord(d)
    ensures Spoken(es + [BlockDelta(i, d)]) == [d]
  {
    WordlessSpoken(es);
    assert (es + [BlockDelta(i, d)])[..|es|] == es;
  }

  lemma SaidSpoken(b: Blocks, s: string)
    ensures Spoken(SayText(b, s).events) == [TextDelta(s)] && Spoken(SayThinking(b, s).events) == [ThinkingDelta(s)]
  {
    LastWord(EnsureText(b).events, EnsureText(b).b.textIndex, TextDelta(s));
    LastWord(EnsureThinking(b).events, EnsureThinking(b).b.thinkingIndex, ThinkingDelta(s));
  }

  lemma {:induction false} ToolsWordless(json: Json, b: Blocks, tools: seq<HeuristicTool>)
    ensures Wordless(ProcessTools(json, b, tools).events)
    decreases |tools|
  {
    if tools != [] {
      ToolsWordless(json, EmitHeuristic(json, b, tools[0]).b, tools[1..]);
    }
  }

  lemma PartSpoken(json: Json, thinking: bool, b: Blocks, part: Part)
    ensures Spoken(ProcessPart(json, thinking, b, part).events) ==
            match part
            case ThinkPart(content) => if thinking then [ThinkingDelta(content)] else []
            case TextPart(filtered, _) => if filtered != "" then [TextDelta(filtered)] else []
  {
    match part
    case ThinkPart(content) =>
      SaidSpoken(b, content);
    case TextPart(filtered, tools) =>
      var said := if filtered != "" then SayText(b, filtered) else Out(b, []);
      SaidSpoken(b, filtered);
      ToolsWordless(json, said.b, tools);
      WordlessSpoken(ProcessTools(json, said.b, tools).events);
      SpokenConcat(said.events, ProcessTools(json, said.b, tools).events);
  }

  lemma {:induction false} PartsAreSpoken(json: Json, thinking: bool, b: Blocks, parts: seq<Part>)
    ensures Spoken(ProcessParts(json, thinking, b, parts).events) == PartsSpoken(thinking, parts)
    decreases |parts|
  {
    if parts != [] {
      var first := ProcessPart(json, thinking, b, parts[0]);
      PartSpoken(json, thinking, b, parts[0]);
      PartsAreSpoken(json, thinking, first.b, parts[1..]);
      SpokenConcat(first.events, ProcessParts(json, thinking, first.b, parts[1..]).events);
    }
  }

  lemma ContentSpoken(json: Json, thinking: bool, b: Blocks, chunk: Chunk)
    ensures Spoken(ProcessContent(json, thinking, b, chunk).events) ==
            (if thinking && chunk.reasoning != "" then [ThinkingDelta(chunk.reasoning)] else []) + PartsSpoken(thinking, chunk.parts)
  {
    var reasoned := if thinking && chunk.reasoning != "" then SayThinking(b, chunk.reasoning) else Out(b, []);
    var parts := ProcessParts(json, thinking, reasoned.b, chunk.parts);
    SaidSpoken(b, chunk.reasoning);
    PartsAreSpoken(json, thinking, reasoned.b, chunk.parts);
    SpokenConcat(reasoned.events, parts.events);
    CloseSpoken(parts.b, reasoned.events + parts.events);
  }

  lemma CloseSpoken(b: Blocks, es: seq<Event>)
    ensures Spoken(es + CloseContent(b).events) == Spoken(es)
  {
    WordlessSpoken(CloseContent(b).events);
    SpokenConcat(es, CloseContent(b).events);
    ConcatEmpty(Spoken(es));
  }

  lemma EmitArgWordless(json: Json, s: Session, t: int, args: string)
    requires t in s.b.tools.at
    ensures Wordless(EmitArg(json, s, t, args).events)
  {
  }

  lemma TakeWordless(json: Json, s: Session, t: int, args: string)
    ensures Wordless(TakeArguments(json, s, t, args).events)
  {
    if args != "" && Live(s.b, t) {
      EmitArgWordless(json, s, t, args);
    }
  }

  lemma StartWordless(json: Json, s: Session, t: int, tc: ToolCall)
    requires t in s.b.tools.at && tc.ToolCall?
    ensures var begun := Begin(json, s, t, tc.freshId);
            Wordless(begun.events) && Wordless(TakeArguments(json, begun.s, t, tc.arguments).events)
  {
    var state := s.b.tools.at[t];
    var out := StartTool(SetTool(s.b, t, state.(preStartArgs := "")), t,
                         if state.toolId != "" then state.toolId else tc.freshId, Text.Strip(state.name));
    EmitArgWordless(json, s.(b := out.b), t, state.preStartArgs);
    TakeWordless(json, Begin(json, s, t, tc.freshId).s, t, tc.arguments);
  }

  lemma CallWordless(json: Json, s: Session, tc: ToolCall)
    ensures Wordless(ProcessToolCall(json, s, tc).events)
  {
    if tc.ToolCall? {
      var t := ResolveIndex(s.b, tc);
      var noted := s.(b := Note(s.b, t, tc));
      if !Live(noted.b, t) && HasInk(ToolAt(noted.b, t).name) {
        assert t in noted.b.tools.at;
        StartWordless(json, noted, t, tc);
      } else {
        TakeWordless(json, noted, t, tc.arguments);
      }
    }
  }

  lemma {:induction false} CallsWordless(json: Json, s: Session, calls: seq<ToolCall>)
    ensures Wordless(ProcessToolCalls(json, s, calls).events)
    decreases |calls|
  {
    if calls != [] {
      CallWordless(json, s, calls[0]);
      var first := ProcessToolCall(json, s, calls[0]);
      if !first.raised {
        CallsWordless(json, first.s, calls[1..]);
      }
    }
  }

  lemma ChunkSpoken(json: Json, thinking: bool, s: Session, chunk: Chunk)
    ensures Spoken(ProcessChunk(json, thinking, s, chunk).events) ==
            (if thinking && chunk.reasoning != "" then [ThinkingDelta(chunk.reasoning)] else []) + PartsSpoken(thinking, chunk.parts)
  {
    var content := ProcessContent(json, thinking, s.b, chunk);
    var calls := ProcessToolCalls(json, s.(b := content.b), chunk.calls);
    ContentSpoken(json, thinking, s.b, chunk);
    CallsWordless(json, s.(b := content.b), chunk.calls);
    WordlessSpoken(calls.events);
    SpokenConcat(content.events, calls.events);
    ConcatEmpty(Spoken(content.events));
  }

  lemma {:induction false} ChunksAreSpoken(json: Json, thinking: bool, s: Session, chunks: seq<Chunk>)
    ensures Spoken(ProcessChunks(json, thinking, s, chunks).events) == ChunksSpoken(thinking, ReadChunks(json, thinking, s, chunks))
    decreases |chunks|
  {
    if chunks != [] {
      var first := ProcessChunk(json, thinking, s, chunks[0]);
      ChunkSpoken(json, thinking, s, chunks[0]);
      if first.raised {
        assert ReadChunks(json, thinking, s, chunks)[1..] == [];
        ConcatEmpty(Spoken(first.events));
      } else {
        assert ReadChunks(json, thinking, s, chunks)[1..] == ReadChunks(json, thinking, first.s, chunks[1..]);
        ChunksAreSpoken(json, thinking, first.s, chunks[1..]);
        SpokenConcat(first.events, ProcessChunks(json, thinking, first.s, chunks[1..]).events);
      }
    }
  }

  /** The client is shown text and thinking in the order in which they were sent, delta by delta, over any
      chunks, and up to an exception. */
  lemma ShownInOrder(json: Json, thinking: bool, a: Attempt)
    ensures Spoken(AttemptTurn(json, thinking, a).events) == ChunksSpoken(thinking, ReadOf(json, thinking, a))
  {
    if a.Opened? {
      ChunksAreSpoken(json, thinking, NewSession, a.chunks);
    }
  }
}
