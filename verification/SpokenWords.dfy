/** The text and the thinking that an OpenAI stream shows, read off what the provider sent
    (providers/openai_compat.py, the chunk loop and the end of the stream). */
module SpokenWords {
  import opened OrderedDict
  import opened StreamContract
  import opened BlockState
  import opened JsonTexts
  import opened ToolCalls
  import opened ToolFragments
  import opened StreamRecovery
  import opened OpenAIStream
  import opened OpenAIContract
  import opened OpenAIRecovery
  import opened OpenAIArguments
  import Text

  // ----- what the provider says -----

  /** The text of the parts, in order. */
  function TextOf(parts: seq<Part>): string {
    if parts == [] then ""
    else (if parts[0].TextPart? then parts[0].filtered else "") + TextOf(parts[1..])
  }

  /** The thinking of the parts, in order. */
  function ThoughtOf(parts: seq<Part>): string {
    if parts == [] then ""
    else (if parts[0].ThinkPart? then parts[0].content else "") + ThoughtOf(parts[1..])
  }

  function TextSent(chunks: seq<Chunk>): string {
    if chunks == [] then "" else TextOf(chunks[0].parts) + TextSent(chunks[1..])
  }

  /** The reasoning field of each chunk, and then what its content has between think tags. */
  function ThoughtSent(chunks: seq<Chunk>): string {
    if chunks == [] then "" else chunks[0].reasoning + ThoughtOf(chunks[0].parts) + ThoughtSent(chunks[1..])
  }

  predicate HasThought(parts: seq<Part>) {
    exists k :: 0 <= k < |parts| && parts[k].ThinkPart?
  }

  /** Some thinking is sent, be it empty. */
  predicate Thinks(chunks: seq<Chunk>) {
    exists k :: 0 <= k < |chunks| && (chunks[k].reasoning != "" || HasThought(chunks[k].parts))
  }

  // ----- the blocks follow it -----

  /** Open blocks have an index. */
  predicate Placed(b: Blocks) {
    (b.textStarted ==> b.textIndex != -1) && (b.thinkingStarted ==> b.thinkingIndex != -1)
  }

  /** From `b` to `b'`, the text block has shown `text`, and the thinking block `thought`. */
  predicate Says(b: Blocks, b': Blocks, text: string, thought: string, thinks: bool) {
    && b'.text == b.text + text && b'.reasoning == b.reasoning + thought
    && (Placed(b) ==> Placed(b') && (b'.textIndex != -1 <==> b.textIndex != -1 || text != "")
                      && (b'.thinkingIndex != -1 <==> b.thinkingIndex != -1 || thinks))
  }

  lemma SaysMore(a: Blocks, b: Blocks, c: Blocks, s: string, t: string, x: string, y: string, p: bool, q: bool)
    requires Says(a, b, s, x, p) && Says(b, c, t, y, q)
    ensures Says(a, c, s + t, x + y, p || q)
  {
    ConcatAssoc(a.text, s, t);
    ConcatAssoc(a.reasoning, x, y);
  }

  /** The text and thinking side of the state is as it was. */
  predicate SaysNothing(b: Blocks, b': Blocks) {
    && b'.text == b.text && b'.reasoning == b.reasoning && b'.textIndex == b.textIndex && b'.thinkingIndex == b.thinkingIndex
    && (b'.textStarted ==> b.textStarted) && (b'.thinkingStarted ==> b.thinkingStarted)
  }

  lemma NothingIsSaid(b: Blocks, b': Blocks)
    requires SaysNothing(b, b')
    ensures Says(b, b', "", "", false)
  {
    ConcatEmpty(b.text);
    ConcatEmpty(b.reasoning);
  }

  lemma SaidText(b: Blocks, s: string)
    requires s != ""
    ensures Says(b, SayText(b, s).b, s, "", false)
  {
    ConcatEmpty(b.reasoning);
  }

  lemma SaidThought(b: Blocks, s: string)
    ensures Says(b, SayThinking(b, s).b, "", s, true)
  {
    ConcatEmpty(b.text);
  }

  lemma {:induction false} ToolsSayNothing(json: Json, b: Blocks, tools: seq<HeuristicTool>)
    ensures SaysNothing(b, ProcessTools(json, b, tools).b)
    decreases |tools|
  {
    if tools != [] {
      ToolsSayNothing(json, EmitHeuristic(json, b, tools[0]).b, tools[1..]);
    }
  }

  lemma PartSays(json: Json, thinking: bool, b: Blocks, part: Part)
    ensures Says(b, ProcessPart(json, thinking, b, part).b, if part.TextPart? then part.filtered else "",
                 if thinking && part.ThinkPart? then part.content else "", thinking && part.ThinkPart?)
  {
    NothingIsSaid(b, b);
    match part
    case ThinkPart(content) =>
      SaidThought(b, content);
    case TextPart(filtered, tools) =>
      var said := if filtered != "" then SayText(b, filtered) else Out(b, []);
      if filtered != "" {
        SaidText(b, filtered);
      }
      ToolsSayNothing(json, said.b, tools);
  }

  lemma {:induction false} PartsSay(json: Json, thinking: bool, b: Blocks, parts: seq<Part>)
    ensures Says(b, ProcessParts(json, thinking, b, parts).b, TextOf(parts), if thinking then ThoughtOf(parts) else "",
                 thinking && HasThought(parts))
    decreases |parts|
  {
    if parts == [] {
      NothingIsSaid(b, b);
    } else {
      var first := ProcessPart(json, thinking, b, parts[0]);
      PartSays(json, thinking, b, parts[0]);
      PartsSay(json, thinking, first.b, parts[1..]);
      SaysMore(b, first.b, ProcessParts(json, thinking, first.b, parts[1..]).b,
               if parts[0].TextPart? then parts[0].filtered else "", TextOf(parts[1..]),
               if thinking && parts[0].ThinkPart? then parts[0].content else "", if thinking then ThoughtOf(parts[1..]) else "",
               thinking && parts[0].ThinkPart?, thinking && HasThought(parts[1..]));
      HasThoughtStep(parts);
    }
  }

  lemma HasThoughtStep(parts: seq<Part>)
    requires parts != []
    ensures HasThought(parts) <==> parts[0].ThinkPart? || HasThought(parts[1..])
  {
    if k :| 0 <= k < |parts[1..]| && parts[1..][k].ThinkPart? {
      assert parts[k + 1].ThinkPart?;
    }
    if k :| 0 <= k < |parts| && parts[k].ThinkPart? {
      assert k > 0 ==> parts[1..][k - 1].ThinkPart?;
    }
  }

  lemma ContentSays(json: Json, thinking: bool, b: Blocks, chunk: Chunk)
    ensures Says(b, ProcessContent(json, thinking, b, chunk).b, TextOf(chunk.parts),
                 if thinking then chunk.reasoning + ThoughtOf(chunk.parts) else "",
                 thinking && (chunk.reasoning != "" || HasThought(chunk.parts)))
  {
    var reasons := thinking && chunk.reasoning != "";
    var reasoned := if reasons then SayThinking(b, chunk.reasoning) else Out(b, []);
    if reasons {
      SaidThought(b, chunk.reasoning);
    } else {
      NothingIsSaid(b, b);
    }
    PartsSay(json, thinking, reasoned.b, chunk.parts);
    var parts := ProcessParts(json, thinking, reasoned.b, chunk.parts);
    SaysMore(b, reasoned.b, parts.b, "", TextOf(chunk.parts), if reasons then chunk.reasoning else "",
             if thinking then ThoughtOf(chunk.parts) else "", reasons, thinking && HasThought(chunk.parts));
    ConcatEmpty(TextOf(chunk.parts));
    assert SaysNothing(parts.b, CloseContent(parts.b).b);
  }

  // ----- tool calls say nothing -----

  lemma EmitArgSaysNothing(json: Json, s: Session, t: int, args: string)
    requires t in s.b.tools.at
    ensures SaysNothing(s.b, EmitArg(json, s, t, args).s.b)
  {
  }

  lemma CallSaysNothing(json: Json, s: Session, tc: ToolCall)
    ensures SaysNothing(s.b, ProcessToolCall(json, s, tc).s.b)
  {
    if tc.ToolCall? {
      var t := ResolveIndex(s.b, tc);
      var noted := s.(b := Note(s.b, t, tc));
      NoteSaysNothing(s.b, t, tc);
      if !Live(noted.b, t) && HasInk(ToolAt(noted.b, t).name) {
        assert t in noted.b.tools.at;
        StartSaysNothing(json, noted, t, tc);
      } else {
        TakeSaysNothing(json, noted, t, tc.arguments);
      }
    }
  }

  lemma NoteSaysNothing(b: Blocks, t: int, tc: ToolCall)
    requires tc.ToolCall?
    ensures SaysNothing(b, Note(b, t, tc))
  {
  }

  lemma StartSaysNothing(json: Json, s: Session, t: int, tc: ToolCall)
    requires t in s.b.tools.at && tc.ToolCall?
    ensures var begun := Begin(json, s, t, tc.freshId);
            SaysNothing(s.b, begun.s.b) && SaysNothing(s.b, TakeArguments(json, begun.s, t, tc.arguments).s.b)
  {
    BeginSaysNothing(json, s, t, tc.freshId);
    TakeSaysNothing(json, Begin(json, s, t, tc.freshId).s, t, tc.arguments);
  }

  lemma BeginSaysNothing(json: Json, s: Session, t: int, freshId: string)
    requires t in s.b.tools.at
    ensures SaysNothing(s.b, Begin(json, s, t, freshId).s.b)
  {
    var state := s.b.tools.at[t];
    var out := StartTool(SetTool(s.b, t, state.(preStartArgs := "")), t,
                         if state.toolId != "" then state.toolId else freshId, Text.Strip(state.name));
    EmitArgSaysNothing(json, s.(b := out.b), t, state.preStartArgs);
  }

  lemma TakeSaysNothing(json: Json, s: Session, t: int, args: string)
    ensures SaysNothing(s.b, TakeArguments(json, s, t, args).s.b)
  {
    if args != "" && Live(s.b, t) {
      EmitArgSaysNothing(json, s, t, args);
    }
  }

  lemma {:induction false} CallsSayNothing(json: Json, s: Session, calls: seq<ToolCall>)
    ensures SaysNothing(s.b, ProcessToolCalls(json, s, calls).s.b)
    decreases |calls|
  {
    if calls != [] {
      CallSaysNothing(json, s, calls[0]);
      var first := ProcessToolCall(json, s, calls[0]);
      if !first.raised {
        CallsSayNothing(json, first.s, calls[1..]);
      }
    }
  }

  // ----- over the chunks -----

  /** The chunks that are read: all, or those up to the one in which a call raises. */
  function ReadChunks(json: Json, thinking: bool, s: Session, chunks: seq<Chunk>): seq<Chunk>
    decreases |chunks|
  {
    if chunks == [] then []
    else
      var turn := ProcessChunk(json, thinking, s, chunks[0]);
      [chunks[0]] + if turn.raised then [] else ReadChunks(json, thinking, turn.s, chunks[1..])
  }

  lemma {:induction false} ReadInOrder(json: Json, thinking: bool, s: Session, chunks: seq<Chunk>)
    ensures ReadChunks(json, thinking, s, chunks) <= chunks
    ensures !ProcessChunks(json, thinking, s, chunks).raised ==> ReadChunks(json, thinking, s, chunks) == chunks
    decreases |chunks|
  {
    if chunks != [] {
      var turn := ProcessChunk(json, thinking, s, chunks[0]);
      assert chunks == [chunks[0]] + chunks[1..];
      if !turn.raised {
        ReadInOrder(json, thinking, turn.s, chunks[1..]);
      }
    }
  }

  lemma ThinksStep(chunks: seq<Chunk>)
    requires chunks != []
    ensures Thinks(chunks) <==> chunks[0].reasoning != "" || HasThought(chunks[0].parts) || Thinks(chunks[1..])
  {
    if k :| 0 <= k < |chunks[1..]| && (chunks[1..][k].reasoning != "" || HasThought(chunks[1..][k].parts)) {
      assert chunks[k + 1] == chunks[1..][k];
    }
    if k :| 0 <= k < |chunks| && (chunks[k].reasoning != "" || HasThought(chunks[k].parts)) {
      assert k > 0 ==> chunks[1..][k - 1] == chunks[k];
    }
  }

  lemma ChunkSays(json: Json, thinking: bool, s: Session, chunk: Chunk)
    ensures Says(s.b, ProcessChunk(json, thinking, s, chunk).s.b, TextOf(chunk.parts),
                 if thinking then chunk.reasoning + ThoughtOf(chunk.parts) else "",
                 thinking && (chunk.reasoning != "" || HasThought(chunk.parts)))
  {
    ContentSays(json, thinking, s.b, chunk);
    CallsSayNothing(json, s.(b := ProcessContent(json, thinking, s.b, chunk).b), chunk.calls);
  }

  lemma {:induction false} ChunksSay(json: Json, thinking: bool, s: Session, chunks: seq<Chunk>)
    ensures var read := ReadChunks(json, thinking, s, chunks);
            Says(s.b, ProcessChunks(json, thinking, s, chunks).s.b, TextSent(read), if thinking then ThoughtSent(read) else "",
                 thinking && Thinks(read))
    decreases |chunks|
  {
    if chunks == [] {
      NothingIsSaid(s.b, s.b);
    } else {
      var turn, read := ProcessChunk(json, thinking, s, chunks[0]), ReadChunks(json, thinking, s, chunks);
      var text, thought := TextOf(chunks[0].parts), if thinking then chunks[0].reasoning + ThoughtOf(chunks[0].parts) else "";
      var thinks := thinking && (chunks[0].reasoning != "" || HasThought(chunks[0].parts));
      ChunkSays(json, thinking, s, chunks[0]);
      ThinksStep(read);
      if turn.raised {
        ConcatEmpty(text);
        ConcatEmpty(thought);
        assert read[1..] == [];
      } else {
        var rest := ReadChunks(json, thinking, turn.s, chunks[1..]);
        assert read[1..] == rest;
        ChunksSay(json, thinking, turn.s, chunks[1..]);
        SaysMore(s.b, turn.s.b, ProcessChunks(json, thinking, turn.s, chunks[1..]).s.b, text, TextSent(rest),
                 thought, if thinking then ThoughtSent(rest) else "", thinks, thinking && Thinks(rest));
      }
    }
  }

  /** What an attempt reads. */
  function ReadOf(json: Json, thinking: bool, a: Attempt): seq<Chunk> {
    if a.Opened? then ReadChunks(json, thinking, NewSession, a.chunks) else []
  }

  /** The text shown is the text sent, and the thinking shown the thinking sent, if it is enabled: over any
      chunks, and up to an exception. */
  lemma ShownIsSaid(json: Json, thinking: bool, a: Attempt)
    ensures var turn, read := AttemptTurn(json, thinking, a), ReadOf(json, thinking, a);
            && (a.Opened? ==> read <= a.chunks && (!turn.raised ==> read == a.chunks))
            && ShownText(turn.events) == TextSent(read)
            && ShownThinking(turn.events) == (if thinking then ThoughtSent(read) else "")
            && (turn.s.b.textIndex != -1 <==> TextSent(read) != "")
            && (turn.s.b.thinkingIndex != -1 <==> thinking && Thinks(read))
            && turn.s.b.text == TextSent(read) && turn.s.b.reasoning == ShownThinking(turn.events)
  {
    AttemptSound(json, thinking, a);
    if a.Opened? {
      ReadInOrder(json, thinking, NewSession, a.chunks);
      ChunksSay(json, thinking, NewSession, a.chunks);
    }
    ConcatEmpty(TextSent(ReadOf(json, thinking, a)));
    ConcatEmpty(ThoughtSent(ReadOf(json, thinking, a)));
  }

  // ----- at a normal end -----

  function LeftText(a: Attempt): string
    requires a.Opened?
  {
    if a.leftover.LeftText? then a.leftover.content else ""
  }

  function LeftThought(a: Attempt): string
    requires a.Opened?
  {
    if a.leftover.LeftThinking? then a.leftover.content else ""
  }

  /** Everything the attempt says, and everything it thinks. */
  function AllText(a: Attempt): string
    requires a.Opened?
  {
    TextSent(a.chunks) + LeftText(a)
  }

  function AllThought(thinking: bool, a: Attempt): string
    requires a.Opened?
  {
    if thinking then ThoughtSent(a.chunks) + LeftThought(a) else ""
  }

  /** Some streamed call has a name. */
  ghost predicate CallsTool(json: Json, thinking: bool, a: Attempt) {
    exists t :: HasInk(Named(Fragments(json, thinking, a, t)))
  }

  /** The message would come out with nothing in it (tool calls found in text do not count), or with
      thinking only. */
  ghost predicate NeedsSpace(json: Json, thinking: bool, a: Attempt)
    requires a.Opened?
  {
    var saysText := TextSent(a.chunks) != "" || a.leftover.LeftText?;
    var thinks := thinking && (Thinks(a.chunks) || a.leftover.LeftThinking?);
    && !CallsTool(json, thinking, a)
    && ((!saysText && !thinks) || (!HasInk(AllText(a)) && HasInk(AllThought(thinking, a))))
  }

  lemma StartedIsCalled(json: Json, thinking: bool, a: Attempt)
    ensures HasStartedTool(AttemptTurn(json, thinking, a).s.b) <==> CallsTool(json, thinking, a)
  {
    var b := AttemptTurn(json, thinking, a).s.b;
    forall t ensures Live(b, t) <==> HasInk(Named(Fragments(json, thinking, a, t))) {
      AttemptFollows(json, thinking, a, t);
    }
    if HasStartedTool(b) {
      var t :| t in b.tools.at && b.tools.at[t].started;
      assert Live(b, t);
    }
    if t :| HasInk(Named(Fragments(json, thinking, a, t))) {
      assert Live(b, t);
    }
  }

  lemma LeftoverSays(thinking: bool, b: Blocks, a: Attempt)
    requires a.Opened? && Placed(b)
    ensures var b' := FlushLeftover(thinking, b, a.leftover).b;
            && b'.text == b.text + LeftText(a) && b'.reasoning == b.reasoning + (if thinking then LeftThought(a) else "")
            && (b'.textIndex != -1 <==> b.textIndex != -1 || a.leftover.LeftText?)
            && (b'.thinkingIndex != -1 <==> b.thinkingIndex != -1 || (thinking && a.leftover.LeftThinking?))
            && b'.tools == b.tools
  {
    ConcatEmpty(b.text);
    ConcatEmpty(b.reasoning);
  }

  lemma FinishSays(json: Json, thinking: bool, b: Blocks, a: Attempt)
    requires a.Opened? && Placed(b)
    ensures var b', text, thought := FinishContent(json, thinking, b, a).b, b.text + LeftText(a), b.reasoning + if thinking then LeftThought(a) else "";
            var nothing := b.textIndex == -1 && !a.leftover.LeftText? && b.thinkingIndex == -1 && !(thinking && a.leftover.LeftThinking?);
            && b'.reasoning == thought
            && b'.text == text + if !HasStartedTool(b) && (nothing || (!HasInk(text) && HasInk(thought))) then " " else ""
  {
    var left := FlushLeftover(thinking, b, a.leftover);
    LeftoverSays(thinking, b, a);
    ToolsSayNothing(json, left.b, a.lateTools);
    ToolsKeepTools(json, left.b, a.lateTools);
    ConcatEmpty(left.b.text);
  }

  lemma {:induction false} FlushAliasesSayNothing(json: Json, s: Session, order: seq<int>)
    ensures SaysNothing(s.b, FlushAliases(json, s, order).s.b)
    decreases |order|
  {
    if order != [] {
      FlushAliasesSayNothing(json, FlushAlias(json, s, order[0]).s, order[1..]);
    }
  }

  lemma {:induction false} DrainSaysNothing(json: Json, b: Blocks, order: seq<int>)
    ensures SaysNothing(b, DrainTasks(json, b, order).b)
    decreases |order|
  {
    if order != [] {
      var state := ToolAt(b, order[0]);
      DrainSaysNothing(json, b, order[1..]);
      DrainSaysNothing(json, SetTool(b, order[0], state.(taskArgBuffer := "", taskArgsEmitted := true)), order[1..]);
    }
  }

  lemma {:induction false} ResultsSayNothing(b: Blocks, results: seq<(int, string)>)
    requires forall r :: r in results ==> r.0 in b.tools.at
    ensures SaysNothing(b, EmitResults(b, results).b)
    decreases |results|
  {
    if results != [] {
      ResultsSayNothing(EmitTool(b, results[0].0, results[0].1).b, results[1..]);
    }
  }

  lemma FlushesSayNothing(json: Json, s: Session)
    ensures SaysNothing(s.b, Flushes(json, s).s.b)
  {
    var b := FlushAliases(json, s, s.aliasBuffers.keys).s.b;
    FlushAliasesSayNothing(json, s, s.aliasBuffers.keys);
    DrainSaysNothing(json, b, b.tools.keys);
    DrainedKeys(json, b, b.tools.keys);
    var drained := DrainTasks(json, b, b.tools.keys);
    if !drained.raised {
      ResultsSayNothing(drained.b, drained.results);
    }
  }

  /** The last finish reason is that of chunk `k`. */
  predicate FinishesAt(chunks: seq<Chunk>, k: int) {
    0 <= k < |chunks| && chunks[k].finish.Some? && forall j :: k < j < |chunks| ==> chunks[j].finish.None?
  }

  /** The stop reason that a finish reason stands for. */
  predicate StandsFor(finish: FinishReason, reason: StopReason) {
    match finish
    case Length => reason == MaxTokens
    case ToolCallsFinish => reason == ToolUse
    case Stop => reason == EndTurn
    case ContentFilter => reason == EndTurn
    case OtherFinish => reason == EndTurn
  }

  lemma {:induction false} LastFinishAt(chunks: seq<Chunk>) returns (k: int)
    requires LastFinish(chunks).Some?
    ensures FinishesAt(chunks, k) && chunks[k].finish == LastFinish(chunks)
    decreases |chunks|
  {
    k := |chunks| - 1;
    if chunks[k].finish.None? {
      var init := chunks[..k];
      k := LastFinishAt(init);
      assert forall j :: 0 <= j < |init| ==> init[j] == chunks[j];
    }
  }

  /** No message-level event but an error. */
  predicate InMessage(es: seq<Event>) {
    forall e :: e in es ==> IsBlockEvent(e) || e.ErrorEvent?
  }

  /** The events end the message, once, with this reason. */
  predicate EndsWith(out: seq<Event>, reason: StopReason) {
    && |out| >= 2 && out[|out| - 2..] == [MessageDelta(Some(reason)), MessageStop] && InMessage(out[..|out| - 2])
  }

  lemma BodyEnds(body: seq<Event>, reason: StopReason)
    requires InMessage(body)
    ensures EndsWith(body + [MessageDelta(Some(reason)), MessageStop], reason)
  {
    assert (body + [MessageDelta(Some(reason)), MessageStop])[..|body|] == body;
  }

  /** Once the blocks `es` are shown, closing them and ending the message shows nothing. */
  lemma ClosedEnd(b: Blocks, es: seq<Event>, reason: StopReason)
    requires OnlyBlocks(es)
    ensures var out := es + (CloseAll(b).events + [MessageDelta(Some(reason)), MessageStop]);
            && ShownText(out) == ShownText(es) && ShownThinking(out) == ShownThinking(es) && EndsWith(out, reason)
  {
    var closes := CloseAll(b).events;
    CloseShowsNothing(b);
    CloseIsBlocks(b);
    NoTextShown(es, closes + [MessageDelta(Some(reason)), MessageStop]);
    ConcatAssoc(es, closes, [MessageDelta(Some(reason)), MessageStop]);
    BodyEnds(es + closes, reason);
  }

  /** At a normal end, the client has been shown all the text and all the thinking that was sent, in order,
      with a space for a message that has neither; and the message ends once, with the reason that the
      last finish reason stands for. */
  lemma NormalEnd(json: Json, thinking: bool, a: Attempt, answers: Answers, message: string)
    requires AttemptOutcome(json, thinking, a).Finished?
    ensures var out := AttemptOutput(json, thinking, a, answers, message);
            && ShownText(out) == AllText(a) + (if NeedsSpace(json, thinking, a) then " " else "")
            && ShownThinking(out) == AllThought(thinking, a)
            && exists k, reason :: FinishesAt(a.chunks, k) && StandsFor(a.chunks[k].finish.value, reason) && EndsWith(out, reason)
  {
    var finish := AttemptOutcome(json, thinking, a).finish;
    FinishedParts(json, thinking, a, answers, message);
    FlushedShown(json, thinking, a);
    ClosedEnd(Flushed(json, thinking, AttemptTurn(json, thinking, a).s, a).s.b, BeforeStops(json, thinking, a), MapStopReason(finish));
    var k := LastFinishAt(a.chunks);
    assert StandsFor(finish, MapStopReason(finish));
  }

  /** What a normal end shows before it closes the blocks. */
  function BeforeStops(json: Json, thinking: bool, a: Attempt): seq<Event>
    requires a.Opened?
  {
    AttemptTurn(json, thinking, a).events + Flushed(json, thinking, AttemptTurn(json, thinking, a).s, a).events
  }

  lemma FinishedParts(json: Json, thinking: bool, a: Attempt, answers: Answers, message: string)
    requires AttemptOutcome(json, thinking, a).Finished?
    ensures LastFinish(a.chunks) == Some(AttemptOutcome(json, thinking, a).finish)
    ensures AttemptOutput(json, thinking, a, answers, message) ==
            BeforeStops(json, thinking, a)
            + (CloseAll(Flushed(json, thinking, AttemptTurn(json, thinking, a).s, a).s.b).events
               + [MessageDelta(Some(MapStopReason(AttemptOutcome(json, thinking, a).finish))), MessageStop])
  {
    var turn := AttemptTurn(json, thinking, a);
    CompletionParts(json, thinking, turn.s, turn.events, a, AttemptOutcome(json, thinking, a).finish);
  }

  lemma FlushedShown(json: Json, thinking: bool, a: Attempt)
    requires AttemptOutcome(json, thinking, a).Finished?
    ensures var es := BeforeStops(json, thinking, a);
            && OnlyBlocks(es)
            && ShownText(es) == AllText(a) + (if NeedsSpace(json, thinking, a) then " " else "")
            && ShownThinking(es) == AllThought(thinking, a)
  {
    var turn := AttemptTurn(json, thinking, a);
    AttemptSound(json, thinking, a);
    FlushedGood(json, thinking, turn.s, turn.events, a);
    FlushedWords(json, thinking, a);
  }

  lemma FlushedWords(json: Json, thinking: bool, a: Attempt)
    requires AttemptOutcome(json, thinking, a).Finished?
    ensures var b := Flushed(json, thinking, AttemptTurn(json, thinking, a).s, a).s.b;
            && b.text == AllText(a) + (if NeedsSpace(json, thinking, a) then " " else "")
            && b.reasoning == AllThought(thinking, a)
  {
    var turn := AttemptTurn(json, thinking, a);
    AttemptSound(json, thinking, a);
    ShownIsSaid(json, thinking, a);
    StartedIsCalled(json, thinking, a);
    ChunksSay(json, thinking, NewSession, a.chunks);
    FinishSays(json, thinking, turn.s.b, a);
    FlushesSayNothing(json, turn.s.(b := FinishContent(json, thinking, turn.s.b, a).b));
    ConcatEmpty("");
  }

  // ----- at a failure that is not retried -----

  lemma {:induction false} ThoughtIsThinking(chunks: seq<Chunk>)
    requires ThoughtSent(chunks) != ""
    ensures Thinks(chunks)
    decreases |chunks|
  {
    ThinksStep(chunks);
    if ThoughtOf(chunks[0].parts) != "" {
      PartsThink(chunks[0].parts);
    } else if chunks[0].reasoning == "" {
      ThoughtIsThinking(chunks[1..]);
    }
  }

  lemma {:induction false} PartsThink(parts: seq<Part>)
    requires ThoughtOf(parts) != ""
    ensures HasThought(parts)
    decreases |parts|
  {
    HasThoughtStep(parts);
    if !parts[0].ThinkPart? {
      PartsThink(parts[1..]);
    }
  }

  /** The only error event, if tools have started, is this message. */
  ghost predicate TellsError(out: seq<Event>, tools: bool, message: string) {
    (forall e :: e in out && e.ErrorEvent? ==> tools && e == ErrorEvent(message)) && (tools ==> ErrorEvent(message) in out)
  }

  /** The error tail, piece by piece. */
  function LastWords(b: Blocks, message: string): seq<Event> {
    if HasStartedTool(b) then [ErrorEvent(message)] else EmitError(CloseAll(b).b, message).events
  }

  lemma ErrorTailIs(b: Blocks, es: seq<Event>, message: string)
    ensures es + ErrorTail(b, message) ==
            es + CloseAll(b).events + LastWords(b, message) + [MessageDelta(Some(EndTurn)), MessageStop]
  {
    assert CloseAll(b).b.tools == b.tools;
    var closes, last, end := CloseAll(b).events, LastWords(b, message), [MessageDelta(Some(EndTurn)), MessageStop];
    assert ErrorTail(b, message) == closes + last + end;
    ConcatAssoc(es, closes, last);
    ConcatAssoc(es, closes + last, end);
  }

  /** The error tail shows the message, unless a tool has started, and ends the turn. */
  lemma ErrorTailWords(b: Blocks, es: seq<Event>, message: string)
    requires OnlyBlocks(es)
    ensures var out := es + ErrorTail(b, message);
            && ShownText(out) == ShownText(es) + (if HasStartedTool(b) then "" else message)
            && ShownThinking(out) == ShownThinking(es) && EndsWith(out, EndTurn) && TellsError(out, HasStartedTool(b), message)
  {
    CloseShowsNothing(b);
    CloseIsBlocks(b);
    TailWords(es, CloseAll(b).events, CloseAll(b).b, HasStartedTool(b), message);
    ErrorTailIs(b, es, message);
  }

  lemma TailWords(es: seq<Event>, closes: seq<Event>, b: Blocks, tools: bool, message: string)
    requires OnlyBlocks(es) && OnlyBlocks(closes) && forall e :: e in closes ==> ShowsNothing(e)
    ensures var last := if tools then [ErrorEvent(message)] else EmitError(b, message).events;
            var out := es + closes + last + [MessageDelta(Some(EndTurn)), MessageStop];
            && ShownText(out) == ShownText(es) + (if tools then "" else message)
            && ShownThinking(out) == ShownThinking(es) && EndsWith(out, EndTurn) && TellsError(out, tools, message)
  {
    var last := if tools then [ErrorEvent(message)] else EmitError(b, message).events;
    NoTextShown(es, closes);
    ErrorWords(es + closes, b, tools, message);
    NoTextShown(es + closes + last, [MessageDelta(Some(EndTurn)), MessageStop]);
    AfterError(es, closes, last, tools, message);
  }

  lemma AfterError(es: seq<Event>, closes: seq<Event>, last: seq<Event>, tools: bool, message: string)
    requires OnlyBlocks(es) && OnlyBlocks(closes) && if tools then last == [ErrorEvent(message)] else OnlyBlocks(last)
    ensures var out := es + closes + last + [MessageDelta(Some(EndTurn)), MessageStop];
            EndsWith(out, EndTurn) && TellsError(out, tools, message)
  {
    assert !IsBlockEvent(ErrorEvent(message));
    BodyEnds(es + closes + last, EndTurn);
  }

  lemma ErrorWords(es: seq<Event>, b: Blocks, tools: bool, message: string)
    ensures var out := es + if tools then [ErrorEvent(message)] else EmitError(b, message).events;
            ShownText(out) == ShownText(es) + (if tools then "" else message) && ShownThinking(out) == ShownThinking(es)
  {
    ConcatEmpty(ShownText(es));
    if tools {
      ShownTextSnoc(es, ErrorEvent(message));
    } else {
      var start, delta, stop := BlockStart(b.nextIndex, TextBlock("")), BlockDelta(b.nextIndex, TextDelta(message)), BlockStop(b.nextIndex);
      ShownTextSnoc(es, start);
      ShownTextSnoc(es + [start], delta);
      ShownTextSnoc(es + [start] + [delta], stop);
      ConcatEmpty(ShownText(es) + message);
      assert es + [start] + [delta] + [stop] == es + EmitError(b, message).events;
    }
  }

  lemma ToolRecoveryWords(json: Json, s: Session, es: seq<Event>, answers: Answers)
    requires Good(s.b, es) && HasStartedTool(s.b) && Recover(json, s, answers).Recovered?
    ensures var out := es + Recover(json, s, answers).events;
            && ShownText(out) == ShownText(es) && ShownThinking(out) == ShownThinking(es) && EndsWith(out, ToolUse)
  {
    var repairs := ToolRepairs(json, s, answers);
    ToolRepairsGood(json, s, es, answers);
    RepairsSayNothing(json, s, s.b.tools.keys, answers.repairs);
    RecoveryParts(repairs.b, es, repairs.events, ToolUse, answers);
    ClosedEnd(repairs.b, es + repairs.events, ToolUse);
  }

  lemma {:induction false} RepairsSayNothing(json: Json, s: Session, order: seq<int>, repairs: RepairAnswers)
    ensures SaysNothing(s.b, RepairTools(json, s, order, repairs).b)
    decreases |order|
  {
    if order != [] {
      RepairsSayNothing(json, s, order[1..], repairs);
      if Live(s.b, order[0]) && RepairTool(json, s, order[0], repairs).Some? {
        RepairsSayNothing(json, s.(b := RepairTool(json, s, order[0], repairs).value.b), order[1..], repairs);
      }
    }
  }

  lemma TextRecoveryWords(json: Json, s: Session, es: seq<Event>, answers: Answers)
    requires Good(s.b, es) && !HasStartedTool(s.b) && Recover(json, s, answers).Recovered?
    ensures EndsWith(es + Recover(json, s, answers).events, EndTurn)
  {
    var continued := Continue(s.b, answers.continuation.value.0, answers.continuation.value.1);
    ContinueGood(s.b, es, answers.continuation.value.0, answers.continuation.value.1);
    RecoveryParts(continued.b, es, continued.events, EndTurn, answers);
    ClosedEnd(continued.b, es + continued.events, EndTurn);
  }

  /** What a failure adds, for a state that has shown `text` and `thought`. */
  ghost predicate FailureSays(json: Json, s: Session, retryable: bool, answers: Answers, message: string,
                              text: string, thought: string, out: seq<Event>) {
    if !(retryable && answers.estimate.Some? && Recovers(json, s, answers)) then
      && ShownText(out) == text + (if HasStartedTool(s.b) then "" else message)
      && ShownThinking(out) == thought && EndsWith(out, EndTurn) && TellsError(out, HasStartedTool(s.b), message)
    else if HasStartedTool(s.b) then
      ShownText(out) == text && ShownThinking(out) == thought && EndsWith(out, ToolUse)
    else
      && ShownText(out) == text + Continued(text, answers.continuation.value.0)
      && ShownThinking(out) == thought + Continued(thought, answers.continuation.value.1)
      && EndsWith(out, EndTurn)
  }

  lemma FailureWords(json: Json, s: Session, es: seq<Event>, retryable: bool, answers: Answers, message: string)
    requires Good(s.b, es)
    requires s.b.text != "" ==> s.b.textIndex != -1
    requires s.b.reasoning != "" ==> s.b.thinkingIndex != -1
    ensures FailureSays(json, s, retryable, answers, message, ShownText(es), ShownThinking(es),
                        es + FailureTail(json, s, retryable, answers, message))
  {
    var recovery := Recover(json, s, answers);
    RecoversWhen(json, s, answers);
    if retryable && recovery.Recovered? {
      if HasStartedTool(s.b) {
        ToolRecoveryWords(json, s, es, answers);
      } else {
        TextRecoveryWords(json, s, es, answers);
        RecoveredTextContinues(json, s, es, answers);
      }
    } else {
      ErrorTailWords(s.b, es, message);
      ErrorTailWords(recovery.b, es, message);
      if !recovery.Recovered? {
        FailedKeepsStarted(json, s, answers);
      }
    }
  }

  lemma FailedKeepsStarted(json: Json, s: Session, answers: Answers)
    requires !Recover(json, s, answers).Recovered?
    ensures HasStartedTool(Recover(json, s, answers).b) <==> HasStartedTool(s.b)
  {
    if Recover(json, s, answers).Declined? {
      DeclinedShape(json, s, answers);
    } else {
      CrashedState(json, s, answers);
    }
  }

  /** At a failure that is not retried, the client has been shown the text and the thinking that was sent, as
      far as it was read. A recovery of tools adds nothing to them and ends with tool_use; one of text adds
      just what continues them; and without one, the error message is said, unless a tool has started. */
  lemma FailedEnd(json: Json, thinking: bool, a: Attempt, answers: Answers, message: string)
    requires AttemptOutcome(json, thinking, a).Failed?
    ensures var s, read := AttemptTurn(json, thinking, a).s, ReadOf(json, thinking, a);
            && (HasStartedTool(s.b) <==> CallsTool(json, thinking, a))
            && FailureSays(json, s, AttemptOutcome(json, thinking, a).retryable, answers, message,
                           TextSent(read), if thinking then ThoughtSent(read) else "",
                           AttemptOutput(json, thinking, a, answers, message))
  {
    var turn := AttemptTurn(json, thinking, a);
    AttemptSound(json, thinking, a);
    ShownIsSaid(json, thinking, a);
    StartedIsCalled(json, thinking, a);
    if turn.s.b.reasoning != "" {
      ThoughtIsThinking(ReadOf(json, thinking, a));
    }
    FailureWords(json, turn.s, turn.events, AttemptOutcome(json, thinking, a).retryable, answers, message);
  }

  // ----- which ends are cuts -----

  lemma {:induction false} NoFinish(chunks: seq<Chunk>)
    ensures LastFinish(chunks).None? <==> forall k :: 0 <= k < |chunks| ==> chunks[k].finish.None?
    decreases |chunks|
  {
    if chunks != [] {
      NoFinish(chunks[..|chunks| - 1]);
    }
  }

  /** A stream that ends without a word and without a finish reason is as one cut by a failure that may be
      retried. */
  lemma SilentEndIsACut(json: Json, thinking: bool, a: Attempt, answers: Answers, message: string)
    requires a.Opened? && a.end.Exhausted? && forall k :: 0 <= k < |a.chunks| ==> a.chunks[k].finish.None?
    ensures AttemptOutput(json, thinking, a, answers, message) ==
            AttemptOutput(json, thinking, a.(end := Broke(true)), answers, message)
  {
    NoFinish(a.chunks);
    assert AttemptTurn(json, thinking, a) == AttemptTurn(json, thinking, a.(end := Broke(true)));
  }

  /** A stream that could not be opened, one that breaks in a way that is not to be retried, and one with a
      call that raises are told of the error, after what was shown, whatever a recovery would answer. */
  lemma OthersAreErrors(json: Json, thinking: bool, a: Attempt, answers: Answers, message: string)
    requires a.NotOpened? || a.end == Broke(false) || AttemptTurn(json, thinking, a).raised
    ensures AttemptOutput(json, thinking, a, answers, message) ==
            AttemptTurn(json, thinking, a).events + ErrorTail(AttemptTurn(json, thinking, a).s.b, message)
  {
    assert !GeneratedOutput(NewBlocks);
  }
}
