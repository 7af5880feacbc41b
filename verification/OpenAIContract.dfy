/** Every stream the OpenAI transport can show meets the client's contract, but for one named case. */
module OpenAIContract {
  import opened OrderedDict
  import opened StreamContract
  import opened BlockState
  import opened JsonTexts
  import opened ToolCalls
  import opened StreamRecovery
  import opened OpenAIStream

  // ----- an attempt keeps the builder and the wire in agreement -----

  lemma {:induction false} ProcessToolsGood(json: Json, b: Blocks, es: seq<Event>, tools: seq<HeuristicTool>)
    requires Good(b, es)
    ensures Good(ProcessTools(json, b, tools).b, es + ProcessTools(json, b, tools).events)
    decreases |tools|
  {
    if tools == [] {
      assert es + [] == es;
    } else {
      var first := EmitHeuristic(json, b, tools[0]);
      EmitHeuristicGood(json, b, es, tools[0]);
      ProcessToolsGood(json, first.b, es + first.events, tools[1..]);
      ConcatAssoc(es, first.events, ProcessTools(json, first.b, tools[1..]).events);
    }
  }

  lemma ProcessPartGood(json: Json, thinking: bool, b: Blocks, es: seq<Event>, part: Part)
    requires Good(b, es)
    ensures Good(ProcessPart(json, thinking, b, part).b, es + ProcessPart(json, thinking, b, part).events)
  {
    assert es + [] == es;
    match part
    case ThinkPart(content) =>
      SayThinkingGood(b, es, content);
    case TextPart(filtered, tools) =>
      var said := if filtered != "" then SayText(b, filtered) else Out(b, []);
      SayTextGood(b, es, filtered);
      ProcessToolsGood(json, said.b, es + said.events, tools);
      ConcatAssoc(es, said.events, ProcessTools(json, said.b, tools).events);
  }

  lemma {:induction false} ProcessPartsGood(json: Json, thinking: bool, b: Blocks, es: seq<Event>, parts: seq<Part>)
    requires Good(b, es)
    ensures Good(ProcessParts(json, thinking, b, parts).b, es + ProcessParts(json, thinking, b, parts).events)
    decreases |parts|
  {
    if parts == [] {
      assert es + [] == es;
    } else {
      var first := ProcessPart(json, thinking, b, parts[0]);
      ProcessPartGood(json, thinking, b, es, parts[0]);
      ProcessPartsGood(json, thinking, first.b, es + first.events, parts[1..]);
      ConcatAssoc(es, first.events, ProcessParts(json, thinking, first.b, parts[1..]).events);
    }
  }

  lemma ProcessContentGood(json: Json, thinking: bool, b: Blocks, es: seq<Event>, chunk: Chunk)
    requires Good(b, es)
    ensures Good(ProcessContent(json, thinking, b, chunk).b, es + ProcessContent(json, thinking, b, chunk).events)
  {
    assert es + [] == es;
    var reasoned := if thinking && chunk.reasoning != "" then SayThinking(b, chunk.reasoning) else Out(b, []);
    SayThinkingGood(b, es, chunk.reasoning);
    var parts := ProcessParts(json, thinking, reasoned.b, chunk.parts);
    ProcessPartsGood(json, thinking, reasoned.b, es + reasoned.events, chunk.parts);
    ConcatAssoc(es, reasoned.events, parts.events);
    if chunk.calls != [] {
      var said := Then(reasoned, parts);
      CloseContentGood(said.b, es + said.events);
      ConcatAssoc(es, said.events, CloseContent(said.b).events);
    }
  }

  /** The text side of a stream leaves the tools alone. */
  lemma ContentKeepsTools(json: Json, thinking: bool, b: Blocks, chunk: Chunk)
    ensures ProcessContent(json, thinking, b, chunk).b.tools == b.tools
  {
    var reasoned := if thinking && chunk.reasoning != "" then SayThinking(b, chunk.reasoning) else Out(b, []);
    PartsKeepTools(json, thinking, reasoned.b, chunk.parts);
  }

  lemma {:induction false} PartsKeepTools(json: Json, thinking: bool, b: Blocks, parts: seq<Part>)
    ensures ProcessParts(json, thinking, b, parts).b.tools == b.tools
    decreases |parts|
  {
    if parts != [] {
      var first := ProcessPart(json, thinking, b, parts[0]);
      if parts[0].TextPart? {
        var said := if parts[0].filtered != "" then SayText(b, parts[0].filtered) else Out(b, []);
        ToolsKeepTools(json, said.b, parts[0].tools);
      }
      PartsKeepTools(json, thinking, first.b, parts[1..]);
    }
  }

  lemma {:induction false} ToolsKeepTools(json: Json, b: Blocks, tools: seq<HeuristicTool>)
    ensures ProcessTools(json, b, tools).b.tools == b.tools
    decreases |tools|
  {
    if tools != [] {
      ToolsKeepTools(json, EmitHeuristic(json, b, tools[0]).b, tools[1..]);
    }
  }

  lemma SamePending(json: Json, s: Session, b: Blocks)
    requires Pending(json, s) && b.tools == s.b.tools
    ensures Pending(json, s.(b := b))
  {
    assert forall t :: Live(b, t) <==> Live(s.b, t);
  }

  lemma ProcessChunkSound(json: Json, thinking: bool, s: Session, es: seq<Event>, chunk: Chunk)
    requires Sound(json, s, es)
    ensures SoundTurn(json, es, ProcessChunk(json, thinking, s, chunk))
  {
    var content := ProcessContent(json, thinking, s.b, chunk);
    ProcessContentGood(json, thinking, s.b, es, chunk);
    ContentKeepsTools(json, thinking, s.b, chunk);
    SamePending(json, s, content.b);
    ProcessToolCallsSound(json, s.(b := content.b), es + content.events, chunk.calls);
    ConcatAssoc(es, content.events, ProcessToolCalls(json, s.(b := content.b), chunk.calls).events);
  }

  lemma {:induction false} ProcessChunksSound(json: Json, thinking: bool, s: Session, es: seq<Event>, chunks: seq<Chunk>)
    requires Sound(json, s, es)
    ensures SoundTurn(json, es, ProcessChunks(json, thinking, s, chunks))
    decreases |chunks|
  {
    if chunks == [] {
      assert es + [] == es;
    } else {
      var first := ProcessChunk(json, thinking, s, chunks[0]);
      ProcessChunkSound(json, thinking, s, es, chunks[0]);
      if !first.raised {
        ProcessChunksSound(json, thinking, first.s, es + first.events, chunks[1..]);
        ConcatAssoc(es, first.events, ProcessChunks(json, thinking, first.s, chunks[1..]).events);
      }
    }
  }

  lemma AttemptSound(json: Json, thinking: bool, a: Attempt)
    ensures SoundTurn(json, [], AttemptTurn(json, thinking, a))
    ensures [] + AttemptTurn(json, thinking, a).events == AttemptTurn(json, thinking, a).events
  {
    NewSound(json);
    if a.Opened? {
      ProcessChunksSound(json, thinking, NewSession, [], a.chunks);
    } else {
      assert [] + [] == AttemptTurn(json, thinking, a).events;
    }
  }

  // ----- whole streams -----

  /** The message-level events that may end a stream. */
  predicate IsTail(tail: seq<Event>) {
    && |tail| > 0 && tail[|tail| - 1] == MessageStop
    && forall i :: 0 <= i < |tail| - 1 ==> tail[i].MessageDelta? || tail[i].ErrorEvent?
  }

  lemma {:induction false} TailChangesNothing(c: Check, tail: seq<Event>)
    requires forall e :: e in tail ==> e.MessageDelta? || e.ErrorEvent? || e.MessageStop?
    ensures Run(c, tail) == c
  {
    if tail != [] {
      var last := tail[|tail| - 1];
      assert last in tail;
      TailChangesNothing(c, tail[..|tail| - 1]);
      assert Step(c, last) == c;
    }
  }

  lemma WrappedIsFramed(es: seq<Event>, tail: seq<Event>)
    requires OnlyBlocks(es) && IsTail(tail)
    ensures Framed([MessageStart] + es + tail)
  {
    var out := [MessageStart] + es + tail;
    forall i | 0 < i < |out| - 1 ensures out[i] != MessageStart && out[i] != MessageStop {
      if i < 1 + |es| {
        assert out[i] == es[i - 1];
        assert IsBlockEvent(es[i - 1]);
      } else {
        assert out[i] == tail[i - 1 - |es|];
      }
    }
  }

  lemma WrappedRun(es: seq<Event>, tail: seq<Event>)
    requires IsTail(tail)
    ensures Run(Fresh, [MessageStart] + es + tail) == Run(Fresh, es)
  {
    RunConcat(Fresh, [MessageStart] + es, tail);
    RunConcat(Fresh, [MessageStart], es);
    RunOne(Fresh, MessageStart);
    assert tail == tail[..|tail| - 1] + [MessageStop];
    TailChangesNothing(Run(Fresh, es), tail);
  }

  /** Block events between message_start and a message-level tail meet the contract exactly when
      their check ends with every block closed. */
  lemma WrappedContract(es: seq<Event>, tail: seq<Event>)
    requires OnlyBlocks(es) && IsTail(tail)
    ensures Framed([MessageStart] + es + tail)
    ensures Contract([MessageStart] + es + tail, true) <==> Done(Run(Fresh, es))
  {
    var out := [MessageStart] + es + tail;
    WrappedIsFramed(es, tail);
    WrappedRun(es, tail);
    ContractByRun(out, true);
    assert out[0] == MessageStart;
    assert out[|out| - 1] == tail[|tail| - 1];
  }

  /** The same, for a stream continued by more blocks and the tail. */
  lemma ContinuedContract(es: seq<Event>, blocks: seq<Event>, tail: seq<Event>)
    requires OnlyBlocks(es + blocks) && IsTail(tail)
    ensures var out := [MessageStart] + (es + (blocks + tail));
            Framed(out) && (Contract(out, true) <==> Done(Run(Fresh, es + blocks)))
  {
    WrappedContract(es + blocks, tail);
    Reassociate([MessageStart], es, blocks, tail);
  }

  lemma Reassociate<T>(a: seq<T>, b: seq<T>, c: seq<T>, d: seq<T>)
    ensures a + (b + c) + d == a + (b + (c + d))
  {
  }

  /** Blocks were shown, correctly, and all are closed. */
  ghost predicate Done(c: Check) {
    c.ok && c.open == map[] && c.seen != {}
  }

  lemma ClosedIsDone(c: Check, n: nat)
    requires AllClosed(c, n) && n > 0
    ensures Done(c)
  {
    assert 0 in c.seen;
  }

  // ----- the normal end -----

  lemma SayTextIndex(b: Blocks, es: seq<Event>, text: string)
    requires Good(b, es)
    ensures SayText(b, text).b.nextIndex > 0
  {
    EnsureTextGood(b, es);
  }

  /** Output was generated, so a block index has been used. */
  lemma GeneratedUsesIndex(b: Blocks, es: seq<Event>)
    requires Good(b, es) && GeneratedOutput(b)
    ensures b.nextIndex > 0
  {
    if t :| t in b.tools.at && b.tools.at[t].started {
      assert Live(b, t);
      assert b.tools.at[t].blockIndex in Run(Fresh, es).open;
    }
  }

  lemma FinishContentGood(json: Json, thinking: bool, b: Blocks, es: seq<Event>, a: Attempt)
    requires Good(b, es) && a.Opened?
    ensures Good(FinishContent(json, thinking, b, a).b, es + FinishContent(json, thinking, b, a).events)
    ensures FinishContent(json, thinking, b, a).b.nextIndex > 0
    ensures FinishContent(json, thinking, b, a).b.tools == b.tools
  {
    assert es + [] == es;
    var left := FlushLeftover(thinking, b, a.leftover);
    if a.leftover.LeftThinking? {
      SayThinkingGood(b, es, a.leftover.content);
    } else if a.leftover.LeftText? {
      SayTextGood(b, es, a.leftover.content);
    }
    var tools := ProcessTools(json, left.b, a.lateTools);
    ProcessToolsGood(json, left.b, es + left.events, a.lateTools);
    ToolsKeepTools(json, left.b, a.lateTools);
    ConcatAssoc(es, left.events, tools.events);
    var both := Then(left, tools);
    var last := Placeholder(both.b);
    PlaceholderGood(both.b, es + both.events);
    ConcatAssoc(es, both.events, last.events);
  }

  lemma PlaceholderGood(b: Blocks, es: seq<Event>)
    requires Good(b, es)
    ensures Good(Placeholder(b).b, es + Placeholder(b).events)
    ensures Placeholder(b).b.nextIndex > 0 && Placeholder(b).b.tools == b.tools
  {
    if Placeholder(b) == SayText(b, " ") {
      SayTextGood(b, es, " ");
      SayTextIndex(b, es, " ");
    } else {
      assert es + [] == es;
      GeneratedUsesIndex(b, es);
    }
  }

  lemma {:induction false} FlushAliasesIndex(json: Json, s: Session, order: seq<int>)
    ensures FlushAliases(json, s, order).s.b.nextIndex == s.b.nextIndex
    decreases |order|
  {
    if order != [] {
      FlushAliasesIndex(json, FlushAlias(json, s, order[0]).s, order[1..]);
    }
  }

  lemma {:induction false} DrainIndex(json: Json, b: Blocks, order: seq<int>)
    ensures DrainTasks(json, b, order).b.nextIndex == b.nextIndex
    decreases |order|
  {
    if order != [] {
      var t := order[0];
      DrainIndex(json, b, order[1..]);
      DrainIndex(json, SetTool(b, t, ToolAt(b, t).(taskArgBuffer := "", taskArgsEmitted := true)), order[1..]);
    }
  }

  lemma {:induction false} EmitResultsIndex(b: Blocks, results: seq<(int, string)>)
    requires forall r :: r in results ==> r.0 in b.tools.at
    ensures EmitResults(b, results).b.nextIndex == b.nextIndex
    decreases |results|
  {
    if results != [] {
      EmitResultsIndex(EmitTool(b, results[0].0, results[0].1).b, results[1..]);
    }
  }

  lemma FlushTasksIndex(json: Json, s: Session)
    ensures FlushTasks(json, s).s.b.nextIndex == s.b.nextIndex
  {
    DrainIndex(json, s.b, s.b.tools.keys);
    DrainedKeys(json, s.b, s.b.tools.keys);
    var d := DrainTasks(json, s.b, s.b.tools.keys);
    if !d.raised {
      EmitResultsIndex(d.b, d.results);
    }
  }

  /** They go to open tool blocks. */
  lemma FlushesGood(json: Json, s: Session, es: seq<Event>)
    requires Sound(json, s, es)
    ensures var turn := Flushes(json, s);
            Good(turn.s.b, es + turn.events) && turn.s.b.nextIndex == s.b.nextIndex
  {
    var aliases := FlushAliases(json, s, s.aliasBuffers.keys);
    FlushAliasesSound(json, s, es, s.aliasBuffers.keys);
    FlushAliasesIndex(json, s, s.aliasBuffers.keys);
    FlushTasksSound(json, aliases.s, es + aliases.events);
    FlushTasksIndex(json, aliases.s);
    ConcatAssoc(es, aliases.events, FlushTasks(json, aliases.s).events);
  }

  lemma FinishContentSound(json: Json, thinking: bool, s: Session, es: seq<Event>, a: Attempt)
    requires Sound(json, s, es) && a.Opened?
    ensures var content := FinishContent(json, thinking, s.b, a);
            Sound(json, s.(b := content.b), es + content.events) && content.b.nextIndex > 0
  {
    FinishContentGood(json, thinking, s.b, es, a);
    SamePending(json, s, FinishContent(json, thinking, s.b, a).b);
  }

  lemma FlushedGood(json: Json, thinking: bool, s: Session, es: seq<Event>, a: Attempt)
    requires Sound(json, s, es) && a.Opened?
    ensures var turn := Flushed(json, thinking, s, a);
            Good(turn.s.b, es + turn.events) && turn.s.b.nextIndex > 0
  {
    var content := FinishContent(json, thinking, s.b, a);
    FinishContentSound(json, thinking, s, es, a);
    FlushesGood(json, s.(b := content.b), es + content.events);
    ConcatAssoc(es, content.events, Flushes(json, s.(b := content.b)).events);
  }

  lemma CompletionCloses(json: Json, thinking: bool, s: Session, es: seq<Event>, a: Attempt)
    requires Sound(json, s, es) && a.Opened?
    ensures Done(Run(Fresh, es + CompletionBlocks(json, thinking, s, a)))
    ensures OnlyBlocks(es + CompletionBlocks(json, thinking, s, a))
  {
    var turn := Flushed(json, thinking, s, a);
    FlushedGood(json, thinking, s, es, a);
    CloseAllCloses(turn.s.b, es + turn.events);
    ClosedIsDone(Run(Fresh, es + turn.events + CloseAll(turn.s.b).events), turn.s.b.nextIndex);
    ConcatAssoc(es, turn.events, CloseAll(turn.s.b).events);
  }

  /** A stream that finishes is closed by its completion. */
  lemma CompletionContract(json: Json, thinking: bool, s: Session, es: seq<Event>, a: Attempt, finish: FinishReason)
    requires Sound(json, s, es) && a.Opened?
    ensures var out := [MessageStart] + (es + Completion(json, thinking, s, a, finish));
            Framed(out) && Contract(out, true)
  {
    CompletionCloses(json, thinking, s, es, a);
    var blocks := CompletionBlocks(json, thinking, s, a);
    var tail := [MessageDelta(Some(MapStopReason(finish))), MessageStop];
    ContinuedContract(es, blocks, tail);
  }

  // ----- the error tail -----

  /** The blocks of the error tail. */
  function ErrorBlocks(b: Blocks, message: string): seq<Event> {
    var closed := CloseAll(b);
    closed.events + if HasStartedTool(closed.b) then [] else EmitError(closed.b, message).events
  }

  function ErrorEnd(b: Blocks, message: string): seq<Event> {
    (if HasStartedTool(b) then [ErrorEvent(message)] else []) + [MessageDelta(Some(EndTurn)), MessageStop]
  }

  lemma ErrorTailParts(b: Blocks, message: string)
    ensures ErrorTail(b, message) == ErrorBlocks(b, message) + ErrorEnd(b, message)
    ensures IsTail(ErrorEnd(b, message))
  {
    assert HasStartedTool(CloseAll(b).b) <==> HasStartedTool(b);
  }

  /** The stream with an error tail, as blocks and a message-level end. */
  lemma ErrorTailWrapped(b: Blocks, es: seq<Event>, message: string)
    requires OnlyBlocks(es + ErrorBlocks(b, message))
    ensures var out := [MessageStart] + (es + ErrorTail(b, message));
            Framed(out) && (Contract(out, true) <==> Done(Run(Fresh, es + ErrorBlocks(b, message))))
  {
    ErrorTailParts(b, message);
    ContinuedContract(es, ErrorBlocks(b, message), ErrorEnd(b, message));
  }

  lemma ErrorBlocksAre(b: Blocks, es: seq<Event>, message: string)
    ensures var closed := CloseAll(b);
            es + ErrorBlocks(b, message) ==
            if HasStartedTool(closed.b) then es + closed.events
            else es + closed.events + EmitError(closed.b, message).events
  {
    var closed := CloseAll(b);
    if HasStartedTool(closed.b) {
      assert closed.events + [] == closed.events;
    } else {
      ConcatAssoc(es, closed.events, EmitError(closed.b, message).events);
    }
  }

  lemma ErrorBlocksClose(b: Blocks, es: seq<Event>, message: string)
    requires Good(b, es)
    ensures Done(Run(Fresh, es + ErrorBlocks(b, message))) && OnlyBlocks(es + ErrorBlocks(b, message))
  {
    var closed := CloseAll(b);
    var mid := es + closed.events;
    CloseAllCloses(b, es);
    ErrorBlocksAre(b, es, message);
    if HasStartedTool(closed.b) {
      GeneratedUsesIndex(b, es);
      ClosedIsDone(Run(Fresh, mid), b.nextIndex);
    } else {
      EmitErrorCloses(closed.b, mid, message);
      ClosedIsDone(Run(Fresh, mid + EmitError(closed.b, message).events), b.nextIndex + 1);
    }
  }

  /** An error tail after any point of a stream closes it. */
  lemma ErrorTailContract(b: Blocks, es: seq<Event>, message: string)
    requires Good(b, es)
    ensures var out := [MessageStart] + (es + ErrorTail(b, message));
            Framed(out) && Contract(out, true)
  {
    ErrorBlocksClose(b, es, message);
    ErrorTailWrapped(b, es, message);
  }

  // ----- recovery -----

  /** Two states that close alike: they differ in accumulated texts only. */
  ghost predicate SameShape(b: Blocks, b': Blocks) {
    && b'.(tools := b.tools, text := b.text, reasoning := b.reasoning) == b
    && b'.tools.keys == b.tools.keys && b'.tools.at.Keys == b.tools.at.Keys
    && forall t :: t in b.tools.at ==>
         b'.tools.at[t].started == b.tools.at[t].started && b'.tools.at[t].blockIndex == b.tools.at[t].blockIndex
  }

  lemma {:induction false} SameToolStops(b: Blocks, b': Blocks, order: seq<int>)
    requires SameShape(b, b')
    ensures ToolStops(b'.tools, order) == ToolStops(b.tools, order)
  {
    if order != [] {
      SameToolStops(b, b', order[1..]);
    }
  }

  lemma SameErrorTail(b: Blocks, b': Blocks, message: string)
    requires SameShape(b, b')
    ensures ErrorTail(b', message) == ErrorTail(b, message)
  {
    SameToolStops(b, b', b.tools.keys);
    assert CloseAll(b').events == CloseAll(b).events;
    assert HasStartedTool(CloseAll(b').b) <==> HasStartedTool(CloseAll(b).b) by {
      if t :| t in b.tools.at && b.tools.at[t].started {
        assert b'.tools.at[t].started;
      }
      if t :| t in b'.tools.at && b'.tools.at[t].started {
        assert b.tools.at[t].started;
      }
    }
  }

  lemma EmitToolShape(b: Blocks, t: int, text: string)
    requires t in b.tools.at
    ensures SameShape(b, EmitTool(b, t, text).b)
  {
  }

  /** Repair adds to the tools' texts and to nothing else. */
  lemma {:induction false} RepairToolsShape(json: Json, s: Session, order: seq<int>, repairs: RepairAnswers)
    ensures SameShape(s.b, RepairTools(json, s, order, repairs).b)
    decreases |order|
  {
    if order != [] {
      RepairToolsShape(json, s, order[1..], repairs);
      if Live(s.b, order[0]) && RepairTool(json, s, order[0], repairs).Some? {
        var first := RepairTool(json, s, order[0], repairs).value;
        if first.events != [] {
          EmitToolShape(s.b, order[0], first.events[0].delta.partialJson);
        }
        RepairToolsShape(json, s.(b := first.b), order[1..], repairs);
      }
    }
  }

  lemma RepairToolGood(json: Json, s: Session, es: seq<Event>, t: int, repairs: RepairAnswers)
    requires Good(s.b, es) && Live(s.b, t) && RepairTool(json, s, t, repairs).Some?
    ensures var out := RepairTool(json, s, t, repairs).value; Good(out.b, es + out.events)
  {
    var out := RepairTool(json, s, t, repairs).value;
    if out.events == [] {
      assert es + [] == es;
    } else {
      var text := out.events[0].delta.partialJson;
      assert out == EmitTool(s.b, t, text);
      EmitToolGood(s.b, es, t, text);
    }
  }

  lemma {:induction false} RepairToolsGood(json: Json, s: Session, es: seq<Event>, order: seq<int>, repairs: RepairAnswers)
    requires Good(s.b, es) && RepairTools(json, s, order, repairs).ok
    ensures var r := RepairTools(json, s, order, repairs);
            Good(r.b, es + r.events) && AllStartedComplete(json, r.b)
    decreases |order|
  {
    if order == [] {
      assert es + [] == es;
    } else if !Live(s.b, order[0]) {
      RepairToolsGood(json, s, es, order[1..], repairs);
    } else {
      RepairToolGood(json, s, es, order[0], repairs);
      var first := RepairTool(json, s, order[0], repairs).value;
      RepairToolsGood(json, s.(b := first.b), es + first.events, order[1..], repairs);
      ConcatAssoc(es, first.events, RepairTools(json, s.(b := first.b), order[1..], repairs).events);
    }
  }

  lemma ToolRepairsGood(json: Json, s: Session, es: seq<Event>, answers: Answers)
    requires Good(s.b, es) && ToolRepairs(json, s, answers).ok
    ensures var r := ToolRepairs(json, s, answers);
            Good(r.b, es + r.events) && AllStartedComplete(json, r.b)
  {
    if AllStartedComplete(json, s.b) {
      assert es + [] == es;
    } else {
      RepairToolsGood(json, s, es, s.b.tools.keys, answers.repairs);
    }
  }

  lemma ToolRepairsShape(json: Json, s: Session, answers: Answers)
    ensures SameShape(s.b, ToolRepairs(json, s, answers).b)
  {
    RepairToolsShape(json, s, s.b.tools.keys, answers.repairs);
  }

  lemma ContinueGood(b: Blocks, es: seq<Event>, text: string, thinking: string)
    requires Good(b, es)
    ensures Good(Continue(b, text, thinking).b, es + Continue(b, text, thinking).events)
  {
    var newThought, newText := Continued(b.reasoning, thinking), Continued(b.text, text);
    var thought := if newThought != "" then SayThinking(b, newThought) else Out(b, []);
    assert es + [] == es;
    if newThought != "" {
      SayThinkingGood(b, es, newThought);
    }
    var mid := es + thought.events;
    assert mid + [] == mid;
    var said := if newText != "" then SayText(thought.b, newText) else Out(thought.b, []);
    if newText != "" {
      SayTextGood(thought.b, mid, newText);
    }
    ConcatAssoc(es, thought.events, said.events);
    assert Continue(b, text, thinking) == Then(thought, said);
  }

  /** A successful recovery closes the stream. */
  lemma CloseRecoveryContract(b: Blocks, es: seq<Event>, events: seq<Event>, reason: StopReason, answers: Answers)
    requires Good(b, es + events) && b.nextIndex > 0 && answers.estimate.Some?
    ensures var out := [MessageStart] + (es + CloseRecovery(b, events, reason, answers).events);
            Framed(out) && Contract(out, true)
  {
    var blocks := events + CloseAll(b).events;
    ConcatAssoc(es, events, CloseAll(b).events);
    CloseAllCloses(b, es + events);
    ClosedIsDone(Run(Fresh, es + blocks), b.nextIndex);
    ContinuedContract(es, blocks, [MessageDelta(Some(reason)), MessageStop]);
  }

  /** `Recover` splits into the two ways it can go. */
  lemma RecoveredContract(json: Json, s: Session, es: seq<Event>, answers: Answers)
    requires Good(s.b, es) && GeneratedOutput(s.b) && Recover(json, s, answers).Recovered?
    ensures var out := [MessageStart] + (es + Recover(json, s, answers).events);
            Framed(out) && Contract(out, true)
  {
    GeneratedUsesIndex(s.b, es);
    if HasStartedTool(s.b) {
      var repairs := ToolRepairs(json, s, answers);
      ToolRepairsGood(json, s, es, answers);
      ToolRepairsShape(json, s, answers);
      CloseRecoveryContract(repairs.b, es, repairs.events, ToolUse, answers);
    } else {
      var (text, thinking) := answers.continuation.value;
      var continued := Continue(s.b, text, thinking);
      ContinueGood(s.b, es, text, thinking);
      assert continued.b.nextIndex >= s.b.nextIndex;
      CloseRecoveryContract(continued.b, es, continued.events, EndTurn, answers);
    }
  }

  /** A recovery that gives up leaves a state that closes as the one it started from. */
  lemma DeclinedShape(json: Json, s: Session, answers: Answers)
    requires Recover(json, s, answers).Declined?
    ensures SameShape(s.b, Recover(json, s, answers).b)
  {
    if HasStartedTool(s.b) {
      ToolRepairsShape(json, s, answers);
    }
  }

  // ----- a token estimate that raises -----

  lemma {:induction false} StaysOpen(c: Check, es: seq<Event>, i: int)
    requires i in c.open && BlockStop(i) !in es
    ensures i in Run(c, es).open
  {
    if es != [] {
      StaysOpen(c, es[..|es| - 1], i);
    }
  }

  lemma ToolStopsMiss(tools: Dict<int, ToolCallState>, order: seq<int>, i: int)
    requires forall t :: t in tools.at && tools.at[t].started ==> tools.at[t].blockIndex != i
    ensures BlockStop(i) !in ToolStops(tools, order)
  {
  }

  /** The text or thinking block that is open at the failure. */
  function OpenContent(b: Blocks): int {
    if b.textStarted then b.textIndex else b.thinkingIndex
  }

  lemma OpenContentIsNoTools(b: Blocks, es: seq<Event>, b': Blocks)
    requires Good(b, es) && (b.textStarted || b.thinkingStarted) && SameToolBlocks(b, b')
    ensures OpenContent(b) in Run(Fresh, es).open && 0 <= OpenContent(b) < b.nextIndex
    ensures forall t :: t in b'.tools.at && b'.tools.at[t].started ==> b'.tools.at[t].blockIndex != OpenContent(b)
  {
    assert forall t :: t in b.tools.at && b.tools.at[t].started ==> Live(b, t);
  }

  lemma ForgottenInBlocks(b: Blocks, i: int, message: string)
    requires !b.textStarted && !b.thinkingStarted && i < b.nextIndex
    requires forall t :: t in b.tools.at && b.tools.at[t].started ==> b.tools.at[t].blockIndex != i
    ensures BlockStop(i) !in ErrorBlocks(b, message) && OnlyBlocks(ErrorBlocks(b, message))
  {
    ToolStopsMiss(b.tools, b.tools.keys, i);
    ToolStopsOnlyBlocks(b.tools, b.tools.keys);
  }

  /** An error tail that forgets block `i` leaves it open. */
  lemma ForgottenBlock(es: seq<Event>, b: Blocks, i: int, message: string)
    requires OnlyBlocks(es) && i in Run(Fresh, es).open && i < b.nextIndex
    requires !b.textStarted && !b.thinkingStarted
    requires forall t :: t in b.tools.at && b.tools.at[t].started ==> b.tools.at[t].blockIndex != i
    ensures Framed([MessageStart] + (es + ErrorTail(b, message)))
    ensures !Contract([MessageStart] + (es + ErrorTail(b, message)), true)
  {
    var blocks := ErrorBlocks(b, message);
    ForgottenInBlocks(b, i, message);
    StaysOpen(Run(Fresh, es), blocks, i);
    RunConcat(Fresh, es, blocks);
    ErrorTailWrapped(b, es, message);
  }

  lemma ContinueShape(b: Blocks, text: string, thinking: string)
    ensures Continue(b, text, thinking).b.tools == b.tools && Continue(b, text, thinking).b.nextIndex >= b.nextIndex
  {
  }

  /** The blocks `b'` close the same tools as `b`. */
  ghost predicate SameToolBlocks(b: Blocks, b': Blocks) {
    && b'.tools.at.Keys == b.tools.at.Keys
    && forall t :: t in b.tools.at ==> b'.tools.at[t].started == b.tools.at[t].started &&
                                       b'.tools.at[t].blockIndex == b.tools.at[t].blockIndex
  }

  lemma CrashedTools(json: Json, s: Session, answers: Answers)
    requires RecoverTools(json, s, answers).Crashed? && HasStartedTool(s.b)
    ensures var b' := RecoverTools(json, s, answers).b;
            && !b'.textStarted && !b'.thinkingStarted && s.b.nextIndex <= b'.nextIndex
            && SameToolBlocks(s.b, b')
            && (!s.b.textStarted && !s.b.thinkingStarted ==> SameShape(s.b, b'))
  {
    ToolRepairsShape(json, s, answers);
  }

  /** A crashed recovery has forgotten the content block it closed, and knows the tools as before. */
  lemma CrashedState(json: Json, s: Session, answers: Answers)
    requires Recover(json, s, answers).Crashed?
    ensures var b' := Recover(json, s, answers).b;
            && !b'.textStarted && !b'.thinkingStarted && s.b.nextIndex <= b'.nextIndex
            && SameToolBlocks(s.b, b')
            && (HasStartedTool(s.b) && !s.b.textStarted && !s.b.thinkingStarted ==> SameShape(s.b, b'))
  {
    if HasStartedTool(s.b) {
      CrashedTools(json, s, answers);
    } else {
      ContinueShape(s.b, answers.continuation.value.0, answers.continuation.value.1);
    }
  }

  lemma FreshBlockDone(c: Check, i: int, message: string)
    requires c.ok && c.open == map[] && i !in c.seen
    ensures Done(Run(c, [BlockStart(i, TextBlock("")), BlockDelta(i, TextDelta(message)), BlockStop(i)]))
  {
    var start, delta, stop := BlockStart(i, TextBlock("")), BlockDelta(i, TextDelta(message)), BlockStop(i);
    RunThree(c, start, delta, stop);
    assert Step(Step(Step(c, start), delta), stop).open == map[];
    assert i in Step(Step(Step(c, start), delta), stop).seen;
  }

  /** With nothing open and no tool started, an error block alone closes the stream. */
  lemma LoneErrorContract(es: seq<Event>, b: Blocks, message: string)
    requires OnlyBlocks(es) && Run(Fresh, es).ok && Run(Fresh, es).open == map[]
    requires forall i :: i in Run(Fresh, es).seen ==> i < b.nextIndex
    requires !b.textStarted && !b.thinkingStarted && !HasStartedTool(b)
    ensures var out := [MessageStart] + (es + ErrorTail(b, message)); Framed(out) && Contract(out, true)
  {
    ToolStopsNone(b.tools, b.tools.keys);
    assert ErrorBlocks(b, message) == EmitError(b, message).events;
    FreshBlockDone(Run(Fresh, es), b.nextIndex, message);
    RunConcat(Fresh, es, EmitError(b, message).events);
    ErrorTailWrapped(b, es, message);
  }

  lemma ToolStopsNone(tools: Dict<int, ToolCallState>, order: seq<int>)
    requires forall t :: t in tools.at ==> !tools.at[t].started
    ensures ToolStops(tools, order) == []
  {
  }

  lemma NothingOpen(b: Blocks, es: seq<Event>)
    requires Good(b, es) && !b.textStarted && !b.thinkingStarted && !HasStartedTool(b)
    ensures Run(Fresh, es).open == map[]
  {
    var c := Run(Fresh, es);
    assert forall t :: !Live(b, t);
    assert forall i :: !Owned(b, i);
    assert forall i :: i !in c.open;
    assert c.open == map[];
  }

  /** After a crashed recovery the error tail closes the stream exactly when no text or thinking block
      was open at the failure. */
  lemma CrashedContract(json: Json, s: Session, es: seq<Event>, answers: Answers, message: string)
    requires Good(s.b, es) && Recover(json, s, answers).Crashed?
    ensures var out := [MessageStart] + (es + ErrorTail(Recover(json, s, answers).b, message));
            Framed(out) && (Contract(out, true) <==> !(s.b.textStarted || s.b.thinkingStarted))
  {
    var b' := Recover(json, s, answers).b;
    CrashedState(json, s, answers);
    if s.b.textStarted || s.b.thinkingStarted {
      OpenContentIsNoTools(s.b, es, b');
      ForgottenBlock(es, b', OpenContent(s.b), message);
    } else if HasStartedTool(s.b) {
      SameErrorTail(s.b, b', message);
      ErrorTailContract(s.b, es, message);
    } else {
      NothingOpen(s.b, es);
      LoneErrorContract(es, b', message);
    }
  }

  /** The estimate is what a crash comes from. */
  lemma CrashedIffEstimateRaises(json: Json, s: Session, answers: Answers)
    ensures Recover(json, s, answers).Crashed? <==>
            answers.estimate.None? && Recover(json, s, answers.(estimate := Some(0))).Recovered?
  {
    var answers' := answers.(estimate := Some(0));
    assert ToolRepairs(json, s, answers') == ToolRepairs(json, s, answers);
  }

  // ----- when a recovery succeeds -----

  /** What is shown of the tool's arguments, or buffered for it, is complete or is completed on request. */
  ghost predicate Repairable(json: Json, s: Session, t: int, repairs: RepairAnswers)
    requires t in s.b.tools.at
  {
    var prefix, name := RepairPrefix(s, t), s.b.tools.at[t].name;
    json.Complete(prefix, name) || RepairFound(json, prefix, name, t, repairs)
  }

  predicate ToolComplete(json: Json, b: Blocks, t: int)
    requires t in b.tools.at
  {
    json.Complete(b.tools.at[t].contents, b.tools.at[t].name)
  }

  lemma RepairToolWhen(json: Json, s: Session, t: int, repairs: RepairAnswers)
    requires t in s.b.tools.at
    ensures RepairTool(json, s, t, repairs).Some? <==> Repairable(json, s, t, repairs)
  {
    RepairIsFound(json, RepairPrefix(s, t), s.b.tools.at[t].name, t, repairs);
  }

  lemma RepairToolCompletes(json: Json, s: Session, t: int, repairs: RepairAnswers)
    requires t in s.b.tools.at && RepairTool(json, s, t, repairs).Some?
    ensures var b' := RepairTool(json, s, t, repairs).value.b;
            && b'.tools.at.Keys == s.b.tools.at.Keys && ToolComplete(json, b', t)
            && b'.tools.at[t].name == s.b.tools.at[t].name && b'.tools.at[t].started == s.b.tools.at[t].started
            && forall u :: u in s.b.tools.at && u != t ==> b'.tools.at[u] == s.b.tools.at[u]
  {
    var state, prefix := s.b.tools.at[t], RepairPrefix(s, t);
    assert "" + prefix == prefix;
    if !json.Complete(prefix, state.name) {
      TryRepairCompletes(json, prefix, state.name, t, repairs, 0);
      var suffix := TryRepair(json, prefix, state.name, t, repairs, 0).text;
      assert "" + (prefix + suffix) == prefix + suffix;
      assert state.contents + "" == state.contents;
    }
  }

  /** The repairs succeed when each live tool of `order` can be repaired, and the others are complete. */
  ghost predicate AllRepairable(json: Json, s: Session, order: seq<int>, repairs: RepairAnswers) {
    && (forall t :: t in order && Live(s.b, t) ==> Repairable(json, s, t, repairs))
    && (forall t :: Live(s.b, t) && t !in order ==> ToolComplete(json, s.b, t))
  }

  lemma AllRepairableStep(json: Json, s: Session, b': Blocks, t: int, rest: seq<int>, repairs: RepairAnswers)
    requires Live(s.b, t) && t !in rest && Repairable(json, s, t, repairs)
    requires b'.tools.at.Keys == s.b.tools.at.Keys && ToolComplete(json, b', t) && b'.tools.at[t].started
    requires forall u :: u in s.b.tools.at && u != t ==> b'.tools.at[u] == s.b.tools.at[u]
    ensures AllRepairable(json, s.(b := b'), rest, repairs) <==> AllRepairable(json, s, [t] + rest, repairs)
  {
    var s' := s.(b := b');
    assert forall u :: u in [t] + rest <==> u == t || u in rest;
    assert forall u :: Live(b', u) <==> Live(s.b, u);
    forall u | Live(s.b, u) && u != t
      ensures Repairable(json, s', u, repairs) <==> Repairable(json, s, u, repairs)
      ensures ToolComplete(json, b', u) <==> ToolComplete(json, s.b, u)
    {
    }
  }

  lemma {:induction false} RepairToolsWhen(json: Json, s: Session, order: seq<int>, repairs: RepairAnswers)
    requires Distinct(order) && HasStartedTool(s.b)
    ensures RepairTools(json, s, order, repairs).ok <==> AllRepairable(json, s, order, repairs)
    decreases |order|
  {
    if order == [] {
      assert forall t :: t in s.b.tools.at && s.b.tools.at[t].started <==> Live(s.b, t);
    } else {
      var t, rest := order[0], order[1..];
      assert order == [t] + rest && t !in rest && Distinct(rest);
      if !Live(s.b, t) {
        assert forall u :: Live(s.b, u) ==> (u in order <==> u in rest);
        RepairToolsWhen(json, s, rest, repairs);
      } else {
        RepairToolWhen(json, s, t, repairs);
        if RepairTool(json, s, t, repairs).Some? {
          var b' := RepairTool(json, s, t, repairs).value.b;
          RepairToolCompletes(json, s, t, repairs);
          AllRepairableStep(json, s, b', t, rest, repairs);
          assert b'.tools.at[t].started;
          RepairToolsWhen(json, s.(b := b'), rest, repairs);
        } else {
          assert t in order;
        }
      }
    }
  }

  /** The recovery succeeds, the token estimate apart: every started tool is complete, or each can be
      repaired; or, without tools, something was shown, the provider goes on, and says something new. */
  ghost predicate Recovers(json: Json, s: Session, answers: Answers) {
    if HasStartedTool(s.b) then
      AllStartedComplete(json, s.b) || forall t :: Live(s.b, t) ==> Repairable(json, s, t, answers.repairs)
    else
      && (s.b.text != "" || s.b.reasoning != "") && answers.continuation.Some?
      && (Continued(s.b.text, answers.continuation.value.0) != "" || Continued(s.b.reasoning, answers.continuation.value.1) != "")
  }

  lemma RecoversWhen(json: Json, s: Session, answers: Answers)
    requires s.b.tools.Valid()
    ensures Recover(json, s, answers).Recovered? <==> answers.estimate.Some? && Recovers(json, s, answers)
  {
    if HasStartedTool(s.b) {
      var order := s.b.tools.keys;
      RepairToolsWhen(json, s, order, answers.repairs);
      assert forall t :: Live(s.b, t) ==> t in order;
    }
  }

  lemma RecoveryContract(json: Json, s: Session, es: seq<Event>, answers: Answers, message: string)
    requires Good(s.b, es) && GeneratedOutput(s.b)
    ensures var out := [MessageStart] + (es + FailureTail(json, s, true, answers, message));
            Framed(out) &&
            (Contract(out, true) <==> !(Recover(json, s, answers).Crashed? && (s.b.textStarted || s.b.thinkingStarted)))
  {
    match Recover(json, s, answers)
    case Recovered(_, _) =>
      RecoveredContract(json, s, es, answers);
    case Declined(b) =>
      DeclinedShape(json, s, answers);
      SameErrorTail(s.b, b, message);
      ErrorTailContract(s.b, es, message);
    case Crashed(b) =>
      CrashedContract(json, s, es, answers, message);
  }

  /** The recovery succeeds but for the token estimate, which raises, and a text or thinking block is
      open. */
  ghost predicate ForgetsOpenBlock(json: Json, s: Session, retryable: bool, answers: Answers) {
    && GeneratedOutput(s.b) && retryable
    && (s.b.textStarted || s.b.thinkingStarted)
    && answers.estimate.None? && Recovers(json, s, answers)
  }

  /** A failed attempt that is not retried: the one way its stream can break the contract. */
  lemma FailureContract(json: Json, s: Session, es: seq<Event>, retryable: bool, answers: Answers, message: string)
    requires Good(s.b, es)
    ensures var out := [MessageStart] + (es + FailureTail(json, s, retryable, answers, message));
            Framed(out) && (Contract(out, true) <==> !ForgetsOpenBlock(json, s, retryable, answers))
  {
    if GeneratedOutput(s.b) && retryable {
      RecoveryContract(json, s, es, answers, message);
      CrashedIffEstimateRaises(json, s, answers);
      RecoversWhen(json, s, answers.(estimate := Some(0)));
    } else {
      ErrorTailContract(s.b, es, message);
    }
  }

  /** Whether the last attempt ends that way. */
  ghost predicate AttemptForgetsBlock(json: Json, thinking: bool, a: Attempt, answers: Answers) {
    match AttemptOutcome(json, thinking, a)
    case Finished(_) => false
    case Failed(retryable) => ForgetsOpenBlock(json, AttemptTurn(json, thinking, a).s, retryable, answers)
  }

  /** Every run: one message_start, first; one message_stop, last; and the full block contract, error
      events allowed, except exactly when a recovery dies in the token estimate with a text or thinking
      block open. */
  lemma AttemptOutputContract(json: Json, thinking: bool, a: Attempt, answers: Answers, message: string)
    ensures var out := [MessageStart] + AttemptOutput(json, thinking, a, answers, message);
            Framed(out) && (Contract(out, true) <==> !AttemptForgetsBlock(json, thinking, a, answers))
  {
    var turn := AttemptTurn(json, thinking, a);
    AttemptSound(json, thinking, a);
    match AttemptOutcome(json, thinking, a)
    case Finished(finish) =>
      CompletionContract(json, thinking, turn.s, turn.events, a, finish);
    case Failed(retryable) =>
      FailureContract(json, turn.s, turn.events, retryable, answers, message);
  }

  // ----- the one way to break it happens -----

  /** An attempt that says some text and is cut. */
  function CutText(text: string): Attempt {
    Opened([Chunk(None, "", [TextPart(text, [])], [])], Broke(true), NoLeftover, [])
  }

  lemma CutTextTurn(json: Json, text: string)
    requires text != ""
    ensures AttemptTurn(json, false, CutText(text)) ==
            Turn(NewSession.(b := SayText(NewBlocks, text).b), SayText(NewBlocks, text).events, false)
    ensures AttemptOutcome(json, false, CutText(text)) == Failed(true)
  {
    var chunk := CutText(text).chunks[0];
    var said := SayText(NewBlocks, text);
    assert chunk.parts[1..] == [] && CutText(text).chunks[1..] == [];
    assert ProcessTools(json, said.b, []) == Out(said.b, []);
    assert said.events + [] == said.events && [] + said.events == said.events;
    assert ProcessParts(json, false, NewBlocks, chunk.parts) == said;
    assert ProcessContent(json, false, NewBlocks, chunk) == said;
    var after := NewSession.(b := said.b);
    assert ProcessToolCalls(json, after, []) == Turn(after, [], false);
    assert ProcessChunk(json, false, NewSession, chunk) == Turn(after, said.events, false);
    assert ProcessChunks(json, false, after, []) == Turn(after, [], false);
    assert ProcessChunks(json, false, NewSession, CutText(text).chunks) == Turn(after, said.events, false);
  }

  lemma SaidText(text: string)
    requires text != ""
    ensures var b := SayText(NewBlocks, text).b;
            b.textStarted && b.textIndex == 0 && b.text == text && b.reasoning == "" && b.tools == NewBlocks.tools
  {
    assert "" + text == text;
  }

  /** A text that is cut and continued, with a token estimate that raises: the client is left with a
      block that never stops. */
  lemma RaisingEstimateForgets(json: Json, text: string, more: string, answers: Answers, message: string)
    requires text != "" && more != "" && answers.continuation == Some((text + more, "")) && answers.estimate.None?
    ensures !Contract([MessageStart] + AttemptOutput(json, false, CutText(text), answers, message), true)
  {
    CutTextTurn(json, text);
    SaidText(text);
    var s := AttemptTurn(json, false, CutText(text)).s;
    assert Continued(text, text + more) == more;
    AttemptOutputContract(json, false, CutText(text), answers, message);
  }
}
