/** Content-block bookkeeping of the OpenAI-to-Anthropic stream (core/anthropic/sse.py):
    what each builder call does to the block state, and which events it yields. */
module BlockState {
  import opened OrderedDict
  import opened StreamContract
  import opened JsonTexts

  /** `contents` is the join of the emitted argument fragments. */
  datatype ToolCallState = ToolCallState(
    blockIndex: int, toolId: string, name: string, contents: string, started: bool,
    taskArgBuffer: string, taskArgsEmitted: bool, preStartArgs: string)

  const NewTool := ToolCallState(-1, "", "", "", false, "", false, "")

  /** `ContentBlockManager`, with the accumulated text and reasoning of `SSEBuilder`. */
  datatype Blocks = Blocks(
    nextIndex: nat, thinkingIndex: int, textIndex: int, thinkingStarted: bool, textStarted: bool,
    tools: Dict<int, ToolCallState>, text: string, reasoning: string)

  const NewBlocks := Blocks(0, -1, -1, false, false, Dict([], map[]), "", "")

  /** The state after a call and the events it yields. */
  datatype Out = Out(b: Blocks, events: seq<Event>)

  // ----- the calls -----

  function StopText(b: Blocks): Out {
    Out(b.(textStarted := false), [BlockStop(b.textIndex)])
  }

  function StopThinking(b: Blocks): Out {
    Out(b.(thinkingStarted := false), [BlockStop(b.thinkingIndex)])
  }

  function StartText(b: Blocks): Out {
    Out(b.(nextIndex := b.nextIndex + 1, textIndex := b.nextIndex, textStarted := true),
        [BlockStart(b.nextIndex, TextBlock(""))])
  }

  function StartThinking(b: Blocks): Out {
    Out(b.(nextIndex := b.nextIndex + 1, thinkingIndex := b.nextIndex, thinkingStarted := true),
        [BlockStart(b.nextIndex, ThinkingBlock(""))])
  }

  function EmitText(b: Blocks, s: string): Out {
    Out(b.(text := b.text + s), [BlockDelta(b.textIndex, TextDelta(s))])
  }

  function EmitThinking(b: Blocks, s: string): Out {
    Out(b.(reasoning := b.reasoning + s), [BlockDelta(b.thinkingIndex, ThinkingDelta(s))])
  }

  function Then(first: Out, second: Out): Out {
    Out(second.b, first.events + second.events)
  }

  function EnsureThinking(b: Blocks): Out {
    var stopped := if b.textStarted then StopText(b) else Out(b, []);
    if stopped.b.thinkingStarted then stopped else Then(stopped, StartThinking(stopped.b))
  }

  function EnsureText(b: Blocks): Out {
    var stopped := if b.thinkingStarted then StopThinking(b) else Out(b, []);
    if stopped.b.textStarted then stopped else Then(stopped, StartText(stopped.b))
  }

  /** `ensure_text_block()` followed by `emit_text_delta(s)`. */
  function SayText(b: Blocks, s: string): Out {
    var ready := EnsureText(b);
    Then(ready, EmitText(ready.b, s))
  }

  function SayThinking(b: Blocks, s: string): Out {
    var ready := EnsureThinking(b);
    Then(ready, EmitThinking(ready.b, s))
  }

  function CloseContent(b: Blocks): Out {
    var stopped := if b.thinkingStarted then StopThinking(b) else Out(b, []);
    if stopped.b.textStarted then Then(stopped, StopText(stopped.b)) else stopped
  }

  function SetTool(b: Blocks, t: int, state: ToolCallState): Blocks {
    b.(tools := b.tools.Put(t, state))
  }

  function StartTool(b: Blocks, t: int, toolId: string, name: string): Out {
    var state := if t in b.tools.at then b.tools.at[t] else NewTool.(name := name);
    Out(b.(nextIndex := b.nextIndex + 1,
           tools := b.tools.Put(t, state.(blockIndex := b.nextIndex, toolId := toolId, started := true))),
        [BlockStart(b.nextIndex, ToolUseBlock(toolId, name, "{}"))])
  }

  function EmitTool(b: Blocks, t: int, json: string): Out
    requires t in b.tools.at
  {
    var state := b.tools.at[t];
    Out(b.(tools := b.tools.Put(t, state.(contents := state.contents + json))),
        [BlockDelta(state.blockIndex, InputJsonDelta(json))])
  }

  /** The stops of the started tools among `order`; tools stay marked as started. */
  function ToolStops(tools: Dict<int, ToolCallState>, order: seq<int>): seq<Event> {
    if order == [] then []
    else
      var t := order[0];
      (if t in tools.at && tools.at[t].started then [BlockStop(tools.at[t].blockIndex)] else [])
      + ToolStops(tools, order[1..])
  }

  function CloseAll(b: Blocks): Out {
    var closed := CloseContent(b);
    Out(closed.b, closed.events + ToolStops(closed.b.tools, closed.b.tools.keys))
  }

  function EmitError(b: Blocks, message: string): Out {
    Out(b.(nextIndex := b.nextIndex + 1),
        [BlockStart(b.nextIndex, TextBlock("")), BlockDelta(b.nextIndex, TextDelta(message)), BlockStop(b.nextIndex)])
  }

  /** A tool call found in plain text; `input` is its argument JSON. */
  datatype HeuristicTool = HeuristicTool(id: string, name: string, input: string)

  /** The arguments it is sent with: a Task runs in the foreground. */
  function FoundInput(json: Json, tool: HeuristicTool): string {
    if tool.name == "Task" && json.parse(tool.input).Object? then json.foreground(tool.input) else tool.input
  }

  /** `_iter_heuristic_tool_use_sse`: one whole block, not tracked as a tool state. */
  function EmitHeuristic(json: Json, b: Blocks, tool: HeuristicTool): Out {
    var closed := CloseContent(b);
    Then(closed, Out(closed.b.(nextIndex := closed.b.nextIndex + 1), FoundBlock(json, closed.b.nextIndex, tool)))
  }

  function FoundBlock(json: Json, i: int, tool: HeuristicTool): seq<Event> {
    [BlockStart(i, ToolUseBlock(tool.id, tool.name, "{}")),
     BlockDelta(i, InputJsonDelta(FoundInput(json, tool))), BlockStop(i)]
  }

  /** `has_emitted_tool_block()`. */
  predicate HasStartedTool(b: Blocks) {
    exists t :: t in b.tools.at && b.tools.at[t].started
  }

  // ----- what the client has seen -----

  function JsonIn(e: Event, index: int): string {
    if e.BlockDelta? && e.index == index && e.delta.InputJsonDelta? then e.delta.partialJson else ""
  }

  function TextIn(e: Event): string {
    if e.BlockDelta? && e.delta.TextDelta? then e.delta.text else ""
  }

  function ThinkingIn(e: Event): string {
    if e.BlockDelta? && e.delta.ThinkingDelta? then e.delta.thinking else ""
  }

  /** All `partial_json` shown for one block, joined. */
  function ShownJson(es: seq<Event>, index: int): string {
    if es == [] then "" else ShownJson(es[..|es| - 1], index) + JsonIn(es[|es| - 1], index)
  }

  function ShownText(es: seq<Event>): string {
    if es == [] then "" else ShownText(es[..|es| - 1]) + TextIn(es[|es| - 1])
  }

  function ShownThinking(es: seq<Event>): string {
    if es == [] then "" else ShownThinking(es[..|es| - 1]) + ThinkingIn(es[|es| - 1])
  }

  lemma ShownSnoc(es: seq<Event>, e: Event)
    ensures forall i :: ShownJson(es + [e], i) == ShownJson(es, i) + JsonIn(e, i)
    ensures ShownText(es + [e]) == ShownText(es) + TextIn(e)
    ensures ShownThinking(es + [e]) == ShownThinking(es) + ThinkingIn(e)
  {
    assert (es + [e])[..|es + [e]| - 1] == es;
  }

  lemma ShownTextSnoc(es: seq<Event>, e: Event)
    ensures ShownText(es + [e]) == ShownText(es) + TextIn(e)
    ensures ShownThinking(es + [e]) == ShownThinking(es) + ThinkingIn(e)
  {
    assert (es + [e])[..|es + [e]| - 1] == es;
  }

  lemma ShownSnocAt(es: seq<Event>, e: Event, i: int)
    ensures ShownJson(es + [e], i) == ShownJson(es, i) + JsonIn(e, i)
  {
    assert (es + [e])[..|es + [e]| - 1] == es;
  }

  // ----- the invariant tying the state to the events -----

  predicate Live(b: Blocks, t: int) {
    t in b.tools.at && b.tools.at[t].started
  }

  /** Open block `i` is the current text block, the current thinking block, or a started tool's. */
  ghost predicate Owned(b: Blocks, i: int) {
    || (b.thinkingStarted && i == b.thinkingIndex)
    || (b.textStarted && i == b.textIndex)
    || exists t :: Live(b, t) && b.tools.at[t].blockIndex == i
  }

  /** The tool's own bookkeeping: arguments are buffered before the block starts, never after, and
      Task arguments only once it has started. */
  predicate ToolTidy(s: ToolCallState) {
    if s.started then s.preStartArgs == "" && (s.taskArgsEmitted ==> s.taskArgBuffer == "")
    else s.contents == "" && s.taskArgBuffer == "" && !s.taskArgsEmitted
  }

  ghost predicate OpenBlocks(b: Blocks, open: map<int, Storage>) {
    && (b.thinkingStarted ==> b.thinkingIndex in open && open[b.thinkingIndex] == ThinkingStream)
    && (b.textStarted ==> b.textIndex in open && open[b.textIndex] == TextStream)
    && (forall t :: Live(b, t) ==> b.tools.at[t].blockIndex in open && open[b.tools.at[t].blockIndex] == ToolStream)
    && (forall t, u :: Live(b, t) && Live(b, u) && t != u ==> b.tools.at[t].blockIndex != b.tools.at[u].blockIndex)
    && (forall i :: i in open ==> Owned(b, i))
  }

  /** The block state and the contract checker's state agree. */
  ghost predicate Tracks(b: Blocks, c: Check) {
    && c.ok
    && c.open.Keys <= c.seen
    && (forall i :: i in c.seen <==> 0 <= i < b.nextIndex)
    && -1 <= b.textIndex < b.nextIndex && -1 <= b.thinkingIndex < b.nextIndex
    && OpenBlocks(b, c.open)
  }

  /** The accumulators hold what the client has been shown. */
  ghost predicate Records(b: Blocks, es: seq<Event>) {
    && (forall t :: Live(b, t) ==> ShownJson(es, b.tools.at[t].blockIndex) == b.tools.at[t].contents)
    && (forall i :: b.nextIndex <= i ==> ShownJson(es, i) == "")
    && ShownText(es) == b.text
    && ShownThinking(es) == b.reasoning
    && OnlyBlocks(es)
  }

  predicate IsBlockEvent(e: Event) {
    e.BlockStart? || e.BlockDelta? || e.BlockStop?
  }

  predicate OnlyBlocks(es: seq<Event>) {
    forall e :: e in es ==> IsBlockEvent(e)
  }

  ghost predicate Tidy(b: Blocks) {
    b.tools.Valid() && forall t :: t in b.tools.at ==> ToolTidy(b.tools.at[t])
  }

  /** The events `es` yielded so far and the block state agree. */
  ghost predicate Good(b: Blocks, es: seq<Event>) {
    Tracks(b, Run(Fresh, es)) && Records(b, es) && Tidy(b)
  }

  lemma NewGood()
    ensures Good(NewBlocks, [])
  {
  }

  // ----- one event at a time -----

  lemma StopTextTracks(b: Blocks, c: Check)
    requires Tracks(b, c) && b.textStarted
    ensures Tracks(StopText(b).b, Step(c, BlockStop(b.textIndex)))
  {
    var b' := StopText(b).b;
    assert forall t :: Live(b', t) <==> Live(b, t);
    forall i | i in c.open && i != b.textIndex ensures Owned(b', i) {
      assert Owned(b, i);
    }
  }

  lemma StopThinkingTracks(b: Blocks, c: Check)
    requires Tracks(b, c) && b.thinkingStarted
    ensures Tracks(StopThinking(b).b, Step(c, BlockStop(b.thinkingIndex)))
  {
    var b' := StopThinking(b).b;
    assert forall t :: Live(b', t) <==> Live(b, t);
    forall i | i in c.open && i != b.thinkingIndex ensures Owned(b', i) {
      assert Owned(b, i);
    }
  }

  lemma StartTextTracks(b: Blocks, c: Check)
    requires Tracks(b, c) && !b.textStarted
    ensures Tracks(StartText(b).b, Step(c, BlockStart(b.nextIndex, TextBlock(""))))
  {
    var b' := StartText(b).b;
    assert forall t :: Live(b', t) <==> Live(b, t);
    forall i | i in c.open ensures Owned(b', i) {
      assert Owned(b, i);
    }
  }

  lemma StartThinkingTracks(b: Blocks, c: Check)
    requires Tracks(b, c) && !b.thinkingStarted
    ensures Tracks(StartThinking(b).b, Step(c, BlockStart(b.nextIndex, ThinkingBlock(""))))
  {
    var b' := StartThinking(b).b;
    assert forall t :: Live(b', t) <==> Live(b, t);
    forall i | i in c.open ensures Owned(b', i) {
      assert Owned(b, i);
    }
  }

  /** A block opened and closed again with the same fresh index changes nothing else. */
  lemma WholeBlockTracks(b: Blocks, c: Check, block: ContentBlock, delta: Delta)
    requires Tracks(b, c)
    requires AllowedStart(block) && Accepts(StorageOf(block), delta)
    ensures Tracks(b.(nextIndex := b.nextIndex + 1),
                   Step(Step(Step(c, BlockStart(b.nextIndex, block)), BlockDelta(b.nextIndex, delta)), BlockStop(b.nextIndex)))
  {
    var b' := b.(nextIndex := b.nextIndex + 1);
    assert forall t :: Live(b', t) <==> Live(b, t);
    assert b.nextIndex !in c.open;
    forall i | i in c.open ensures Owned(b', i) {
      assert Owned(b, i);
    }
  }

  lemma StartToolTracks(b: Blocks, c: Check, t: int, id: string, name: string)
    requires Tracks(b, c) && !Live(b, t)
    ensures Tracks(StartTool(b, t, id, name).b, Step(c, BlockStart(b.nextIndex, ToolUseBlock(id, name, "{}"))))
  {
    assert forall i :: i in c.open ==> i < b.nextIndex;
    StartToolOpens(b, c.open, t, id, name);
  }

  lemma StartToolOpens(b: Blocks, open: map<int, Storage>, t: int, id: string, name: string)
    requires OpenBlocks(b, open) && !Live(b, t)
    requires forall i :: i in open ==> i < b.nextIndex
    ensures OpenBlocks(StartTool(b, t, id, name).b, open[b.nextIndex := ToolStream])
  {
    var b' := StartTool(b, t, id, name).b;
    assert forall u :: Live(b', u) <==> Live(b, u) || u == t;
    assert forall u :: Live(b, u) ==> b'.tools.at[u] == b.tools.at[u];
    assert Live(b', t) && b'.tools.at[t].blockIndex == b.nextIndex;
    forall i | i in open ensures Owned(b', i) {
      assert Owned(b, i);
      if u :| Live(b, u) && b.tools.at[u].blockIndex == i {
        assert Live(b', u);
      }
    }
  }

  /** Changing a tool's texts, not its block, keeps the block state right. */
  lemma PutTracks(b: Blocks, c: Check, t: int, state: ToolCallState)
    requires Tracks(b, c)
    requires if t in b.tools.at then state.started == b.tools.at[t].started && state.blockIndex == b.tools.at[t].blockIndex
             else !state.started
    ensures Tracks(b.(tools := b.tools.Put(t, state)), c)
  {
    var b' := b.(tools := b.tools.Put(t, state));
    assert forall u :: Live(b', u) <==> Live(b, u);
    assert forall u :: Live(b, u) ==> b'.tools.at[u].blockIndex == b.tools.at[u].blockIndex;
    forall i | i in c.open ensures Owned(b', i) {
      assert Owned(b, i);
      if u :| Live(b, u) && b.tools.at[u].blockIndex == i {
        assert Live(b', u);
      }
    }
  }

  /** What the accumulators of `b'` must be for one more event. */
  lemma RecordsSnoc(b: Blocks, es: seq<Event>, b': Blocks, e: Event)
    requires Records(b, es) && b.nextIndex <= b'.nextIndex && IsBlockEvent(e)
    requires forall u :: Live(b', u) ==>
               if Live(b, u)
               then b'.tools.at[u].blockIndex == b.tools.at[u].blockIndex
                    && b'.tools.at[u].contents == b.tools.at[u].contents + JsonIn(e, b.tools.at[u].blockIndex)
               else b'.tools.at[u].blockIndex >= b.nextIndex
                    && b'.tools.at[u].contents == JsonIn(e, b'.tools.at[u].blockIndex)
    requires forall i :: b'.nextIndex <= i ==> JsonIn(e, i) == ""
    requires b'.text == b.text + TextIn(e) && b'.reasoning == b.reasoning + ThinkingIn(e)
    ensures Records(b', es + [e])
  {
    ShownSnoc(es, e);
  }

  /** One event that touches no tool. */
  lemma GoodSnoc(b: Blocks, es: seq<Event>, b': Blocks, e: Event)
    requires Good(b, es) && Tracks(b', Step(Run(Fresh, es), e))
    requires b'.tools == b.tools && b.nextIndex <= b'.nextIndex && IsBlockEvent(e)
    requires !(e.BlockDelta? && e.delta.InputJsonDelta?)
    requires b'.text == b.text + TextIn(e) && b'.reasoning == b.reasoning + ThinkingIn(e)
    ensures Good(b', es + [e])
  {
    RunSnoc(Fresh, es, e);
    assert forall u :: Live(b', u) <==> Live(b, u);
    RecordsSnoc(b, es, b', e);
  }

  lemma PutTidy(b: Blocks, t: int, state: ToolCallState)
    requires Tidy(b) && ToolTidy(state)
    ensures Tidy(SetTool(b, t, state))
  {
  }

  lemma PutRecords(b: Blocks, es: seq<Event>, t: int, state: ToolCallState)
    requires Records(b, es)
    requires if Live(b, t) then state.contents == b.tools.at[t].contents && state.blockIndex == b.tools.at[t].blockIndex
             else !state.started
    ensures Records(SetTool(b, t, state), es)
  {
    var b' := SetTool(b, t, state);
    forall u | Live(b', u) ensures ShownJson(es, b'.tools.at[u].blockIndex) == b'.tools.at[u].contents {
      assert Live(b, u);
    }
  }

  // ----- the calls keep the agreement -----

  lemma EmitTextGood(b: Blocks, es: seq<Event>, s: string)
    requires Good(b, es) && b.textStarted
    ensures Good(EmitText(b, s).b, es + EmitText(b, s).events)
  {
    var b' := EmitText(b, s).b;
    assert forall t :: Live(b', t) <==> Live(b, t);
    forall i | i in Run(Fresh, es).open ensures Owned(b', i) {
      assert Owned(b, i);
    }
    GoodSnoc(b, es, b', EmitText(b, s).events[0]);
  }

  lemma EmitThinkingGood(b: Blocks, es: seq<Event>, s: string)
    requires Good(b, es) && b.thinkingStarted
    ensures Good(EmitThinking(b, s).b, es + EmitThinking(b, s).events)
  {
    var b' := EmitThinking(b, s).b;
    assert forall t :: Live(b', t) <==> Live(b, t);
    forall i | i in Run(Fresh, es).open ensures Owned(b', i) {
      assert Owned(b, i);
    }
    GoodSnoc(b, es, b', EmitThinking(b, s).events[0]);
  }

  lemma StopTextGood(b: Blocks, es: seq<Event>)
    requires Good(b, es) && b.textStarted
    ensures Good(StopText(b).b, es + StopText(b).events)
  {
    StopTextTracks(b, Run(Fresh, es));
    GoodSnoc(b, es, StopText(b).b, StopText(b).events[0]);
  }

  lemma StopThinkingGood(b: Blocks, es: seq<Event>)
    requires Good(b, es) && b.thinkingStarted
    ensures Good(StopThinking(b).b, es + StopThinking(b).events)
  {
    StopThinkingTracks(b, Run(Fresh, es));
    GoodSnoc(b, es, StopThinking(b).b, StopThinking(b).events[0]);
  }

  lemma EnsureTextGood(b: Blocks, es: seq<Event>)
    requires Good(b, es)
    ensures Good(EnsureText(b).b, es + EnsureText(b).events) && EnsureText(b).b.textStarted
  {
    var stopped := if b.thinkingStarted then StopThinking(b) else Out(b, []);
    if b.thinkingStarted {
      StopThinkingGood(b, es);
    }
    var mid := es + stopped.events;
    assert es + [] == es;
    if !stopped.b.textStarted {
      StartTextTracks(stopped.b, Run(Fresh, mid));
      GoodSnoc(stopped.b, mid, StartText(stopped.b).b, StartText(stopped.b).events[0]);
      assert mid + StartText(stopped.b).events == es + EnsureText(b).events;
    }
  }

  lemma EnsureThinkingGood(b: Blocks, es: seq<Event>)
    requires Good(b, es)
    ensures Good(EnsureThinking(b).b, es + EnsureThinking(b).events) && EnsureThinking(b).b.thinkingStarted
  {
    var stopped := if b.textStarted then StopText(b) else Out(b, []);
    if b.textStarted {
      StopTextGood(b, es);
    }
    var mid := es + stopped.events;
    assert es + [] == es;
    if !stopped.b.thinkingStarted {
      StartThinkingTracks(stopped.b, Run(Fresh, mid));
      GoodSnoc(stopped.b, mid, StartThinking(stopped.b).b, StartThinking(stopped.b).events[0]);
      assert mid + StartThinking(stopped.b).events == es + EnsureThinking(b).events;
    }
  }

  lemma SayTextGood(b: Blocks, es: seq<Event>, s: string)
    requires Good(b, es)
    ensures Good(SayText(b, s).b, es + SayText(b, s).events)
  {
    var ready := EnsureText(b);
    EnsureTextGood(b, es);
    EmitTextGood(ready.b, es + ready.events, s);
    assert es + ready.events + EmitText(ready.b, s).events == es + SayText(b, s).events;
  }

  lemma SayThinkingGood(b: Blocks, es: seq<Event>, s: string)
    requires Good(b, es)
    ensures Good(SayThinking(b, s).b, es + SayThinking(b, s).events)
  {
    var ready := EnsureThinking(b);
    EnsureThinkingGood(b, es);
    EmitThinkingGood(ready.b, es + ready.events, s);
    assert es + ready.events + EmitThinking(ready.b, s).events == es + SayThinking(b, s).events;
  }

  lemma CloseContentGood(b: Blocks, es: seq<Event>)
    requires Good(b, es)
    ensures Good(CloseContent(b).b, es + CloseContent(b).events)
    ensures !CloseContent(b).b.textStarted && !CloseContent(b).b.thinkingStarted
  {
    var stopped := if b.thinkingStarted then StopThinking(b) else Out(b, []);
    if b.thinkingStarted {
      StopThinkingGood(b, es);
    }
    var mid := es + stopped.events;
    assert es + [] == es;
    if stopped.b.textStarted {
      StopTextGood(stopped.b, mid);
      assert mid + StopText(stopped.b).events == es + CloseContent(b).events;
    }
  }

  lemma StartToolGood(b: Blocks, es: seq<Event>, t: int, id: string, name: string)
    requires Good(b, es) && t in b.tools.at && !Live(b, t) && b.tools.at[t].preStartArgs == ""
    ensures Good(StartTool(b, t, id, name).b, es + StartTool(b, t, id, name).events)
  {
    var out := StartTool(b, t, id, name);
    var e := out.events[0];
    StartToolTracks(b, Run(Fresh, es), t, id, name);
    RunSnoc(Fresh, es, e);
    assert forall u :: Live(out.b, u) <==> Live(b, u) || u == t;
    RecordsSnoc(b, es, out.b, e);
    PutTidy(b, t, out.b.tools.at[t]);
  }

  lemma EmitToolGood(b: Blocks, es: seq<Event>, t: int, json: string)
    requires Good(b, es) && Live(b, t)
    ensures Good(EmitTool(b, t, json).b, es + EmitTool(b, t, json).events)
  {
    var out := EmitTool(b, t, json);
    var e := out.events[0];
    var state := b.tools.at[t].(contents := b.tools.at[t].contents + json);
    var c := Run(Fresh, es);
    PutTracks(b, c, t, state);
    RunSnoc(Fresh, es, e);
    assert Step(c, e) == c;
    EmitToolRecords(b, es, t, json);
    PutTidy(b, t, state);
  }

  lemma EmitToolRecords(b: Blocks, es: seq<Event>, t: int, json: string)
    requires Records(b, es) && Live(b, t) && b.tools.at[t].blockIndex < b.nextIndex
    requires forall u :: Live(b, u) && u != t ==> b.tools.at[t].blockIndex != b.tools.at[u].blockIndex
    ensures Records(EmitTool(b, t, json).b, es + EmitTool(b, t, json).events)
  {
    var out := EmitTool(b, t, json);
    assert forall u :: Live(out.b, u) <==> Live(b, u);
    RecordsSnoc(b, es, out.b, out.events[0]);
  }

  /** An event that shows nothing recorded. */
  lemma RecordsAside(b: Blocks, es: seq<Event>, b': Blocks, e: Event)
    requires Records(b, es) && IsBlockEvent(e) && TextIn(e) == "" && ThinkingIn(e) == ""
    requires b.nextIndex <= b'.nextIndex && b' == b.(nextIndex := b'.nextIndex)
    requires forall u :: Live(b, u) ==> JsonIn(e, b.tools.at[u].blockIndex) == ""
    requires forall i :: b'.nextIndex <= i ==> JsonIn(e, i) == ""
    ensures Records(b', es + [e])
  {
    assert forall u :: Live(b', u) <==> Live(b, u);
    ShownSnoc(es, e);
  }

  /** A whole block at a fresh index, recorded nowhere. */
  lemma WholeBlockRecords(b: Blocks, es: seq<Event>, block: ContentBlock, json: string)
    requires Records(b, es) && Tracks(b, Run(Fresh, es))
    ensures Records(b.(nextIndex := b.nextIndex + 1),
                    es + [BlockStart(b.nextIndex, block), BlockDelta(b.nextIndex, InputJsonDelta(json)), BlockStop(b.nextIndex)])
  {
    var i := b.nextIndex;
    var start, delta, stop := BlockStart(i, block), BlockDelta(i, InputJsonDelta(json)), BlockStop(i);
    var b' := b.(nextIndex := i + 1);
    RecordsAside(b, es, b', start);
    RecordsAside(b', es + [start], b', delta);
    RecordsAside(b', es + [start] + [delta], b', stop);
    assert es + [start] + [delta] + [stop] == es + [start, delta, stop];
  }

  lemma WholeBlockGood(b: Blocks, es: seq<Event>, block: ContentBlock, json: string)
    requires Good(b, es) && block.ToolUseBlock?
    ensures Good(b.(nextIndex := b.nextIndex + 1),
                 es + [BlockStart(b.nextIndex, block), BlockDelta(b.nextIndex, InputJsonDelta(json)), BlockStop(b.nextIndex)])
  {
    var i := b.nextIndex;
    var start, delta, stop := BlockStart(i, block), BlockDelta(i, InputJsonDelta(json)), BlockStop(i);
    WholeBlockTracks(b, Run(Fresh, es), block, delta.delta);
    WholeBlockRecords(b, es, block, json);
    RunThree(Run(Fresh, es), start, delta, stop);
    RunConcat(Fresh, es, [start, delta, stop]);
  }

  lemma FoundBlockGood(json: Json, b: Blocks, es: seq<Event>, tool: HeuristicTool)
    requires Good(b, es)
    ensures Good(b.(nextIndex := b.nextIndex + 1), es + FoundBlock(json, b.nextIndex, tool))
  {
    WholeBlockGood(b, es, ToolUseBlock(tool.id, tool.name, "{}"), FoundInput(json, tool));
  }

  lemma EmitHeuristicGood(json: Json, b: Blocks, es: seq<Event>, tool: HeuristicTool)
    requires Good(b, es)
    ensures Good(EmitHeuristic(json, b, tool).b, es + EmitHeuristic(json, b, tool).events)
  {
    var closed := CloseContent(b);
    CloseContentGood(b, es);
    FoundBlockGood(json, closed.b, es + closed.events, tool);
    ConcatAssoc(es, closed.events, FoundBlock(json, closed.b.nextIndex, tool));
  }

  lemma RunThree(c: Check, x: Event, y: Event, z: Event)
    ensures Run(c, [x, y, z]) == Step(Step(Step(c, x), y), z)
  {
    assert [x, y, z] == [x] + [y] + [z];
    RunOne(c, x);
    RunSnoc(c, [x], y);
    RunSnoc(c, [x] + [y], z);
  }

  // ----- closing everything -----

  /** Every open block belongs to a started tool among `order`. */
  ghost predicate ToolOwned(b: Blocks, open: map<int, Storage>, order: seq<int>) {
    forall i :: i in open ==> exists t :: t in order && Live(b, t) && b.tools.at[t].blockIndex == i
  }

  /** After the text and thinking blocks are closed, only tool blocks are open. */
  lemma {:induction false} ToolStopsClose(b: Blocks, c: Check, order: seq<int>)
    requires c.ok && Distinct(order)
    requires forall t :: t in order && Live(b, t) ==> b.tools.at[t].blockIndex in c.open
    requires forall t, u :: t in order && u in order && Live(b, t) && Live(b, u) && t != u ==>
               b.tools.at[t].blockIndex != b.tools.at[u].blockIndex
    requires ToolOwned(b, c.open, order)
    ensures Run(c, ToolStops(b.tools, order)) == c.(open := map[])
    decreases order
  {
    if order == [] {
      assert forall i :: i !in c.open;
      assert c.open == map[];
    } else {
      var t := order[0];
      var rest := order[1..];
      assert forall u :: u in order <==> u == t || u in rest;
      assert t !in rest;
      if Live(b, t) {
        var e := BlockStop(b.tools.at[t].blockIndex);
        var d := Step(c, e);
        forall i | i in d.open ensures exists u :: u in rest && Live(b, u) && b.tools.at[u].blockIndex == i {
          var u :| u in order && Live(b, u) && b.tools.at[u].blockIndex == i;
        }
        ToolStopsClose(b, d, rest);
        RunConcat(c, [e], ToolStops(b.tools, rest));
        RunOne(c, e);
      } else {
        ToolStopsClose(b, c, rest);
        assert ToolStops(b.tools, order) == ToolStops(b.tools, rest);
      }
    }
  }

  /** With text and thinking closed, the tool stops leave nothing open. */
  lemma ToolStopsGood(b: Blocks, es: seq<Event>)
    requires Good(b, es) && !b.textStarted && !b.thinkingStarted
    ensures Run(Fresh, es + ToolStops(b.tools, b.tools.keys)) == Run(Fresh, es).(open := map[])
  {
    var c := Run(Fresh, es);
    forall i | i in c.open ensures exists t :: t in b.tools.keys && Live(b, t) && b.tools.at[t].blockIndex == i {
      assert Owned(b, i);
      var t :| Live(b, t) && b.tools.at[t].blockIndex == i;
      assert t in b.tools.keys;
    }
    ToolStopsClose(b, c, b.tools.keys);
    RunConcat(Fresh, es, ToolStops(b.tools, b.tools.keys));
  }

  lemma ToolStopsOnlyBlocks(tools: Dict<int, ToolCallState>, order: seq<int>)
    ensures OnlyBlocks(ToolStops(tools, order))
  {
  }

  /** Nothing is open, and the indices used are 0, 1, ..., n - 1. */
  ghost predicate AllClosed(c: Check, n: nat) {
    c.ok && c.open == map[] && forall i :: i in c.seen <==> 0 <= i < n
  }

  lemma CloseAllCloses(b: Blocks, es: seq<Event>)
    requires Good(b, es)
    ensures AllClosed(Run(Fresh, es + CloseAll(b).events), b.nextIndex)
    ensures OnlyBlocks(es + CloseAll(b).events)
  {
    var closed := CloseContent(b);
    CloseContentGood(b, es);
    ToolStopsGood(closed.b, es + closed.events);
    ToolStopsOnlyBlocks(closed.b.tools, closed.b.tools.keys);
    ConcatAssoc(es, closed.events, ToolStops(closed.b.tools, closed.b.tools.keys));
  }

  lemma EmitErrorCloses(b: Blocks, es: seq<Event>, message: string)
    requires AllClosed(Run(Fresh, es), b.nextIndex)
    ensures AllClosed(Run(Fresh, es + EmitError(b, message).events), b.nextIndex + 1)
  {
    var i := b.nextIndex;
    var start, delta, stop := BlockStart(i, TextBlock("")), BlockDelta(i, TextDelta(message)), BlockStop(i);
    RunThree(Run(Fresh, es), start, delta, stop);
    RunConcat(Fresh, es, [start, delta, stop]);
    assert Step(Step(Step(Run(Fresh, es), start), delta), stop).open == map[];
  }
}
