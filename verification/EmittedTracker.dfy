/** What the native transport knows of the events it has shown, and how it ends a cut stream
    (core/anthropic/emitted_sse_tracker.py). */
module EmittedTracker {
  import opened BlockState
  import opened JsonTexts
  import opened OrderedDict
  import opened StreamContract
  import opened StreamRecovery

  datatype BlockKind = TextKind | ThinkingKind | ToolKind | OtherKind

  /** `EmittedBlockState`; `content` is the join of its parts. */
  datatype EmittedBlock = EmittedBlock(kind: BlockKind, open: bool, toolId: string, name: string, content: string)

  /** `EmittedNativeSseTracker`. */
  datatype Tracker = Tracker(stack: seq<int>, maxIndex: int, blocks: Dict<int, EmittedBlock>,
                             stopReason: Option<StopReason>, stopped: bool)

  const NewTracker := Tracker([], -1, Dict([], map[]), None, false)

  // ----- observing -----

  function StartedBlock(block: ContentBlock): EmittedBlock {
    match block
    case TextBlock(text) => EmittedBlock(TextKind, true, "", "", text)
    case ThinkingBlock(thinking) => EmittedBlock(ThinkingKind, true, "", "", thinking)
    case ToolUseBlock(id, name, _) => EmittedBlock(ToolKind, true, id, name, "")
    case _ => EmittedBlock(OtherKind, true, "", "", "")
  }

  /** What a delta adds to a block of this kind. */
  function ContentIn(kind: BlockKind, delta: Delta): string {
    match (kind, delta)
    case (TextKind, TextDelta(text)) => text
    case (ThinkingKind, ThinkingDelta(thinking)) => thinking
    case (ToolKind, InputJsonDelta(partialJson)) => partialJson
    case _ => ""
  }

  /** `list.remove`: the first occurrence. */
  function RemoveFirst(stack: seq<int>, index: int): seq<int> {
    if stack == [] then [] else if stack[0] == index then stack[1..] else [stack[0]] + RemoveFirst(stack[1..], index)
  }

  /** Taking a stopped block off the stack: off its top, or from wherever it is. */
  function Unstack(stack: seq<int>, index: int): seq<int> {
    if stack != [] && stack[|stack| - 1] == index then stack[..|stack| - 1] else RemoveFirst(stack, index)
  }

  function Shut(blocks: Dict<int, EmittedBlock>, index: int): Dict<int, EmittedBlock> {
    if index in blocks.at then blocks.Put(index, blocks.at[index].(open := false)) else blocks
  }

  /** `_observe`; events without an integer index are ignored. */
  function Observe(t: Tracker, e: Event): Tracker {
    match e
    case BlockStart(index, block) =>
      t.(stack := t.stack + [index], maxIndex := Max(t.maxIndex, index), blocks := t.blocks.Put(index, StartedBlock(block)))
    case BlockDelta(index, delta) =>
      if index !in t.blocks.at then t
      else
        var b := t.blocks.at[index];
        t.(blocks := t.blocks.Put(index, b.(content := b.content + ContentIn(b.kind, delta))))
    case BlockStop(index) => t.(stack := Unstack(t.stack, index), blocks := Shut(t.blocks, index))
    case MessageDelta(stopReason) => if stopReason.Some? then t.(stopReason := stopReason) else t
    case MessageStop => t.(stopped := true)
    case _ => t
  }

  /** The tracker after a stream of events. */
  function Track(es: seq<Event>): Tracker {
    if es == [] then NewTracker else Observe(Track(es[..|es| - 1]), es[|es| - 1])
  }

  lemma TrackSnoc(es: seq<Event>, e: Event)
    ensures Track(es + [e]) == Observe(Track(es), e)
  {
    assert (es + [e])[..|es + [e]| - 1] == es;
  }

  // ----- the tracker and the contract checker agree -----

  ghost predicate StackHolds(stack: seq<int>, open: map<int, Storage>) {
    Distinct(stack) && forall i :: i in stack <==> i in open
  }

  predicate KindFits(kind: BlockKind, storage: Storage) {
    match storage
    case TextStream => kind.TextKind?
    case ThinkingStream => kind.ThinkingKind?
    case ToolStream => kind.ToolKind?
    case NoDeltas => kind.TextKind? || kind.OtherKind?
  }

  ghost predicate BlocksHold(at: map<int, EmittedBlock>, open: map<int, Storage>, seen: set<int>) {
    && open.Keys <= seen
    && (forall i :: i in at <==> i in seen)
    && (forall i :: i in at ==> (at[i].open <==> i in open))
    && (forall i :: i in open ==> KindFits(at[i].kind, open[i]))
  }

  ghost predicate Knows(t: Tracker, c: Check) {
    && StackHolds(t.stack, c.open)
    && t.blocks.Valid()
    && BlocksHold(t.blocks.at, c.open, c.seen)
    && t.maxIndex >= -1 && (forall i :: i in c.seen ==> i <= t.maxIndex)
  }

  lemma {:induction false} RemoveFirstRemoves(stack: seq<int>, index: int)
    requires Distinct(stack)
    ensures Distinct(RemoveFirst(stack, index))
    ensures forall i :: i in RemoveFirst(stack, index) <==> i in stack && i != index
  {
    if stack != [] {
      var rest := stack[1..];
      assert stack == [stack[0]] + rest && stack[0] !in rest && Distinct(rest);
      RemoveFirstRemoves(rest, index);
    }
  }

  lemma UnstackRemoves(stack: seq<int>, index: int)
    requires Distinct(stack)
    ensures Distinct(Unstack(stack, index))
    ensures forall i :: i in Unstack(stack, index) <==> i in stack && i != index
  {
    if stack != [] && stack[|stack| - 1] == index {
      assert stack == stack[..|stack| - 1] + [index];
    } else {
      RemoveFirstRemoves(stack, index);
    }
  }

  lemma PushHolds(stack: seq<int>, open: map<int, Storage>, index: int, storage: Storage)
    requires StackHolds(stack, open) && index !in open
    ensures StackHolds(stack + [index], open[index := storage])
  {
    assert index !in stack;
  }

  lemma PutHolds(at: map<int, EmittedBlock>, open: map<int, Storage>, seen: set<int>, index: int, block: ContentBlock)
    requires BlocksHold(at, open, seen)
    ensures BlocksHold(at[index := StartedBlock(block)], open[index := StorageOf(block)], seen + {index})
  {
  }

  lemma ObserveStartKnows(t: Tracker, c: Check, index: int, block: ContentBlock)
    requires Knows(t, c) && Step(c, BlockStart(index, block)).ok
    ensures Knows(Observe(t, BlockStart(index, block)), Step(c, BlockStart(index, block)))
  {
    PushHolds(t.stack, c.open, index, StorageOf(block));
    PutHolds(t.blocks.at, c.open, c.seen, index, block);
  }

  lemma ObserveDeltaKnows(t: Tracker, c: Check, index: int, delta: Delta)
    requires Knows(t, c)
    ensures Knows(Observe(t, BlockDelta(index, delta)), c)
  {
  }

  lemma ObserveStopKnows(t: Tracker, c: Check, index: int)
    requires Knows(t, c)
    ensures Knows(Observe(t, BlockStop(index)), Step(c, BlockStop(index)))
  {
    UnstackRemoves(t.stack, index);
  }

  lemma ObserveKnows(t: Tracker, c: Check, e: Event)
    requires Knows(t, c) && Step(c, e).ok
    ensures Knows(Observe(t, e), Step(c, e))
  {
    match e
    case BlockStart(index, block) => ObserveStartKnows(t, c, index, block);
    case BlockDelta(index, delta) => ObserveDeltaKnows(t, c, index, delta);
    case BlockStop(index) => ObserveStopKnows(t, c, index);
    case _ =>
  }

  lemma {:induction false} TrackKnows(es: seq<Event>)
    requires Run(Fresh, es).ok
    ensures Knows(Track(es), Run(Fresh, es))
    decreases |es|
  {
    if es != [] {
      TrackKnows(es[..|es| - 1]);
      ObserveKnows(Track(es[..|es| - 1]), Run(Fresh, es[..|es| - 1]), es[|es| - 1]);
    }
  }

  predicate Ended(es: seq<Event>) {
    MessageStop in es
  }

  predicate GaveReason(es: seq<Event>) {
    exists k :: 0 <= k < |es| && es[k].MessageDelta? && es[k].stopReason.Some?
  }

  lemma {:induction false} TrackMessage(es: seq<Event>)
    ensures Track(es).stopped <==> Ended(es)
    ensures Track(es).stopReason.Some? <==> GaveReason(es)
    decreases |es|
  {
    if es != [] {
      var init, last := es[..|es| - 1], es[|es| - 1];
      TrackMessage(init);
      assert es == init + [last];
      if k :| 0 <= k < |init| && init[k].MessageDelta? && init[k].stopReason.Some? {
        assert es[k] == init[k];
      }
      if k :| 0 <= k < |es| && es[k].MessageDelta? && es[k].stopReason.Some? {
        assert k < |init| ==> init[k] == es[k];
      }
    }
  }

  /** The argument text the tracker holds for a block. */
  function ToolText(t: Tracker, i: int): string {
    if i in t.blocks.at && t.blocks.at[i].kind.ToolKind? then t.blocks.at[i].content else ""
  }

  lemma ObserveToolText(t: Tracker, c: Check, e: Event, i: int)
    requires Knows(t, c) && Step(c, e).ok
    ensures ToolText(Observe(t, e), i) == ToolText(t, i) + JsonIn(e, i)
  {
    if e.BlockDelta? && e.index == i {
      assert KindFits(t.blocks.at[i].kind, c.open[i]);
    }
  }

  /** The tracked content of a tool block is all the argument text shown for it. */
  lemma {:induction false} TrackShowsJson(es: seq<Event>, i: int)
    requires Run(Fresh, es).ok
    ensures ToolText(Track(es), i) == ShownJson(es, i)
    decreases |es|
  {
    if es != [] {
      var init, last := es[..|es| - 1], es[|es| - 1];
      TrackShowsJson(init, i);
      TrackKnows(init);
      assert Step(Run(Fresh, init), last).ok;
      ObserveToolText(Track(init), Run(Fresh, init), last, i);
    }
  }

  // ----- closing what is open -----

  /** The tracker after a call and the events it yields. */
  datatype Told = Told(t: Tracker, events: seq<Event>)

  /** `iter_close_unclosed_blocks`: last opened first. */
  function CloseUnclosed(t: Tracker): Told
    decreases |t.stack|
  {
    if t.stack == [] then Told(t, [])
    else
      var index := t.stack[|t.stack| - 1];
      var rest := CloseUnclosed(t.(stack := t.stack[..|t.stack| - 1], blocks := Shut(t.blocks, index)));
      rest.(events := [BlockStop(index)] + rest.events)
  }

  lemma {:induction false} CloseUnclosedCloses(t: Tracker, c: Check)
    requires c.ok && StackHolds(t.stack, c.open)
    ensures Run(c, CloseUnclosed(t).events) == c.(open := map[])
    decreases |t.stack|
  {
    if t.stack == [] {
      assert forall i :: i !in c.open;
      assert c.open == map[];
    } else {
      var index, below := t.stack[|t.stack| - 1], t.stack[..|t.stack| - 1];
      assert t.stack == below + [index];
      var t' := t.(stack := below, blocks := Shut(t.blocks, index));
      var d := Step(c, BlockStop(index));
      CloseUnclosedCloses(t', d);
      RunOne(c, BlockStop(index));
      RunConcat(c, [BlockStop(index)], CloseUnclosed(t').events);
    }
  }

  predicate OnlyStops(es: seq<Event>) {
    forall k :: 0 <= k < |es| ==> es[k].BlockStop?
  }

  lemma {:induction false} CloseUnclosedStops(t: Tracker)
    ensures OnlyStops(CloseUnclosed(t).events)
    ensures CloseUnclosed(t).t.maxIndex == t.maxIndex && CloseUnclosed(t).t.stack == []
    ensures CloseUnclosed(t).t.stopReason == t.stopReason && CloseUnclosed(t).t.stopped == t.stopped
    decreases |t.stack|
  {
    if t.stack != [] {
      var index := t.stack[|t.stack| - 1];
      CloseUnclosedStops(t.(stack := t.stack[..|t.stack| - 1], blocks := Shut(t.blocks, index)));
    }
  }

  // ----- the tails -----

  /** The message-level events that have not been sent yet. */
  function MessageTail(t: Tracker, reason: StopReason): seq<Event> {
    (if t.stopReason.None? then [MessageDelta(Some(reason))] else []) + (if t.stopped then [] else [MessageStop])
  }

  /** `iter_success_tail`. */
  function SuccessTail(t: Tracker, reason: StopReason): seq<Event> {
    CloseUnclosed(t).events + MessageTail(t, reason)
  }

  function ErrorBlock(index: int, message: string): seq<Event> {
    [BlockStart(index, TextBlock("")), BlockDelta(index, TextDelta(message)), BlockStop(index)]
  }

  /** `iter_close_unclosed_blocks` followed by `iter_midstream_error_tail`. */
  function ErrorTail(t: Tracker, message: string): seq<Event> {
    CloseUnclosed(t).events + ErrorBlock(t.maxIndex + 1, message) + [MessageDelta(Some(EndTurn)), MessageStop]
  }

  /** No error events. */
  predicate ErrorFree(es: seq<Event>) {
    forall q :: 0 <= q < |es| ==> !es[q].ErrorEvent?
  }

  lemma ErrorBlockRuns(c: Check, index: int, message: string)
    requires c.ok && c.open == map[] && index !in c.seen
    ensures Run(c, ErrorBlock(index, message)) == c.(seen := c.seen + {index})
  {
    RunThree(c, BlockStart(index, TextBlock("")), BlockDelta(index, TextDelta(message)), BlockStop(index));
    assert map[][index := TextStream] - {index} == map[];
  }

  lemma RunTail(c: Check, e: Event, f: Event)
    requires e.MessageDelta? && f.MessageStop?
    ensures Run(c, [e, f]) == c && Run(c, [e]) == c && Run(c, [f]) == c
  {
    RunOne(c, e);
    RunOne(c, f);
    assert [e, f] == [e] + [f];
    RunConcat(c, [e], [f]);
  }

  /** Closing everything and then the error block leave nothing open. */
  lemma ErrorTailRuns(es: seq<Event>, message: string)
    requires Run(Fresh, es).ok
    ensures var d := Run(Fresh, es + ErrorTail(Track(es), message));
            d.ok && d.open == map[] && d.seen == Run(Fresh, es).seen + {Track(es).maxIndex + 1}
  {
    var t, c := Track(es), Run(Fresh, es);
    TrackKnows(es);
    CloseUnclosedCloses(t, c);
    var closes, index := CloseUnclosed(t).events, t.maxIndex + 1;
    ErrorBlockRuns(Run(c, closes), index, message);
    RunConcat(c, closes, ErrorBlock(index, message));
    RunTail(Run(c, closes + ErrorBlock(index, message)), MessageDelta(Some(EndTurn)), MessageStop);
    RunConcat(c, closes + ErrorBlock(index, message), [MessageDelta(Some(EndTurn)), MessageStop]);
    RunConcat(Fresh, es, ErrorTail(t, message));
  }

  lemma ErrorTailShape(t: Tracker, message: string)
    ensures var tail := ErrorTail(t, message);
            ErrorFree(tail) && MessageStart !in tail && tail[|tail| - 1] == MessageStop
    ensures forall q :: 0 <= q < |ErrorTail(t, message)| - 1 ==> ErrorTail(t, message)[q] != MessageStop
  {
    CloseUnclosedStops(t);
    var closes := CloseUnclosed(t).events;
    var last := ErrorBlock(t.maxIndex + 1, message) + [MessageDelta(Some(EndTurn)), MessageStop];
    var tail := ErrorTail(t, message);
    assert tail == closes + last;
    assert forall q :: 0 <= q < |closes| ==> tail[q] == closes[q];
    assert forall q :: |closes| <= q < |tail| ==> tail[q] == last[q - |closes|];
    assert last == [BlockStart(t.maxIndex + 1, TextBlock("")), BlockDelta(t.maxIndex + 1, TextDelta(message)),
                    BlockStop(t.maxIndex + 1), MessageDelta(Some(EndTurn)), MessageStop];
  }

  lemma ErrorFreeConcat(a: seq<Event>, b: seq<Event>)
    ensures ErrorFree(a + b) <==> ErrorFree(a) && ErrorFree(b)
  {
    if ErrorFree(a + b) {
      assert forall q :: 0 <= q < |a| ==> a[q] == (a + b)[q];
      assert forall q :: 0 <= q < |b| ==> b[q] == (a + b)[|a| + q];
    }
  }

  /** Whatever was shown, the error tail completes it to a stream that meets the contract exactly when
      what was shown obeyed the block rules and had its message_start; the error is shown in a block
      whose index was never used. */
  lemma ErrorTailMeetsContract(es: seq<Event>, message: string, allowError: bool)
    ensures Contract(es + ErrorTail(Track(es), message), allowError) <==>
            Run(Fresh, es).ok && MessageStart in es && (allowError || ErrorFree(es))
    ensures Run(Fresh, es).ok ==> Track(es).maxIndex + 1 !in Run(Fresh, es).seen
  {
    var tail := ErrorTail(Track(es), message);
    var out := es + tail;
    ContractByRun(out, allowError);
    ErrorTailShape(Track(es), message);
    ErrorFreeConcat(es, tail);
    if Run(Fresh, es).ok {
      TrackKnows(es);
      ErrorTailRuns(es, message);
      assert Track(es).maxIndex + 1 in Run(Fresh, out).seen;
    }
    if Run(Fresh, out).ok {
      OkPrefix(Fresh, es, tail);
    }
    assert out[|out| - 1] == MessageStop;
    assert MessageStart in out <==> MessageStart in es;
  }
}
