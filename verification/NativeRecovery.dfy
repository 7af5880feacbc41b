/** Recovering a cut native stream (core/anthropic/emitted_sse_tracker.py and
    providers/anthropic_messages.py, `_native_recovery_events`). */
module NativeRecovery {
  import opened BlockState
  import opened EmittedTracker
  import opened JsonTexts
  import opened OrderedDict
  import opened StreamContract
  import opened StreamRecovery

  // ----- continuing text and thinking -----

  /** `_last_open_block`. */
  function LastOpen(blocks: Dict<int, EmittedBlock>, stack: seq<int>, kind: BlockKind): (r: Option<int>)
    ensures r.Some? ==> r.value in stack && r.value in blocks.at && blocks.at[r.value].kind == kind &&
                        blocks.at[r.value].open
    ensures r.None? ==> forall i :: i in stack && i in blocks.at ==> blocks.at[i].kind != kind || !blocks.at[i].open
    decreases |stack|
  {
    if stack == [] then None
    else
      var below, i := stack[..|stack| - 1], stack[|stack| - 1];
      assert forall k :: k in stack <==> k in below || k == i;
      if i in blocks.at && blocks.at[i].kind == kind && blocks.at[i].open then Some(i) else LastOpen(blocks, below, kind)
  }

  /** The block and the delta a continuation of this kind uses. */
  function EmptyBlock(kind: BlockKind): ContentBlock {
    if kind.ThinkingKind? then ThinkingBlock("") else TextBlock("")
  }

  function SuffixDelta(kind: BlockKind, suffix: string): Delta {
    if kind.ThinkingKind? then ThinkingDelta(suffix) else TextDelta(suffix)
  }

  /** `append_text_suffix` and `append_thinking_suffix`. */
  function AppendSuffix(t: Tracker, kind: BlockKind, suffix: string): Told {
    if suffix == "" then Told(t, [])
    else
      match LastOpen(t.blocks, t.stack, kind)
      case Some(i) =>
        var b := t.blocks.at[i];
        Told(t.(blocks := t.blocks.Put(i, b.(content := b.content + suffix))), [BlockDelta(i, SuffixDelta(kind, suffix))])
      case None =>
        var i := t.maxIndex + 1;
        Told(t.(maxIndex := Max(t.maxIndex, i), stack := t.stack + [i],
                blocks := t.blocks.Put(i, EmittedBlock(kind, true, "", "", suffix))),
             [BlockStart(i, EmptyBlock(kind)), BlockDelta(i, SuffixDelta(kind, suffix))])
  }

  lemma PutTwice<V>(d: Dict<int, V>, k: int, v: V, w: V)
    ensures d.Put(k, v).Put(k, w) == d.Put(k, w)
  {
    assert d.at[k := v][k := w] == d.at[k := w];
  }

  lemma FreshIsObserved(t: Tracker, kind: BlockKind, suffix: string)
    requires kind.TextKind? || kind.ThinkingKind?
    ensures var i := t.maxIndex + 1;
            Observe(Observe(t, BlockStart(i, EmptyBlock(kind))), BlockDelta(i, SuffixDelta(kind, suffix))) ==
            t.(maxIndex := Max(t.maxIndex, i), stack := t.stack + [i],
               blocks := t.blocks.Put(i, EmittedBlock(kind, true, "", "", suffix)))
  {
    var i := t.maxIndex + 1;
    PutTwice(t.blocks, i, EmittedBlock(kind, true, "", "", ""), EmittedBlock(kind, true, "", "", suffix));
    assert "" + suffix == suffix;
  }

  lemma TrackTwo(es: seq<Event>, e: Event, f: Event)
    ensures Track(es + [e, f]) == Observe(Observe(Track(es), e), f)
  {
    TrackSnoc(es, e);
    TrackSnoc(es + [e], f);
    assert es + [e] + [f] == es + [e, f];
  }

  lemma OpenIsObserved(t: Tracker, kind: BlockKind, suffix: string)
    requires (kind.TextKind? || kind.ThinkingKind?) && suffix != "" && LastOpen(t.blocks, t.stack, kind).Some?
    ensures var told := AppendSuffix(t, kind, suffix); |told.events| == 1 && Observe(t, told.events[0]) == told.t
  {
  }

  /** The tracker ends up as if it had observed what it appended. */
  lemma AppendIsObserved(es: seq<Event>, kind: BlockKind, suffix: string)
    requires kind.TextKind? || kind.ThinkingKind?
    ensures var told := AppendSuffix(Track(es), kind, suffix); Track(es + told.events) == told.t
  {
    var t := Track(es);
    var told := AppendSuffix(t, kind, suffix);
    if suffix == "" {
      ConcatEmpty(es);
    } else {
      match LastOpen(t.blocks, t.stack, kind)
      case Some(i) =>
        OpenIsObserved(t, kind, suffix);
        TrackSnoc(es, BlockDelta(i, SuffixDelta(kind, suffix)));
      case None =>
        var i := t.maxIndex + 1;
        FreshIsObserved(t, kind, suffix);
        TrackTwo(es, BlockStart(i, EmptyBlock(kind)), BlockDelta(i, SuffixDelta(kind, suffix)));
    }
  }

  /** Text would be appended to an open text block that was started with visible text, which takes
      no deltas. */
  ghost predicate ContinuesFullBlock(es: seq<Event>, suffix: string) {
    var t := Track(es);
    var last := LastOpen(t.blocks, t.stack, TextKind);
    suffix != "" && last.Some? && exists p :: LiveFrom(es, p, |es|, last.value) && StorageOf(es[p].block) == NoDeltas
  }

  lemma FullBlockByRun(es: seq<Event>, suffix: string)
    requires Run(Fresh, es).ok
    ensures var last := LastOpen(Track(es).blocks, Track(es).stack, TextKind);
            last.Some? ==> last.value in Run(Fresh, es).open &&
                           (ContinuesFullBlock(es, suffix) <==> suffix != "" && Run(Fresh, es).open[last.value] == NoDeltas)
  {
    TrackKnows(es);
    RunDescribes(es);
    var last := LastOpen(Track(es).blocks, Track(es).stack, TextKind);
    if last.Some? {
      assert OpenBefore(es, |es|, last.value);
      var p :| LiveFrom(es, p, |es|, last.value);
      assert Run(Fresh, es).open[last.value] == StorageOf(es[p].block);
    }
  }

  lemma RunTwo(c: Check, e: Event, f: Event)
    ensures Run(c, [e, f]) == Step(Step(c, e), f)
  {
    assert [e, f] == [e] + [f];
    RunOne(c, e);
    RunSnoc(c, [e], f);
  }

  lemma AppendSteps(t: Tracker, c: Check, kind: BlockKind, suffix: string)
    requires Knows(t, c) && c.ok && suffix != "" && (kind.TextKind? || kind.ThinkingKind?)
    ensures var d := Run(c, AppendSuffix(t, kind, suffix).events);
            var last := LastOpen(t.blocks, t.stack, kind);
            && (d.ok <==> !(kind.TextKind? && last.Some? && c.open[last.value] == NoDeltas))
            && d.seen != {}
  {
    match LastOpen(t.blocks, t.stack, kind)
    case Some(i) =>
      assert KindFits(t.blocks.at[i].kind, c.open[i]);
      RunOne(c, BlockDelta(i, SuffixDelta(kind, suffix)));
      assert i in c.seen;
    case None =>
      var i := t.maxIndex + 1;
      RunTwo(c, BlockStart(i, EmptyBlock(kind)), BlockDelta(i, SuffixDelta(kind, suffix)));
      assert i in Run(c, AppendSuffix(t, kind, suffix).events).seen;
  }

  lemma AppendRuns(es: seq<Event>, kind: BlockKind, suffix: string)
    requires Run(Fresh, es).ok && (kind.TextKind? || kind.ThinkingKind?)
    ensures var d := Run(Fresh, es + AppendSuffix(Track(es), kind, suffix).events);
            && (d.ok <==> !(kind.TextKind? && ContinuesFullBlock(es, suffix)))
            && (suffix != "" ==> d.seen != {})
  {
    TrackKnows(es);
    if suffix == "" {
      assert es + [] == es;
    } else {
      FullBlockByRun(es, suffix);
      AppendSteps(Track(es), Run(Fresh, es), kind, suffix);
      RunConcat(Fresh, es, AppendSuffix(Track(es), kind, suffix).events);
    }
  }

  /** The events of a text recovery up to its tail. */
  function Continuation(t: Tracker, thinking: string, text: string): Told {
    var thought := AppendSuffix(t, ThinkingKind, thinking);
    var said := AppendSuffix(thought.t, TextKind, text);
    Told(said.t, thought.events + said.events)
  }

  /** The new thinking never changes which text block is continued. */
  lemma ThinkingLeavesText(es: seq<Event>, thinking: string, text: string)
    requires Run(Fresh, es).ok
    ensures var thought := AppendSuffix(Track(es), ThinkingKind, thinking).events;
            ContinuesFullBlock(es + thought, text) <==> ContinuesFullBlock(es, text)
  {
    var t := Track(es);
    var told := AppendSuffix(t, ThinkingKind, thinking);
    var es' := es + told.events;
    TrackKnows(es);
    AppendIsObserved(es, ThinkingKind, thinking);
    AppendRuns(es, ThinkingKind, thinking);
    LastOpenSame(t, told.t, thinking);
    FullBlockByRun(es, text);
    FullBlockByRun(es', text);
    RunConcat(Fresh, es, told.events);
    if thinking != "" {
      if LastOpen(t.blocks, t.stack, ThinkingKind).Some? {
        RunOne(Run(Fresh, es), told.events[0]);
      } else {
        RunTwo(Run(Fresh, es), told.events[0], told.events[1]);
      }
    }
  }

  lemma LastOpenSame(t: Tracker, t': Tracker, thinking: string)
    requires t' == AppendSuffix(t, ThinkingKind, thinking).t
    requires forall i :: i in t.stack ==> i <= t.maxIndex
    ensures LastOpen(t'.blocks, t'.stack, TextKind) == LastOpen(t.blocks, t.stack, TextKind)
  {
    if thinking != "" {
      SameText(t.blocks, t'.blocks, t.stack);
      if LastOpen(t.blocks, t.stack, ThinkingKind).None? {
        assert t'.stack[..|t'.stack| - 1] == t.stack;
      }
    }
  }

  lemma {:induction false} SameText(a: Dict<int, EmittedBlock>, b: Dict<int, EmittedBlock>, stack: seq<int>)
    requires forall i :: i in stack ==> (i in a.at <==> i in b.at)
    requires forall i :: i in stack && i in a.at ==> a.at[i].kind == b.at[i].kind && a.at[i].open == b.at[i].open
    ensures LastOpen(a, stack, TextKind) == LastOpen(b, stack, TextKind)
    decreases |stack|
  {
    if stack != [] {
      var below, i := stack[..|stack| - 1], stack[|stack| - 1];
      assert forall k :: k in stack <==> k in below || k == i;
      SameText(a, b, below);
    }
  }

  lemma ContinuationRuns(es: seq<Event>, thinking: string, text: string)
    requires Run(Fresh, es).ok
    ensures var told := Continuation(Track(es), thinking, text);
            && Track(es + told.events) == told.t
            && (Run(Fresh, es + told.events).ok <==> !ContinuesFullBlock(es, text))
            && (thinking != "" || text != "" ==> Run(Fresh, es + told.events).seen != {})
  {
    var thought := AppendSuffix(Track(es), ThinkingKind, thinking);
    var mid := es + thought.events;
    AppendIsObserved(es, ThinkingKind, thinking);
    AppendRuns(es, ThinkingKind, thinking);
    var said := AppendSuffix(Track(mid), TextKind, text);
    AppendIsObserved(mid, TextKind, text);
    AppendRuns(mid, TextKind, text);
    ThinkingLeavesText(es, thinking, text);
    ConcatAssoc(es, thought.events, said.events);
    if text == "" {
      assert mid + [] == mid;
    }
  }

  // ----- the success tail -----

  /** Everything is closed and, unless it had already ended, the message ends. */
  lemma SuccessTailRuns(es: seq<Event>, reason: StopReason)
    requires Run(Fresh, es).ok
    ensures Run(Fresh, es + SuccessTail(Track(es), reason)) == Run(Fresh, es).(open := map[])
  {
    var t := Track(es);
    TrackKnows(es);
    CloseUnclosedCloses(t, Run(Fresh, es));
    var closes, rest := CloseUnclosed(t).events, MessageTail(t, reason);
    RunTail(Run(Run(Fresh, es), closes), MessageDelta(Some(reason)), MessageStop);
    assert rest == [MessageDelta(Some(reason)), MessageStop] || rest == [MessageDelta(Some(reason))] || rest == [MessageStop] || rest == [];
    RunConcat(Run(Fresh, es), closes, rest);
    RunConcat(Fresh, es, closes + rest);
  }

  lemma SuccessTailShape(t: Tracker, reason: StopReason)
    ensures var tail := SuccessTail(t, reason);
            && ErrorFree(tail) && MessageStart !in tail
            && (if t.stopped then MessageStop !in tail else tail[|tail| - 1] == MessageStop)
            && forall q :: 0 <= q < |tail| - 1 ==> tail[q] != MessageStop
  {
    CloseUnclosedStops(t);
    var closes := CloseUnclosed(t).events;
    var rest := MessageTail(t, reason);
    var tail := SuccessTail(t, reason);
    assert tail == closes + rest;
    assert forall q :: 0 <= q < |closes| ==> tail[q] == closes[q];
    assert forall q :: |closes| <= q < |tail| ==> tail[q] == rest[q - |closes|];
  }

  /** After `es`, the events `more` make the message end exactly once, and last. */
  predicate EndsOnce(es: seq<Event>, more: seq<Event>) {
    if more == [] then es != [] && es[|es| - 1] == MessageStop else !Ended(es)
  }

  lemma RecoveredShape(es: seq<Event>, more: seq<Event>, tail: seq<Event>)
    requires OnlyBlocks(more) && ErrorFree(tail) && MessageStart !in tail
    requires if Ended(es) then MessageStop !in tail else tail != [] && tail[|tail| - 1] == MessageStop
    ensures var out := es + more + tail;
            && (out != [] && out[|out| - 1] == MessageStop <==> EndsOnce(es, more + tail))
            && (MessageStart in out <==> MessageStart in es)
            && (ErrorFree(out) <==> ErrorFree(es))
  {
    var out := es + more + tail;
    assert forall q :: 0 <= q < |more| ==> more[q] in more;
    ErrorFreeConcat(es, more);
    ErrorFreeConcat(es + more, tail);
    if tail != [] {
      assert out[|out| - 1] == tail[|tail| - 1];
      assert tail[|tail| - 1] in tail;
    } else if more != [] {
      assert out[|out| - 1] == more[|more| - 1];
    } else {
      assert out == es;
    }
  }

  /** A recovery `more`, made of block events, followed by the success tail. */
  lemma RecoveredContract(es: seq<Event>, more: seq<Event>, reason: StopReason, allowError: bool)
    requires OnlyBlocks(more) && (Run(Fresh, es + more).ok ==> Run(Fresh, es + more).seen != {})
    ensures var events := more + SuccessTail(Track(es + more), reason);
            Contract(es + events, allowError) <==>
            && Run(Fresh, es + more).ok && MessageStart in es && EndsOnce(es, events) && (allowError || ErrorFree(es))
  {
    var shown := es + more;
    var tail := SuccessTail(Track(shown), reason);
    ConcatAssoc(es, more, tail);
    ContractByRun(shown + tail, allowError);
    SuccessTailShape(Track(shown), reason);
    TrackMessage(shown);
    assert Ended(shown) <==> Ended(es);
    RecoveredShape(es, more, tail);
    if Run(Fresh, shown).ok {
      SuccessTailRuns(shown, reason);
    } else if Run(Fresh, shown + tail).ok {
      OkPrefix(Fresh, shown, tail);
    }
  }

  lemma AppendOnlyBlocks(t: Tracker, thinking: string, text: string)
    ensures OnlyBlocks(Continuation(t, thinking, text).events)
    ensures Continuation(t, thinking, text).events == [] <==> thinking == "" && text == ""
  {
  }

  /** A continued stream meets the contract exactly when what was shown obeyed the block rules, began
      with a message_start and had not ended, and the text is not appended to a block that was started
      with visible text. */
  lemma ContinuationMeetsContract(es: seq<Event>, thinking: string, text: string, allowError: bool)
    requires thinking != "" || text != ""
    ensures var told := Continuation(Track(es), thinking, text);
            Contract(es + (told.events + SuccessTail(told.t, EndTurn)), allowError) <==>
            && Run(Fresh, es).ok && MessageStart in es && !Ended(es) && (allowError || ErrorFree(es))
            && !ContinuesFullBlock(es, text)
  {
    var told := Continuation(Track(es), thinking, text);
    var events := told.events + SuccessTail(told.t, EndTurn);
    AppendOnlyBlocks(Track(es), thinking, text);
    assert told.events[0] == events[0];
    if Run(Fresh, es).ok {
      ContinuationRuns(es, thinking, text);
      RecoveredContract(es, told.events, EndTurn, allowError);
    } else {
      ContractByRun(es + events, allowError);
      if Run(Fresh, es + events).ok {
        OkPrefix(Fresh, es, events);
      }
    }
  }

  /** `emitted_text` and `emitted_thinking`: the blocks of one kind, in the order they were started. */
  function EmittedOf(blocks: Dict<int, EmittedBlock>, keys: seq<int>, kind: BlockKind): string
    decreases |keys|
  {
    if keys == [] then ""
    else
      (if keys[0] in blocks.at && blocks.at[keys[0]].kind == kind then blocks.at[keys[0]].content else "")
      + EmittedOf(blocks, keys[1..], kind)
  }

  lemma EmittedOne(blocks: Dict<int, EmittedBlock>, i: int, kind: BlockKind)
    requires i in blocks.at && blocks.at[i].kind == kind
    ensures EmittedOf(blocks, [i], kind) == blocks.at[i].content
  {
    assert [i][1..] == [];
    assert EmittedOf(blocks, [], kind) == "";
  }

  // ----- repairing tool arguments -----

  /** `tool_blocks`, in the order they were started. */
  function ToolOrder(blocks: Dict<int, EmittedBlock>, keys: seq<int>): (r: seq<int>)
    ensures forall i :: i in r <==> i in keys && i in blocks.at && blocks.at[i].kind.ToolKind?
    ensures Distinct(keys) ==> Distinct(r)
    decreases |keys|
  {
    if keys == [] then []
    else
      assert forall i :: i in keys <==> i == keys[0] || i in keys[1..];
      assert Distinct(keys) ==> Distinct(keys[1..]) && keys[0] !in keys[1..];
      (if keys[0] in blocks.at && blocks.at[keys[0]].kind.ToolKind? then [keys[0]] else [])
      + ToolOrder(blocks, keys[1..])
  }

  /** The block has an id, a name and complete arguments. */
  predicate Usable(json: Json, b: EmittedBlock) {
    b.toolId != "" && b.name != "" && json.Complete(b.content, b.name)
  }

  /** `can_salvage_tool_use`. */
  predicate CanSalvage(json: Json, t: Tracker) {
    var tools := ToolOrder(t.blocks, t.blocks.keys);
    tools != [] && forall k :: 0 <= k < |tools| ==> Usable(json, t.blocks.at[tools[k]])
  }

  /** `append_tool_repair_suffix` for the tool block `i`. */
  function AppendRepair(t: Tracker, i: int, suffix: string): Told
    requires i in t.blocks.at
  {
    if suffix == "" then Told(t, [])
    else
      var b := t.blocks.at[i];
      Told(t.(blocks := t.blocks.Put(i, b.(content := b.content + suffix))), [BlockDelta(i, InputJsonDelta(suffix))])
  }

  /** Repairing the tool blocks `order`, the first of them number `k`: `None` once one cannot be. */
  function RepairBlocks(json: Json, t: Tracker, order: seq<int>, k: int, repairs: RepairAnswers): Option<Told>
    requires forall i :: i in order ==> i in t.blocks.at
    decreases |order|
  {
    if order == [] then Some(Told(t, []))
    else
      var i := order[0];
      assert forall j :: j in order[1..] ==> j in order;
      var b := t.blocks.at[i];
      if Usable(json, b) then RepairBlocks(json, t, order[1..], k + 1, repairs)
      else
        match TryRepair(json, b.content, b.name, k, repairs, 0)
        case Suffix(suffix) =>
          var first := AppendRepair(t, i, suffix);
          (match RepairBlocks(json, first.t, order[1..], k + 1, repairs)
           case Some(rest) => Some(Told(rest.t, first.events + rest.events))
           case None => None)
        case _ => None
  }

  predicate RepairsOnly(events: seq<Event>) {
    forall k :: 0 <= k < |events| ==> events[k].BlockDelta? && events[k].delta.InputJsonDelta?
  }

  /** The same blocks in the same order, with the same kinds, ids and names; only those in `order` may
      have more content. */
  predicate SameBlocks(t: Tracker, t': Tracker, order: seq<int>) {
    && t'.blocks.keys == t.blocks.keys && t'.blocks.at.Keys == t.blocks.at.Keys
    && (forall i :: i in t.blocks.at ==>
          && t'.blocks.at[i].kind == t.blocks.at[i].kind
          && t'.blocks.at[i].toolId == t.blocks.at[i].toolId
          && t'.blocks.at[i].name == t.blocks.at[i].name
          && (i !in order ==> t'.blocks.at[i] == t.blocks.at[i]))
  }

  lemma AppendRepairSame(t: Tracker, i: int, suffix: string)
    requires i in t.blocks.at
    ensures SameBlocks(t, AppendRepair(t, i, suffix).t, [i])
  {
  }

  lemma SameThenSame(t: Tracker, t': Tracker, t'': Tracker, i: int, rest: seq<int>)
    requires SameBlocks(t, t', [i]) && SameBlocks(t', t'', rest)
    ensures SameBlocks(t, t'', [i] + rest)
  {
  }

  /** The repairs are argument deltas; the tracker is as if it had observed them; blocks keep their
      kind, id and name, and blocks not in `order` stay as they are. */
  lemma {:induction false} RepairBlocksShape(json: Json, t: Tracker, order: seq<int>, k: int, repairs: RepairAnswers)
    requires forall i :: i in order ==> i in t.blocks.at && t.blocks.at[i].kind.ToolKind?
    ensures var r := RepairBlocks(json, t, order, k, repairs);
            r.Some? ==> RepairsOnly(r.value.events) && SameBlocks(t, r.value.t, order)
    decreases |order|
  {
    if order != [] {
      var i := order[0];
      assert order == [i] + order[1..] && forall j :: j in order <==> j == i || j in order[1..];
      var b := t.blocks.at[i];
      if Usable(json, b) {
        RepairBlocksShape(json, t, order[1..], k + 1, repairs);
      } else {
        var tried := TryRepair(json, b.content, b.name, k, repairs, 0);
        if tried.Suffix? {
          var t' := AppendRepair(t, i, tried.text).t;
          AppendRepairSame(t, i, tried.text);
          RepairBlocksShape(json, t', order[1..], k + 1, repairs);
          var r := RepairBlocks(json, t', order[1..], k + 1, repairs);
          if r.Some? {
            SameThenSame(t, t', r.value.t, i, order[1..]);
          }
        }
      }
    }
  }

  lemma {:induction false} RepairIsObserved(json: Json, es: seq<Event>, order: seq<int>, k: int, repairs: RepairAnswers)
    requires forall i :: i in order ==> i in Track(es).blocks.at && Track(es).blocks.at[i].kind.ToolKind?
    ensures var r := RepairBlocks(json, Track(es), order, k, repairs);
            r.Some? ==> Track(es + r.value.events) == r.value.t
    decreases |order|
  {
    var t := Track(es);
    if order == [] {
      assert es + [] == es;
    } else {
      var i, rest := order[0], order[1..];
      assert forall j :: j in rest ==> j in order;
      var b := t.blocks.at[i];
      if Usable(json, b) {
        RepairIsObserved(json, es, rest, k + 1, repairs);
      } else {
        var tried := TryRepair(json, b.content, b.name, k, repairs, 0);
        if tried.Suffix? {
          var first := AppendRepair(t, i, tried.text);
          RepairOneIsObserved(es, i, tried.text);
          RepairIsObserved(json, es + first.events, rest, k + 1, repairs);
          var more := RepairBlocks(json, first.t, rest, k + 1, repairs);
          if more.Some? {
            ConcatAssoc(es, first.events, more.value.events);
          }
        }
      }
    }
  }

  lemma RepairOneIsObserved(es: seq<Event>, i: int, suffix: string)
    requires i in Track(es).blocks.at && Track(es).blocks.at[i].kind.ToolKind?
    ensures var first := AppendRepair(Track(es), i, suffix); Track(es + first.events) == first.t
  {
    if suffix == "" {
      assert es + [] == es;
    } else {
      TrackSnoc(es, BlockDelta(i, InputJsonDelta(suffix)));
    }
  }

  /** Every block that needs a repair is still open. */
  ghost predicate RepairsOpen(json: Json, t: Tracker, order: seq<int>, c: Check)
    requires forall i :: i in order ==> i in t.blocks.at
  {
    forall i :: i in order && !Usable(json, t.blocks.at[i]) ==> i in c.open
  }

  /** The tool blocks can be repaired: they have their ids and names, and are tool blocks where open. */
  ghost predicate Repairable(t: Tracker, order: seq<int>, c: Check) {
    && (forall i :: i in order ==> i in t.blocks.at && t.blocks.at[i].toolId != "" && t.blocks.at[i].name != "")
    && (forall i :: i in order && i in c.open ==> c.open[i] == ToolStream)
  }

  /** The repairs fit the checker exactly when they go to open blocks. */
  lemma {:induction false} RepairsFit(json: Json, t: Tracker, order: seq<int>, k: int, repairs: RepairAnswers, c: Check)
    requires c.ok && Distinct(order) && Repairable(t, order, c)
    requires RepairBlocks(json, t, order, k, repairs).Some?
    ensures var events := RepairBlocks(json, t, order, k, repairs).value.events;
            && (Run(c, events).ok <==> RepairsOpen(json, t, order, c))
            && (Run(c, events).ok ==> Run(c, events) == c)
    decreases |order|, 1
  {
    if order != [] {
      var i, rest := order[0], order[1..];
      assert order == [i] + rest && i !in rest && Distinct(rest);
      assert forall j :: j in rest ==> j in order;
      assert i in order;
      RepairsOpenStep(json, t, order, c);
      if Usable(json, t.blocks.at[i]) {
        RepairsFit(json, t, rest, k + 1, repairs, c);
      } else {
        RepairsFitOne(json, t, i, rest, k, repairs, c);
      }
    }
  }

  lemma RepairUnroll(json: Json, t: Tracker, i: int, rest: seq<int>, k: int, repairs: RepairAnswers)
    requires i in t.blocks.at && !Usable(json, t.blocks.at[i]) && forall j :: j in rest ==> j in t.blocks.at
    requires RepairBlocks(json, t, [i] + rest, k, repairs).Some?
    ensures var b := t.blocks.at[i];
            var tried := TryRepair(json, b.content, b.name, k, repairs, 0);
            && tried.Suffix? && json.Complete(b.content + tried.text, b.name)
            && var first := AppendRepair(t, i, tried.text);
               var more := RepairBlocks(json, first.t, rest, k + 1, repairs);
               more.Some? && RepairBlocks(json, t, [i] + rest, k, repairs).value.events == first.events + more.value.events
  {
    var b := t.blocks.at[i];
    assert ([i] + rest)[0] == i && ([i] + rest)[1..] == rest;
    TryRepairCompletes(json, b.content, b.name, k, repairs, 0);
  }

  lemma OthersRepairable(json: Json, t: Tracker, i: int, suffix: string, rest: seq<int>, c: Check)
    requires i in t.blocks.at && i !in rest && Repairable(t, rest, c)
    ensures var t' := AppendRepair(t, i, suffix).t;
            Repairable(t', rest, c) && (RepairsOpen(json, t', rest, c) <==> RepairsOpen(json, t, rest, c))
  {
  }

  lemma DeltaFits(c: Check, i: int, suffix: string, more: seq<Event>)
    requires c.ok && (i in c.open ==> c.open[i] == ToolStream)
    ensures i in c.open ==> Run(c, [BlockDelta(i, InputJsonDelta(suffix))] + more) == Run(c, more)
    ensures i !in c.open ==> !Run(c, [BlockDelta(i, InputJsonDelta(suffix))] + more).ok
  {
    var delta := [BlockDelta(i, InputJsonDelta(suffix))];
    RunConcat(c, delta, more);
    RunOne(c, delta[0]);
    if Run(c, delta + more).ok {
      OkPrefix(c, delta, more);
    }
  }

  /** The first of the blocks needs a repair. */
  lemma {:induction false} RepairsFitOne(json: Json, t: Tracker, i: int, rest: seq<int>, k: int, repairs: RepairAnswers, c: Check)
    requires c.ok && i !in rest && Distinct(rest) && Repairable(t, [i] + rest, c)
    requires i in t.blocks.at && !Usable(json, t.blocks.at[i]) && forall j :: j in rest ==> j in t.blocks.at
    requires RepairBlocks(json, t, [i] + rest, k, repairs).Some?
    ensures var events := RepairBlocks(json, t, [i] + rest, k, repairs).value.events;
            && (Run(c, events).ok <==> i in c.open && RepairsOpen(json, t, rest, c))
            && (Run(c, events).ok ==> Run(c, events) == c)
    decreases |rest|, 2
  {
    var b := t.blocks.at[i];
    assert i in [i] + rest && forall j :: j in rest ==> j in [i] + rest;
    RepairUnroll(json, t, i, rest, k, repairs);
    var suffix := TryRepair(json, b.content, b.name, k, repairs, 0).text;
    assert b.content + "" == b.content;
    var first := AppendRepair(t, i, suffix);
    var more := RepairBlocks(json, first.t, rest, k + 1, repairs).value;
    DeltaFits(c, i, suffix, more.events);
    if i in c.open {
      OthersRepairable(json, t, i, suffix, rest, c);
      RepairsFit(json, first.t, rest, k + 1, repairs, c);
    }
  }

  lemma RepairsOpenStep(json: Json, t: Tracker, order: seq<int>, c: Check)
    requires order != [] && forall i :: i in order ==> i in t.blocks.at
    ensures RepairsOpen(json, t, order, c) <==>
            (Usable(json, t.blocks.at[order[0]]) || order[0] in c.open) && RepairsOpen(json, t, order[1..], c)
  {
    assert forall i :: i in order <==> i == order[0] || i in order[1..];
  }

  // ----- the whole recovery -----

  /** How the recovery requests turn out; `None` is a raised exception. */
  datatype NativeAnswers = NativeAnswers(
    repairs: RepairAnswers,
    continuation: Option<(string, string)>)         // text and thinking

  function PartialText(t: Tracker): string {
    EmittedOf(t.blocks, t.blocks.keys, TextKind)
  }

  function PartialThinking(t: Tracker): string {
    EmittedOf(t.blocks, t.blocks.keys, ThinkingKind)
  }

  function RecoverNativeTools(json: Json, t: Tracker, answers: NativeAnswers): Option<seq<Event>> {
    match RepairBlocks(json, t, ToolOrder(t.blocks, t.blocks.keys), 0, answers.repairs)
    case Some(told) => if CanSalvage(json, told.t) then Some(told.events + SuccessTail(told.t, ToolUse)) else None
    case None => None
  }

  function RecoverNativeText(t: Tracker, answers: NativeAnswers): Option<seq<Event>> {
    if (PartialText(t) == "" && PartialThinking(t) == "") || answers.continuation.None? then None
    else
      var text := Continued(PartialText(t), answers.continuation.value.0);
      var thinking := Continued(PartialThinking(t), answers.continuation.value.1);
      var told := Continuation(t, thinking, text);
      if told.events == [] then None else Some(told.events + SuccessTail(told.t, EndTurn))
  }

  /** `_native_recovery_events`, exceptions included: `None` when there is no recovery. */
  function RecoverNative(json: Json, t: Tracker, answers: NativeAnswers): Option<seq<Event>> {
    if ToolOrder(t.blocks, t.blocks.keys) != [] then RecoverNativeTools(json, t, answers) else RecoverNativeText(t, answers)
  }

  /** Kinds, ids, names and order survive the repairs. */
  lemma RepairKeepsOrder(json: Json, t: Tracker, t': Tracker)
    requires t'.blocks.keys == t.blocks.keys && t'.blocks.at.Keys == t.blocks.at.Keys
    requires forall i :: i in t.blocks.at ==> t'.blocks.at[i].kind == t.blocks.at[i].kind
    ensures ToolOrder(t'.blocks, t'.blocks.keys) == ToolOrder(t.blocks, t.blocks.keys)
  {
    SameOrder(t.blocks, t'.blocks, t.blocks.keys);
  }

  lemma {:induction false} SameOrder(a: Dict<int, EmittedBlock>, b: Dict<int, EmittedBlock>, keys: seq<int>)
    requires a.at.Keys == b.at.Keys && forall i :: i in a.at ==> a.at[i].kind == b.at[i].kind
    ensures ToolOrder(a, keys) == ToolOrder(b, keys)
    decreases |keys|
  {
    if keys != [] {
      SameOrder(a, b, keys[1..]);
    }
  }

  // ----- when a recovery succeeds -----

  /** The block has an id and a name, and its arguments are complete or are completed on request. */
  ghost predicate BlockRepairable(json: Json, b: EmittedBlock, n: int, repairs: RepairAnswers) {
    b.toolId != "" && b.name != "" && (json.Complete(b.content, b.name) || RepairFound(json, b.content, b.name, n, repairs))
  }

  ghost predicate AllRepairable(json: Json, t: Tracker, order: seq<int>, k: int, repairs: RepairAnswers)
    requires forall i :: i in order ==> i in t.blocks.at
  {
    forall n :: 0 <= n < |order| ==> var i := order[n]; i in order && BlockRepairable(json, t.blocks.at[i], k + n, repairs)
  }

  lemma AllRepairableStep(json: Json, t: Tracker, t': Tracker, i: int, rest: seq<int>, k: int, repairs: RepairAnswers)
    requires i in t.blocks.at && (forall j :: j in rest ==> j in t.blocks.at) && (forall j :: j in rest ==> j in t'.blocks.at)
    requires forall j :: j in rest ==> t'.blocks.at[j] == t.blocks.at[j]
    ensures forall j :: j in [i] + rest ==> j in t.blocks.at
    ensures AllRepairable(json, t, [i] + rest, k, repairs) <==>
            BlockRepairable(json, t.blocks.at[i], k, repairs) && AllRepairable(json, t', rest, k + 1, repairs)
  {
    var order := [i] + rest;
    assert forall n :: 0 <= n < |rest| ==> order[n + 1] == rest[n] && rest[n] in rest;
    assert order[0] == i;
    if AllRepairable(json, t, order, k, repairs) {
      forall n | 0 <= n < |rest| ensures BlockRepairable(json, t'.blocks.at[rest[n]], k + 1 + n, repairs) {
        assert BlockRepairable(json, t.blocks.at[order[n + 1]], k + (n + 1), repairs);
      }
      assert BlockRepairable(json, t.blocks.at[order[0]], k + 0, repairs);
    } else if BlockRepairable(json, t.blocks.at[i], k, repairs) && AllRepairable(json, t', rest, k + 1, repairs) {
      forall n | 0 <= n < |order| ensures BlockRepairable(json, t.blocks.at[order[n]], k + n, repairs) {
        if n > 0 {
          assert BlockRepairable(json, t'.blocks.at[rest[n - 1]], k + 1 + (n - 1), repairs);
        }
      }
    }
  }

  predicate AllUsable(json: Json, t: Tracker, order: seq<int>) {
    forall i :: i in order ==> i in t.blocks.at && Usable(json, t.blocks.at[i])
  }

  lemma UsableStep(json: Json, t: Tracker, i: int, rest: seq<int>)
    ensures AllUsable(json, t, [i] + rest) <==> i in t.blocks.at && Usable(json, t.blocks.at[i]) && AllUsable(json, t, rest)
  {
    assert forall j :: j in [i] + rest <==> j == i || j in rest;
  }

  /** The repairs leave every block of `order` usable. */
  predicate Repairs(json: Json, t: Tracker, order: seq<int>, k: int, repairs: RepairAnswers)
    requires forall i :: i in order ==> i in t.blocks.at
  {
    var told := RepairBlocks(json, t, order, k, repairs);
    told.Some? && AllUsable(json, told.value.t, order)
  }

  lemma {:induction false} RepairsWhen(json: Json, t: Tracker, order: seq<int>, k: int, repairs: RepairAnswers)
    requires Distinct(order) && forall i :: i in order ==> i in t.blocks.at && t.blocks.at[i].kind.ToolKind?
    ensures Repairs(json, t, order, k, repairs) <==> AllRepairable(json, t, order, k, repairs)
    decreases |order|, 1
  {
    if order != [] {
      var i, rest := order[0], order[1..];
      assert order == [i] + rest && i !in rest && Distinct(rest) && i in order && forall j :: j in rest ==> j in order;
      if Usable(json, t.blocks.at[i]) {
        RepairsWhen(json, t, rest, k + 1, repairs);
        RepairsAfter(json, t, t, order, k, repairs);
      } else {
        RepairsWhenUnusable(json, t, i, rest, k, repairs);
      }
    }
  }

  lemma {:induction false} RepairsWhenUnusable(json: Json, t: Tracker, i: int, rest: seq<int>, k: int, repairs: RepairAnswers)
    requires i !in rest && Distinct(rest) && i in t.blocks.at && t.blocks.at[i].kind.ToolKind? && !Usable(json, t.blocks.at[i])
    requires forall j :: j in rest ==> j in t.blocks.at && t.blocks.at[j].kind.ToolKind?
    ensures forall j :: j in [i] + rest ==> j in t.blocks.at
    ensures Repairs(json, t, [i] + rest, k, repairs) <==> AllRepairable(json, t, [i] + rest, k, repairs)
    decreases |rest|, 2
  {
    var b := t.blocks.at[i];
    assert ([i] + rest)[0] == i && ([i] + rest)[1..] == rest;
    RepairIsFound(json, b.content, b.name, k, repairs);
    var tried := TryRepair(json, b.content, b.name, k, repairs, 0);
    if tried.Suffix? {
      TryRepairCompletes(json, b.content, b.name, k, repairs, 0);
      assert b.content + "" == b.content;
      var t' := AppendRepair(t, i, tried.text).t;
      RepairsWhen(json, t', rest, k + 1, repairs);
      RepairsAfter(json, t, t', [i] + rest, k, repairs);
    } else {
      AllRepairableStep(json, t, t, i, rest, k, repairs);
    }
  }

  /** One block has been seen to, and the others are as before. */
  lemma RepairsAfter(json: Json, t: Tracker, t': Tracker, order: seq<int>, k: int, repairs: RepairAnswers)
    requires Distinct(order) && order != [] && order[0] in order
    requires forall i :: i in order ==> i in t.blocks.at && t.blocks.at[i].kind.ToolKind?
    requires t'.blocks.at.Keys == t.blocks.at.Keys && forall j :: j in t.blocks.at && j != order[0] ==> t'.blocks.at[j] == t.blocks.at[j]
    requires order[0] in t'.blocks.at && forall j :: j in order[1..] ==> j in order
    requires var b := t'.blocks.at[order[0]];
             && b.kind.ToolKind? && json.Complete(b.content, b.name)
             && b.toolId == t.blocks.at[order[0]].toolId && b.name == t.blocks.at[order[0]].name
    requires var whole, r := RepairBlocks(json, t, order, k, repairs), RepairBlocks(json, t', order[1..], k + 1, repairs);
             (whole.Some? <==> r.Some?) && (whole.Some? ==> whole.value.t == r.value.t)
    requires var b := t.blocks.at[order[0]]; json.Complete(b.content, b.name) || RepairFound(json, b.content, b.name, k, repairs)
    requires Repairs(json, t', order[1..], k + 1, repairs) <==> AllRepairable(json, t', order[1..], k + 1, repairs)
    ensures Repairs(json, t, order, k, repairs) <==> AllRepairable(json, t, order, k, repairs)
  {
    var i, rest := order[0], order[1..];
    assert order == [i] + rest && i !in rest;
    assert forall j :: j in rest ==> j in order && j != i;
    AllRepairableStep(json, t, t', i, rest, k, repairs);
    var r := RepairBlocks(json, t', rest, k + 1, repairs);
    RepairBlocksShape(json, t', rest, k + 1, repairs);
    if r.Some? {
      UsableStep(json, r.value.t, i, rest);
      assert r.value.t.blocks.at[i] == t'.blocks.at[i];
    }
  }

  /** The recovery succeeds: every tool block is complete or can be repaired; or, without tool blocks,
      something was shown, the provider goes on, and says something new. */
  ghost predicate RecoversNative(json: Json, t: Tracker, answers: NativeAnswers) {
    var order := ToolOrder(t.blocks, t.blocks.keys);
    if order != [] then AllRepairable(json, t, order, 0, answers.repairs)
    else
      && (PartialText(t) != "" || PartialThinking(t) != "") && answers.continuation.Some?
      && (|| Continued(PartialText(t), answers.continuation.value.0) != ""
          || Continued(PartialThinking(t), answers.continuation.value.1) != "")
  }

  lemma SalvagesAll(json: Json, t: Tracker, t': Tracker)
    requires ToolOrder(t'.blocks, t'.blocks.keys) == ToolOrder(t.blocks, t.blocks.keys) != []
    ensures CanSalvage(json, t') <==> AllUsable(json, t', ToolOrder(t.blocks, t.blocks.keys))
  {
    var order := ToolOrder(t.blocks, t.blocks.keys);
    assert forall k :: 0 <= k < |order| ==> order[k] in order;
    if CanSalvage(json, t') {
      forall i | i in order ensures i in t'.blocks.at && Usable(json, t'.blocks.at[i]) {
        SalvagedIsUsable(json, t', i);
      }
    } else if AllUsable(json, t', order) {
      forall k | 0 <= k < |order| ensures Usable(json, t'.blocks.at[order[k]]) {
        var i := order[k];
        assert i in order;
      }
      assert false;
    }
  }

  lemma RecoversToolsWhen(json: Json, t: Tracker, answers: NativeAnswers)
    requires t.blocks.Valid() && ToolOrder(t.blocks, t.blocks.keys) != []
    ensures RecoverNativeTools(json, t, answers).Some? <==> AllRepairable(json, t, ToolOrder(t.blocks, t.blocks.keys), 0, answers.repairs)
  {
    var order := ToolOrder(t.blocks, t.blocks.keys);
    RepairsWhen(json, t, order, 0, answers.repairs);
    RepairBlocksShape(json, t, order, 0, answers.repairs);
    var told := RepairBlocks(json, t, order, 0, answers.repairs);
    if told.Some? {
      RepairKeepsOrder(json, t, told.value.t);
      SalvagesAll(json, t, told.value.t);
    }
  }

  lemma RecoversNativeWhen(json: Json, t: Tracker, answers: NativeAnswers)
    requires t.blocks.Valid()
    ensures RecoverNative(json, t, answers).Some? <==> RecoversNative(json, t, answers)
  {
    if ToolOrder(t.blocks, t.blocks.keys) != [] {
      RecoversToolsWhen(json, t, answers);
    } else if answers.continuation.Some? {
      AppendOnlyBlocks(t, Continued(PartialThinking(t), answers.continuation.value.1),
                       Continued(PartialText(t), answers.continuation.value.0));
    }
  }

  /** A recovered tool run ends with every tracked tool block usable: all the argument text the client
      has been shown for it is a complete object its schema accepts. */
  lemma RecoveredToolsAreComplete(json: Json, es: seq<Event>, answers: NativeAnswers, i: int)
    requires Run(Fresh, es).ok
    requires var t := Track(es); i in ToolOrder(t.blocks, t.blocks.keys) && RecoverNative(json, t, answers).Some?
    ensures var events := RecoverNative(json, Track(es), answers).value;
            json.Complete(ShownJson(es + events, i), Track(es).blocks.at[i].name)
  {
    var t := Track(es);
    var order := ToolOrder(t.blocks, t.blocks.keys);
    var told := RepairBlocks(json, t, order, 0, answers.repairs).value;
    RepairBlocksShape(json, t, order, 0, answers.repairs);
    RepairKeepsOrder(json, t, told.t);
    SalvagedIsUsable(json, told.t, i);
    TrackShowsJson(es, i);
    RepairsShow(json, es, order, 0, answers.repairs, i);
    TailAddsNoJson(es + told.events, told.t, ToolUse, i);
    ConcatAssoc(es, told.events, SuccessTail(told.t, ToolUse));
  }

  lemma SalvagedIsUsable(json: Json, t: Tracker, i: int)
    requires CanSalvage(json, t) && i in ToolOrder(t.blocks, t.blocks.keys)
    ensures Usable(json, t.blocks.at[i])
  {
    var order := ToolOrder(t.blocks, t.blocks.keys);
    var k :| 0 <= k < |order| && order[k] == i;
    assert Usable(json, t.blocks.at[order[k]]);
  }

  lemma TailAddsNoJson(es: seq<Event>, t: Tracker, reason: StopReason, i: int)
    ensures ShownJson(es + SuccessTail(t, reason), i) == ShownJson(es, i)
  {
    var tail := SuccessTail(t, reason);
    TailShowsNoJson(t, reason);
    ShownJsonConcat(es, tail, i);
    NoJsonShown(tail, i);
    assert ShownJson(es, i) + "" == ShownJson(es, i);
  }

  lemma {:induction false} ShownJsonConcat(a: seq<Event>, b: seq<Event>, i: int)
    ensures ShownJson(a + b, i) == ShownJson(a, i) + ShownJson(b, i)
    decreases |b|
  {
    if b == [] {
      assert a + b == a;
    } else {
      assert (a + b)[..|a + b| - 1] == a + b[..|b| - 1];
      ShownJsonConcat(a, b[..|b| - 1], i);
    }
  }

  lemma {:induction false} NoJsonShown(es: seq<Event>, i: int)
    requires forall k :: 0 <= k < |es| ==> !es[k].BlockDelta?
    ensures ShownJson(es, i) == ""
    decreases |es|
  {
    if es != [] {
      NoJsonShown(es[..|es| - 1], i);
    }
  }

  lemma TailShowsNoJson(t: Tracker, reason: StopReason)
    ensures forall k :: 0 <= k < |SuccessTail(t, reason)| ==> !SuccessTail(t, reason)[k].BlockDelta? && !SuccessTail(t, reason)[k].BlockStart?
  {
    CloseUnclosedStops(t);
    var closes, rest := CloseUnclosed(t).events, MessageTail(t, reason);
    assert forall k :: 0 <= k < |closes| ==> SuccessTail(t, reason)[k] == closes[k];
    assert forall k :: |closes| <= k < |closes| + |rest| ==> SuccessTail(t, reason)[k] == rest[k - |closes|];
  }

  /** The repairs shown for a tool block are exactly what its tracked content gained. */
  lemma {:induction false} RepairsShow(json: Json, es: seq<Event>, order: seq<int>, k: int, repairs: RepairAnswers, i: int)
    requires i in Track(es).blocks.at && Track(es).blocks.at[i].kind.ToolKind?
    requires Track(es).blocks.at[i].content == ShownJson(es, i)
    requires forall j :: j in order ==> j in Track(es).blocks.at && Track(es).blocks.at[j].kind.ToolKind?
    requires RepairBlocks(json, Track(es), order, k, repairs).Some?
    ensures var told := RepairBlocks(json, Track(es), order, k, repairs).value;
            i in told.t.blocks.at && told.t.blocks.at[i].content == ShownJson(es + told.events, i)
    decreases |order|
  {
    var t := Track(es);
    if order == [] {
      assert es + [] == es;
    } else {
      var j, rest := order[0], order[1..];
      assert forall q :: q in rest ==> q in order;
      var b := t.blocks.at[j];
      if Usable(json, b) {
        RepairsShow(json, es, rest, k + 1, repairs, i);
      } else {
        var suffix := TryRepair(json, b.content, b.name, k, repairs, 0).text;
        var first := AppendRepair(t, j, suffix);
        RepairOneIsObserved(es, j, suffix);
        if suffix == "" {
          assert es + [] == es;
        } else {
          ShownSnocAt(es, BlockDelta(j, InputJsonDelta(suffix)), i);
        }
        assert t.blocks.at[i].content + "" == t.blocks.at[i].content;
        RepairsShow(json, es + first.events, rest, k + 1, repairs, i);
        ConcatAssoc(es, first.events, RepairBlocks(json, first.t, rest, k + 1, repairs).value.events);
      }
    }
  }

  /** A recovered tool run meets the contract exactly when every block that needed a repair was still
      open (and what was shown obeyed the rules and had begun but not ended the message). */
  lemma ToolRecoveryMeetsContract(json: Json, es: seq<Event>, answers: NativeAnswers, allowError: bool)
    requires Run(Fresh, es).ok
    requires RecoverNative(json, Track(es), answers).Some? && ToolOrder(Track(es).blocks, Track(es).blocks.keys) != []
    ensures var t := Track(es);
            var events := RecoverNative(json, t, answers).value;
            Contract(es + events, allowError) <==>
            && RepairsOpen(json, t, ToolOrder(t.blocks, t.blocks.keys), Run(Fresh, es))
            && MessageStart in es && EndsOnce(es, events) && (allowError || ErrorFree(es))
  {
    var t, c := Track(es), Run(Fresh, es);
    var order := ToolOrder(t.blocks, t.blocks.keys);
    var told := RepairBlocks(json, t, order, 0, answers.repairs).value;
    TrackKnows(es);
    RepairBlocksShape(json, t, order, 0, answers.repairs);
    RepairIsObserved(json, es, order, 0, answers.repairs);
    RepairKeepsOrder(json, t, told.t);
    forall i | i in order ensures t.blocks.at[i].toolId != "" && t.blocks.at[i].name != "" {
      var k :| 0 <= k < |order| && order[k] == i;
      assert Usable(json, told.t.blocks.at[order[k]]);
    }
    forall i | i in order && i in c.open ensures c.open[i] == ToolStream {
      assert KindFits(t.blocks.at[i].kind, c.open[i]);
    }
    assert Repairable(t, order, c);
    RepairsFit(json, t, order, 0, answers.repairs, c);
    RunConcat(Fresh, es, told.events);
    assert order[0] in c.seen;
    assert OnlyBlocks(told.events);
    RecoveredContract(es, told.events, ToolUse, allowError);
  }
}
