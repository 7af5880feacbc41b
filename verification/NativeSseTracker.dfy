/** The tracker object (core/anthropic/emitted_sse_tracker.py), updated in place and proved equal to the
    tracker functions. */
module NativeSseTracker {
  import opened BlockState
  import opened EmittedTracker
  import opened JsonTexts
  import opened NativeRecovery
  import opened OrderedDict
  import opened SseFraming
  import opened StreamContract
  import opened StreamRecovery
  import Text

  // ----- observing text -----

  function ObserveAll(t: Tracker, es: seq<Event>): Tracker
    decreases |es|
  {
    if es == [] then t else ObserveAll(Observe(t, es[0]), es[1..])
  }

  /** The events of printed events; `decode` reads a payload's JSON. */
  function Decoded(decode: Raw -> Event, raws: seq<Raw>): seq<Event> {
    if raws == [] then [] else [decode(raws[0])] + Decoded(decode, raws[1..])
  }

  function ObserveFrame(t: Tracker, decode: Raw -> Event, frame: string): Tracker {
    ObserveAll(t, Decoded(decode, ParseFrame(frame)))
  }

  /** Every event of the frames, observed in turn. */
  function ObserveFrames(t: Tracker, decode: Raw -> Event, frames: seq<string>): Tracker
    decreases |frames|
  {
    if frames == [] then t else ObserveFrames(ObserveFrame(t, decode, frames[0]), decode, frames[1..])
  }

  lemma {:induction false} ObserveConcat(t: Tracker, a: seq<Event>, b: seq<Event>)
    ensures ObserveAll(t, a + b) == ObserveAll(ObserveAll(t, a), b)
    decreases |a|
  {
    if a == [] {
      assert a + b == b;
    } else {
      assert (a + b)[1..] == a[1..] + b;
      ObserveConcat(Observe(t, a[0]), a[1..], b);
    }
  }

  lemma {:induction false} ObserveIsTrack(es: seq<Event>)
    ensures ObserveAll(NewTracker, es) == Track(es)
    decreases |es|
  {
    if es != [] {
      var init, last := es[..|es| - 1], es[|es| - 1];
      ObserveIsTrack(init);
      assert es == init + [last];
      ObserveConcat(NewTracker, init, [last]);
      assert [last][1..] == [] && ObserveAll(Observe(Track(init), last), []) == Observe(Track(init), last);
    }
  }

  lemma {:induction false} DecodedConcat(decode: Raw -> Event, a: seq<Raw>, b: seq<Raw>)
    ensures Decoded(decode, a + b) == Decoded(decode, a) + Decoded(decode, b)
    decreases |a|
  {
    if a == [] {
      assert a + b == b;
    } else {
      assert (a + b)[1..] == a[1..] + b;
      DecodedConcat(decode, a[1..], b);
    }
  }

  lemma {:induction false} FramesAreEvents(t: Tracker, decode: Raw -> Event, frames: seq<string>)
    ensures ObserveFrames(t, decode, frames) == ObserveAll(t, Decoded(decode, ParseFrames(frames)))
    decreases |frames|
  {
    if frames != [] {
      var first, rest := ParseFrame(frames[0]), ParseFrames(frames[1..]);
      FramesAreEvents(ObserveFrame(t, decode, frames[0]), decode, frames[1..]);
      DecodedConcat(decode, first, rest);
      ObserveConcat(t, Decoded(decode, first), Decoded(decode, rest));
    }
  }

  /** Printing events, joining the text, cutting it anywhere and feeding the pieces: the tracker has
      observed exactly those events, and nothing is left in its buffer. */
  lemma PrintedStreamIsTracked(rs: seq<Raw>, chunks: seq<string>, decode: Raw -> Event)
    requires forall k :: 0 <= k < |rs| ==> Printable(rs[k])
    requires Concat(chunks) == PrintAll(rs)
    ensures FeedChunks("", chunks).rest == ""
    ensures ObserveFrames(NewTracker, decode, FeedChunks("", chunks).frames) == Track(Decoded(decode, rs))
  {
    PrintedStreamReadsBack(rs, chunks);
    FramesAreEvents(NewTracker, decode, FeedChunks("", chunks).frames);
    ObserveIsTrack(Decoded(decode, rs));
  }

  lemma FrameUnroll(t: Tracker, decode: Raw -> Event, buffer: string, i: nat)
    requires FindBreak(buffer) == Some(i)
    ensures Drain(buffer).rest == Drain(buffer[i + 2..]).rest
    ensures ObserveFrames(t, decode, Drain(buffer).frames) ==
            ObserveFrames(ObserveFrame(t, decode, buffer[..i]), decode, Drain(buffer[i + 2..]).frames)
  {
    DrainUnroll(buffer, i);
    var frames := Drain(buffer).frames;
    assert frames[0] == buffer[..i] && frames[1..] == Drain(buffer[i + 2..]).frames;
  }

  lemma {:induction false} ObserveFramesConcat(t: Tracker, decode: Raw -> Event, a: seq<string>, b: seq<string>)
    ensures ObserveFrames(t, decode, a + b) == ObserveFrames(ObserveFrames(t, decode, a), decode, b)
    decreases |a|
  {
    if a == [] {
      assert a + b == b;
    } else {
      assert (a + b)[0] == a[0] && (a + b)[1..] == a[1..] + b;
      ObserveFramesConcat(ObserveFrame(t, decode, a[0]), decode, a[1..], b);
    }
  }

  lemma ChunkUnroll(t: Tracker, decode: Raw -> Event, buffer: string, chunks: seq<string>, n: nat)
    requires n < |chunks|
    ensures var first := Drain(buffer + chunks[n]);
            var whole, rest := FeedChunks(buffer, chunks[n..]), FeedChunks(first.rest, chunks[n + 1..]);
            && whole.rest == rest.rest
            && ObserveFrames(t, decode, whole.frames) == ObserveFrames(ObserveFrames(t, decode, first.frames), decode, rest.frames)
  {
    assert chunks[n..] == [chunks[n]] + chunks[n + 1..];
    FeedUnroll(buffer, chunks[n], chunks[n + 1..]);
    var first := Drain(buffer + chunks[n]);
    ObserveFramesConcat(t, decode, first.frames, FeedChunks(first.rest, chunks[n + 1..]).frames);
  }

  lemma CloseUnroll(t: Tracker, sofar: seq<Event>, whole: Told)
    requires t.stack != [] && var rest := CloseUnclosed(t); whole == rest.(events := sofar + rest.events)
    ensures var index := t.stack[|t.stack| - 1];
            var rest := CloseUnclosed(t.(stack := t.stack[..|t.stack| - 1], blocks := Shut(t.blocks, index)));
            whole == rest.(events := sofar + [BlockStop(index)] + rest.events)
  {
    var index := t.stack[|t.stack| - 1];
    var rest := CloseUnclosed(t.(stack := t.stack[..|t.stack| - 1], blocks := Shut(t.blocks, index)));
    ConcatAssoc(sofar, [BlockStop(index)], rest.events);
  }

  class EmittedNativeSseTracker {
    var buf: string
    var openStack: seq<int>
    var maxIndex: int
    var blocks: Dict<int, EmittedBlock>
    var stopReason: Option<StopReason>
    var messageStopped: bool

    ghost function State(): Tracker
      reads this
    {
      Tracker(openStack, maxIndex, blocks, stopReason, messageStopped)
    }

    constructor ()
      ensures State() == NewTracker && buf == ""
    {
      buf, openStack, maxIndex, blocks, stopReason, messageStopped := "", [], -1, Dict([], map[]), None, false;
    }

    /** `_observe`. */
    method ObserveEvent(e: Event)
      modifies this
      ensures State() == Observe(old(State()), e) && buf == old(buf)
    {
      match e
      case BlockStart(index, block) =>
        maxIndex := Max(maxIndex, index);
        openStack := openStack + [index];
        blocks := blocks.Put(index, StartedBlock(block));
      case BlockDelta(index, delta) =>
        if index in blocks.at {
          var b := blocks.at[index];
          blocks := blocks.Put(index, b.(content := b.content + ContentIn(b.kind, delta)));
        }
      case BlockStop(index) =>
        if openStack != [] && openStack[|openStack| - 1] == index {
          openStack := openStack[..|openStack| - 1];
        } else {
          openStack := RemoveFirst(openStack, index);
        }
        blocks := Shut(blocks, index);
      case MessageDelta(reason) =>
        if reason.Some? {
          stopReason := reason;
        }
      case MessageStop =>
        messageStopped := true;
      case _ =>
    }

    method ObserveParsed(frame: string, decode: Raw -> Event)
      modifies this
      ensures State() == ObserveFrame(old(State()), decode, frame) && buf == old(buf)
    {
      if Text.Strip(frame) == "" {
        return;
      }
      var events := ParseSseLines(Text.SplitLines(frame));
      ghost var es := Decoded(decode, events);
      for k := 0 to |events|
        invariant buf == old(buf)
        invariant ObserveAll(old(State()), es) == ObserveAll(State(), Decoded(decode, events[k..]))
      {
        assert events[k..][0] == events[k] && events[k..][1..] == events[k + 1..];
        ghost var rest := Decoded(decode, events[k..]);
        assert rest[0] == decode(events[k]) && rest[1..] == Decoded(decode, events[k + 1..]);
        ObserveEvent(decode(events[k]));
      }
    }

    /** `feed`. */
    method Feed(chunk: string, decode: Raw -> Event)
      modifies this
      ensures var fed := Drain(old(buf) + chunk);
              buf == fed.rest && State() == ObserveFrames(old(State()), decode, fed.frames)
    {
      buf := buf + chunk;
      ghost var all := Drain(buf);
      while FindBreak(buf).Some?
        invariant Drain(buf).rest == all.rest
        invariant ObserveFrames(old(State()), decode, all.frames) == ObserveFrames(State(), decode, Drain(buf).frames)
        decreases |buf|
      {
        var sep := FindBreak(buf).value;
        FrameUnroll(State(), decode, buf, sep);
        var frame := buf[..sep];
        buf := buf[sep + 2..];
        ObserveParsed(frame, decode);
      }
      DrainNothing(buf);
    }

    /** Chunk by chunk, as the transport feeds it. */
    method FeedAll(chunks: seq<string>, decode: Raw -> Event)
      modifies this
      ensures var fed := FeedChunks(old(buf), chunks);
              buf == fed.rest && State() == ObserveFrames(old(State()), decode, fed.frames)
    {
      ghost var all := FeedChunks(buf, chunks);
      ghost var final := ObserveFrames(State(), decode, all.frames);
      for n := 0 to |chunks|
        invariant FeedChunks(buf, chunks[n..]).rest == all.rest
        invariant final == ObserveFrames(State(), decode, FeedChunks(buf, chunks[n..]).frames)
      {
        ChunkUnroll(State(), decode, buf, chunks, n);
        Feed(chunks[n], decode);
      }
    }

    /** `iter_close_unclosed_blocks`. */
    method CloseUnclosedBlocks() returns (out: seq<Event>)
      modifies this
      ensures Told(State(), out) == CloseUnclosed(old(State())) && buf == old(buf)
    {
      out := [];
      ghost var whole := CloseUnclosed(State());
      while openStack != []
        invariant buf == old(buf)
        invariant var rest := CloseUnclosed(State()); whole == rest.(events := out + rest.events)
        decreases |openStack|
      {
        CloseUnroll(State(), out, whole);
        var index := openStack[|openStack| - 1];
        openStack := openStack[..|openStack| - 1];
        blocks := Shut(blocks, index);
        out := out + [BlockStop(index)];
      }
    }

    /** `_last_open_block`. */
    method LastOpenBlock(kind: BlockKind) returns (r: Option<int>)
      ensures r == LastOpen(blocks, openStack, kind)
    {
      var n := |openStack|;
      assert openStack[..n] == openStack;
      while n > 0
        invariant 0 <= n <= |openStack|
        invariant LastOpen(blocks, openStack, kind) == LastOpen(blocks, openStack[..n], kind)
      {
        n := n - 1;
        assert openStack[..n + 1][..n] == openStack[..n];
        var index := openStack[n];
        if index in blocks.at && blocks.at[index].kind == kind && blocks.at[index].open {
          return Some(index);
        }
      }
      return None;
    }

    method AppendSuffixOf(kind: BlockKind, suffix: string) returns (out: seq<Event>)
      modifies this
      ensures Told(State(), out) == AppendSuffix(old(State()), kind, suffix) && buf == old(buf)
    {
      if suffix == "" {
        return [];
      }
      out := [];
      var active := LastOpenBlock(kind);
      var index;
      if active.Some? {
        index := active.value;
        var b := blocks.at[index];
        blocks := blocks.Put(index, b.(content := b.content + suffix));
      } else {
        index := maxIndex + 1;
        maxIndex := Max(maxIndex, index);
        blocks := blocks.Put(index, EmittedBlock(kind, true, "", "", suffix));
        openStack := openStack + [index];
        out := [BlockStart(index, EmptyBlock(kind))];
      }
      out := out + [BlockDelta(index, SuffixDelta(kind, suffix))];
    }

    /** `append_thinking_suffix` and then `append_text_suffix`. */
    method AppendContinuation(thinking: string, text: string) returns (out: seq<Event>)
      modifies this
      ensures Told(State(), out) == Continuation(old(State()), thinking, text)
    {
      var thought := AppendSuffixOf(ThinkingKind, thinking);
      var said := AppendSuffixOf(TextKind, text);
      out := thought + said;
    }

    /** `append_tool_repair_suffix`. */
    method AppendToolRepairSuffix(toolIndex: nat, suffix: string) returns (out: seq<Event>)
      modifies this
      ensures var tools := ToolOrder(old(blocks), old(blocks).keys);
              Told(State(), out) == if toolIndex >= |tools| then Told(old(State()), [])
                                    else assert tools[toolIndex] in tools; AppendRepair(old(State()), tools[toolIndex], suffix)
    {
      var tools := ToolOrder(blocks, blocks.keys);
      if toolIndex >= |tools| || suffix == "" {
        return [];
      }
      var index := tools[toolIndex];
      assert index in tools;
      var b := blocks.at[index];
      blocks := blocks.Put(index, b.(content := b.content + suffix));
      return [BlockDelta(index, InputJsonDelta(suffix))];
    }

    /** `can_salvage_tool_use`. */
    method CanSalvageToolUse(json: Json) returns (r: bool)
      ensures r == CanSalvage(json, State())
    {
      var tools := ToolOrder(blocks, blocks.keys);
      if tools == [] {
        return false;
      }
      for k := 0 to |tools|
        invariant forall j :: 0 <= j < k ==> Usable(json, blocks.at[tools[j]])
      {
        assert tools[k] in tools;
        var b := blocks.at[tools[k]];
        if b.toolId == "" || b.name == "" {
          return false;
        }
        if !json.Complete(b.content, b.name) {
          return false;
        }
      }
      return true;
    }

    /** `iter_success_tail`. */
    method SuccessTailEvents(reason: StopReason) returns (out: seq<Event>)
      modifies this
      ensures out == SuccessTail(old(State()), reason)
    {
      CloseUnclosedStops(State());
      out := CloseUnclosedBlocks();
      if stopReason.None? {
        out := out + [MessageDelta(Some(reason))];
      }
      if !messageStopped {
        out := out + [MessageStop];
      }
    }

    /** The open blocks' stops and `iter_midstream_error_tail`. */
    method ErrorTailEvents(message: string) returns (out: seq<Event>)
      modifies this
      ensures out == ErrorTail(old(State()), message)
    {
      CloseUnclosedStops(State());
      out := CloseUnclosedBlocks();
      var index := maxIndex + 1;
      out := out + [BlockStart(index, TextBlock("")), BlockDelta(index, TextDelta(message)), BlockStop(index)];
      out := out + [MessageDelta(Some(EndTurn)), MessageStop];
    }
  }
}
