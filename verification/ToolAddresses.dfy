/** Which tool a streamed call is for, read off the calls alone
    (providers/openai_compat.py, the start of `_process_tool_call`). */
module ToolAddresses {
  import opened OrderedDict
  import opened StreamContract
  import opened BlockState
  import opened JsonTexts
  import opened ToolCalls
  import opened ToolFragments
  import opened OpenAIStream
  import opened OpenAIContract
  import opened OpenAIRecovery
  import opened OpenAIArguments
  import Text

  // ----- from the calls alone -----

  /** The call says something of its tool, so that the tool is known from then on. */
  predicate Says(tc: ToolCall) {
    tc.ToolCall? && ((tc.id.Some? && tc.id.value != "") || tc.name.Some? || tc.arguments != "")
  }

  /** The tool a call is for: its index, 0 if it has none, or, when that is negative, as many tools as the
      calls before it have said something of. */
  function Goes(before: seq<ToolCall>, tc: ToolCall): int
    requires tc.ToolCall?
    decreases before, 1
  {
    match tc.index
    case None => 0
    case Some(i) => if i >= 0 then i else |KnownFrom(before)|
  }

  function KnownFrom(calls: seq<ToolCall>): set<int>
    decreases calls, 0
  {
    if calls == [] then {}
    else
      var init, last := calls[..|calls| - 1], calls[|calls| - 1];
      KnownFrom(init) + if Says(last) then {Goes(init, last)} else {}
  }

  /** What the calls say of tool `t`. */
  function SaidBy(calls: seq<ToolCall>, t: int): seq<Fragment> {
    if calls == [] then []
    else
      var init, last := calls[..|calls| - 1], calls[|calls| - 1];
      SaidBy(init, t) + if last.ToolCall? && Goes(init, last) == t then [Said(last)] else []
  }

  /** What the calls with index `t` say; a missing index is 0. */
  function WithIndex(calls: seq<ToolCall>, t: int): seq<Fragment> {
    if calls == [] then []
    else
      var last := calls[|calls| - 1];
      WithIndex(calls[..|calls| - 1], t)
      + if last.ToolCall? && (last.index == Some(t) || (last.index.None? && t == 0)) then [Said(last)] else []
  }

  predicate NoneNegative(calls: seq<ToolCall>) {
    forall k :: 0 <= k < |calls| && calls[k].ToolCall? && calls[k].index.Some? ==> calls[k].index.value >= 0
  }

  lemma {:induction false} SaidWithIndex(calls: seq<ToolCall>, t: int)
    requires NoneNegative(calls)
    ensures SaidBy(calls, t) == WithIndex(calls, t)
    decreases |calls|
  {
    if calls != [] {
      var init := calls[..|calls| - 1];
      assert forall k :: 0 <= k < |init| ==> init[k] == calls[k];
      SaidWithIndex(init, t);
    }
  }

  lemma SaidSnoc(calls: seq<ToolCall>, tc: ToolCall, t: int)
    ensures KnownFrom(calls + [tc]) == KnownFrom(calls) + if Says(tc) then {Goes(calls, tc)} else {}
    ensures SaidBy(calls + [tc], t) ==
            SaidBy(calls, t) + if tc.ToolCall? && Goes(calls, tc) == t then [Said(tc)] else []
  {
    assert (calls + [tc])[..|calls|] == calls;
  }

  /** The calls of an attempt, in order. */
  function AllCalls(chunks: seq<Chunk>): seq<ToolCall> {
    if chunks == [] then [] else chunks[0].calls + AllCalls(chunks[1..])
  }

  // ----- the stream sends them there -----

  /** The tools the session knows are those the calls read said something of. */
  ghost predicate Knows(s: Session, read: seq<ToolCall>) {
    s.b.tools.Valid() && forall t :: t in s.b.tools.at <==> t in KnownFrom(read)
  }

  lemma {:induction false} KeysCount(keys: seq<int>, known: set<int>)
    requires Distinct(keys) && forall k :: k in keys <==> k in known
    ensures |keys| == |known|
    decreases |keys|
  {
    if keys == [] {
      assert forall k :: k !in known;
      assert known == {};
    } else {
      assert keys == [keys[0]] + keys[1..] && keys[0] !in keys[1..];
      KeysCount(keys[1..], known - {keys[0]});
    }
  }

  /** The keys are those before, and `t` if it is `more`. */
  ghost predicate Adds(before: Dict<int, ToolCallState>, after: Dict<int, ToolCallState>, t: int, more: bool) {
    after.Valid() && forall u :: u in after.at <==> u in before.at || (more && u == t)
  }

  lemma NoteKeys(b: Blocks, t: int, tc: ToolCall)
    requires b.tools.Valid() && tc.ToolCall?
    ensures Adds(b.tools, Note(b, t, tc).tools, t, (tc.id.Some? && tc.id.value != "") || tc.name.Some?)
  {
  }

  lemma CallKeys(json: Json, s: Session, tc: ToolCall)
    requires s.b.tools.Valid() && tc.ToolCall?
    ensures Adds(s.b.tools, ProcessToolCall(json, s, tc).s.b.tools, ResolveIndex(s.b, tc), Says(tc))
  {
    var t := ResolveIndex(s.b, tc);
    var noted := s.(b := Note(s.b, t, tc));
    NoteKeys(s.b, t, tc);
    if !Live(noted.b, t) && HasInk(ToolAt(noted.b, t).name) {
      StartKeys(json, noted, t, tc);
    } else {
      TakeKeys(json, noted, t, tc.arguments);
    }
  }

  lemma StartKeys(json: Json, s: Session, t: int, tc: ToolCall)
    requires s.b.tools.Valid() && tc.ToolCall? && !Live(s.b, t) && t in s.b.tools.at
    ensures var begun := Begin(json, s, t, tc.freshId);
            && Adds(s.b.tools, begun.s.b.tools, t, false)
            && Adds(s.b.tools, TakeArguments(json, begun.s, t, tc.arguments).s.b.tools, t, false)
  {
    BeginKeys(json, s, t, tc.freshId);
    TakeKeys(json, Begin(json, s, t, tc.freshId).s, t, tc.arguments);
  }

  lemma EmitArgKeys(json: Json, s: Session, t: int, args: string)
    requires s.b.tools.Valid() && t in s.b.tools.at
    ensures Adds(s.b.tools, EmitArg(json, s, t, args).s.b.tools, t, false)
  {
  }

  lemma BeginKeys(json: Json, s: Session, t: int, freshId: string)
    requires s.b.tools.Valid() && t in s.b.tools.at
    ensures Adds(s.b.tools, Begin(json, s, t, freshId).s.b.tools, t, false)
  {
    var state := s.b.tools.at[t];
    var out := StartTool(SetTool(s.b, t, state.(preStartArgs := "")), t,
                         if state.toolId != "" then state.toolId else freshId, Text.Strip(state.name));
    EmitArgKeys(json, s.(b := out.b), t, state.preStartArgs);
  }

  lemma TakeKeys(json: Json, s: Session, t: int, args: string)
    requires s.b.tools.Valid()
    ensures Adds(s.b.tools, TakeArguments(json, s, t, args).s.b.tools, t, args != "")
  {
    if args != "" && Live(s.b, t) {
      EmitArgKeys(json, s, t, args);
    }
  }

  lemma CallGoes(json: Json, s: Session, read: seq<ToolCall>, tc: ToolCall)
    requires Knows(s, read)
    ensures tc.ToolCall? ==> ResolveIndex(s.b, tc) == Goes(read, tc)
    ensures Knows(ProcessToolCall(json, s, tc).s, read + [tc])
  {
    KeysCount(s.b.tools.keys, KnownFrom(read));
    SaidSnoc(read, tc, 0);
    if tc.ToolCall? {
      CallKeys(json, s, tc);
    }
  }

  /** The calls that are read: all, or those up to the one that raises. */
  function Read(json: Json, s: Session, calls: seq<ToolCall>): seq<ToolCall>
    decreases |calls|
  {
    if calls == [] then []
    else
      var first := ProcessToolCall(json, s, calls[0]);
      [calls[0]] + if first.raised then [] else Read(json, first.s, calls[1..])
  }

  /** `own` is what `more` says of tool `t` after the calls `read`, and the session knows them all. */
  ghost predicate Went(s: Session, read: seq<ToolCall>, more: seq<ToolCall>, own: seq<Fragment>, t: int) {
    Knows(s, read + more) && SaidBy(read + more, t) == SaidBy(read, t) + own
  }

  lemma WentOn(s1: Session, s2: Session, read: seq<ToolCall>, a: seq<ToolCall>, b: seq<ToolCall>,
               x: seq<Fragment>, y: seq<Fragment>, t: int)
    requires Went(s1, read, a, x, t) && Went(s2, read + a, b, y, t)
    ensures Went(s2, read, a + b, x + y, t)
  {
    ConcatAssoc(read, a, b);
    ConcatAssoc(SaidBy(read, t), x, y);
  }

  lemma WentNowhere(s: Session, read: seq<ToolCall>, t: int)
    requires Knows(s, read)
    ensures Went(s, read, [], [], t)
  {
    ConcatEmpty(read);
    ConcatEmpty(SaidBy(read, t));
  }

  /** One call, and what it says of tool `t`. */
  lemma CallWent(json: Json, s: Session, read: seq<ToolCall>, tc: ToolCall, t: int)
    requires Knows(s, read)
    ensures Went(ProcessToolCall(json, s, tc).s, read, [tc],
                 if tc.ToolCall? && ResolveIndex(s.b, tc) == t then [Said(tc)] else [], t)
  {
    CallGoes(json, s, read, tc);
    SaidSnoc(read, tc, t);
  }

  lemma {:induction false} CallsWent(json: Json, s: Session, read: seq<ToolCall>, calls: seq<ToolCall>, t: int)
    requires Knows(s, read)
    ensures Went(ProcessToolCalls(json, s, calls).s, read, Read(json, s, calls), Addressed(json, s, calls, t), t)
    decreases |calls|
  {
    if calls == [] {
      WentNowhere(s, read, t);
    } else {
      var first := ProcessToolCall(json, s, calls[0]);
      var own := if calls[0].ToolCall? && ResolveIndex(s.b, calls[0]) == t then [Said(calls[0])] else [];
      CallWent(json, s, read, calls[0], t);
      ConcatEmpty(own);
      ConcatEmpty([calls[0]]);
      if !first.raised {
        CallsWent(json, first.s, read + [calls[0]], calls[1..], t);
        WentOn(first.s, ProcessToolCalls(json, first.s, calls[1..]).s, read, [calls[0]], Read(json, first.s, calls[1..]),
               own, Addressed(json, first.s, calls[1..], t), t);
      }
    }
  }

  /** The calls of the chunks that are read. */
  function ReadIn(json: Json, thinking: bool, s: Session, chunks: seq<Chunk>): seq<ToolCall>
    decreases |chunks|
  {
    if chunks == [] then []
    else
      var turn := ProcessChunk(json, thinking, s, chunks[0]);
      Read(json, s.(b := ProcessContent(json, thinking, s.b, chunks[0]).b), chunks[0].calls)
      + if turn.raised then [] else ReadIn(json, thinking, turn.s, chunks[1..])
  }

  lemma ChunkWent(json: Json, thinking: bool, s: Session, read: seq<ToolCall>, chunk: Chunk, t: int)
    requires Knows(s, read)
    ensures var s1 := s.(b := ProcessContent(json, thinking, s.b, chunk).b);
            Went(ProcessChunk(json, thinking, s, chunk).s, read, Read(json, s1, chunk.calls), Addressed(json, s1, chunk.calls, t), t)
  {
    ContentKeepsTools(json, thinking, s.b, chunk);
    CallsWent(json, s.(b := ProcessContent(json, thinking, s.b, chunk).b), read, chunk.calls, t);
  }

  lemma {:induction false} ChunksWent(json: Json, thinking: bool, s: Session, read: seq<ToolCall>, chunks: seq<Chunk>, t: int)
    requires Knows(s, read)
    ensures Went(ProcessChunks(json, thinking, s, chunks).s, read, ReadIn(json, thinking, s, chunks),
                 AddressedIn(json, thinking, s, chunks, t), t)
    decreases |chunks|
  {
    if chunks == [] {
      WentNowhere(s, read, t);
    } else {
      var s1, turn := s.(b := ProcessContent(json, thinking, s.b, chunks[0]).b), ProcessChunk(json, thinking, s, chunks[0]);
      var more, own := Read(json, s1, chunks[0].calls), Addressed(json, s1, chunks[0].calls, t);
      ChunkWent(json, thinking, s, read, chunks[0], t);
      ConcatEmpty(own);
      ConcatEmpty(more);
      if !turn.raised {
        ChunksWent(json, thinking, turn.s, read + more, chunks[1..], t);
        WentOn(turn.s, ProcessChunks(json, thinking, turn.s, chunks[1..]).s, read, more, ReadIn(json, thinking, turn.s, chunks[1..]),
               own, AddressedIn(json, thinking, turn.s, chunks[1..], t), t);
      }
    }
  }

  // ----- how far the calls are read -----

  /** A call that cannot be read, or that leaves its tool with Task arguments that are JSON but no object. */
  predicate Raising(json: Json, read: seq<ToolCall>, s: Session)
    requires read != []
  {
    var init, last := read[..|read| - 1], read[|read| - 1];
    last.ToolCall? ==> json.parse(StrandOf(s, Goes(init, last)).taskBuffer).NotObject?
  }

  /** All calls are read, and none cannot be; or the last one read raises. */
  ghost predicate ReadUpTo(json: Json, read: seq<ToolCall>, more: seq<ToolCall>, calls: seq<ToolCall>, turn: Turn) {
    && more <= calls
    && (if turn.raised then more != [] && Raising(json, read + more, turn.s)
        else more == calls && forall tc :: tc in calls ==> tc.ToolCall?)
  }

  lemma {:induction false} CallsRaise(json: Json, s: Session, read: seq<ToolCall>, calls: seq<ToolCall>)
    requires Knows(s, read)
    ensures ReadUpTo(json, read, Read(json, s, calls), calls, ProcessToolCalls(json, s, calls))
    decreases |calls|
  {
    if calls != [] {
      var first := ProcessToolCall(json, s, calls[0]);
      CallGoes(json, s, read, calls[0]);
      if first.raised {
        CallRaisingIs(json, s, read, calls[0]);
        assert [calls[0]] <= calls;
      } else {
        CallsRaise(json, first.s, read + [calls[0]], calls[1..]);
        ReadStep(json, read, calls[0], Read(json, first.s, calls[1..]), calls[1..], ProcessToolCalls(json, first.s, calls[1..]));
        assert calls == [calls[0]] + calls[1..];
      }
    }
  }

  lemma CallRaisingIs(json: Json, s: Session, read: seq<ToolCall>, tc: ToolCall)
    requires Knows(s, read) && ProcessToolCall(json, s, tc).raised
    ensures Raising(json, read + [tc], ProcessToolCall(json, s, tc).s)
  {
    assert (read + [tc])[..|read|] == read;
    CallGoes(json, s, read, tc);
    if tc.ToolCall? {
      CallRaises(json, s, tc);
    }
  }

  lemma ReadStep(json: Json, read: seq<ToolCall>, tc: ToolCall, more: seq<ToolCall>, rest: seq<ToolCall>, turn: Turn)
    requires tc.ToolCall? && ReadUpTo(json, read + [tc], more, rest, turn)
    ensures ReadUpTo(json, read, [tc] + more, [tc] + rest, turn)
  {
    ConcatAssoc(read, [tc], more);
  }

  lemma {:induction false} ChunksRaise(json: Json, thinking: bool, s: Session, read: seq<ToolCall>, chunks: seq<Chunk>)
    requires Knows(s, read)
    ensures ReadUpTo(json, read, ReadIn(json, thinking, s, chunks), AllCalls(chunks), ProcessChunks(json, thinking, s, chunks))
    decreases |chunks|
  {
    if chunks != [] {
      var s1, turn := s.(b := ProcessContent(json, thinking, s.b, chunks[0]).b), ProcessChunk(json, thinking, s, chunks[0]);
      var more := Read(json, s1, chunks[0].calls);
      ContentKeepsTools(json, thinking, s.b, chunks[0]);
      CallsRaise(json, s1, read, chunks[0].calls);
      ConcatEmpty(more);
      if !turn.raised {
        ChunkWent(json, thinking, s, read, chunks[0], 0);
        ChunksRaise(json, thinking, turn.s, read + more, chunks[1..]);
        ReadAfter(json, read, more, ReadIn(json, thinking, turn.s, chunks[1..]), AllCalls(chunks[1..]),
                  ProcessChunks(json, thinking, turn.s, chunks[1..]));
      }
    }
  }

  lemma ReadAfter(json: Json, read: seq<ToolCall>, a: seq<ToolCall>, more: seq<ToolCall>, rest: seq<ToolCall>, turn: Turn)
    requires (forall tc :: tc in a ==> tc.ToolCall?) && ReadUpTo(json, read + a, more, rest, turn)
    ensures ReadUpTo(json, read, a + more, a + rest, turn)
  {
    ConcatAssoc(read, a, more);
  }

  // ----- whole attempts -----

  /** Every call reaches its own tool. The calls of an attempt are read in order, all of them, or up to one
      that raises: one without its function record, or one that leaves Task arguments that are JSON but no
      object. The fragments of a tool are what the calls read with its own index say, in order, a missing
      index being 0; a negative index goes to as many tools as were known before it. */
  lemma CallsReachTheirTools(json: Json, thinking: bool, a: Attempt, t: int)
    requires a.Opened?
    ensures var read, turn, frags := ReadIn(json, thinking, NewSession, a.chunks), AttemptTurn(json, thinking, a), Fragments(json, thinking, a, t);
            && read <= AllCalls(a.chunks)
            && (turn.raised ==> read != [] && Raising(json, read, turn.s))
            && (!turn.raised ==> read == AllCalls(a.chunks) && forall tc :: tc in read ==> tc.ToolCall?)
            && frags == SaidBy(read, t)
            && (NoneNegative(read) ==> frags == WithIndex(read, t))
  {
    var read := ReadIn(json, thinking, NewSession, a.chunks);
    assert Knows(NewSession, []);
    ChunksWent(json, thinking, NewSession, [], a.chunks, t);
    ChunksRaise(json, thinking, NewSession, [], a.chunks);
    ConcatEmpty(read);
    ConcatEmpty(Fragments(json, thinking, a, t));
    if NoneNegative(read) {
      SaidWithIndex(read, t);
    }
  }

  /** What a tool's calls say is shown, at a normal end, as one block of its own. */
  ghost predicate ShownAlone(json: Json, out: seq<Event>, i: int, frags: seq<Fragment>) {
    BlockStart(i, FirstBlock(frags)) in out && (Plain(json, frags) ==> ShownJson(out, i) == Args(frags))
  }

  lemma PlainEnd(json: Json, frags: seq<Fragment>)
    requires Plain(json, frags) && HasInk(Named(frags))
    ensures Assembled(json, frags).shown + FlushEnd(json, Named(frags), Assembled(json, frags)) == Args(frags)
  {
    PlainIsPassedOn(json, frags);
    assert frags[..|frags|] == frags;
    ConcatEmpty(Args(frags));
  }

  lemma OwnBlock(json: Json, thinking: bool, a: Attempt, answers: Answers, message: string, t: int)
    requires json.parse("").NotJson? && AttemptOutcome(json, thinking, a).Finished? && NoneNegative(AllCalls(a.chunks))
    requires HasInk(Named(WithIndex(AllCalls(a.chunks), t)))
    ensures var s, out := AttemptTurn(json, thinking, a).s, AttemptOutput(json, thinking, a, answers, message);
            Live(s.b, t) && ShownAlone(json, out, s.b.tools.at[t].blockIndex, WithIndex(AllCalls(a.chunks), t))
  {
    var frags := WithIndex(AllCalls(a.chunks), t);
    CallsReachTheirTools(json, thinking, a, t);
    AttemptFollows(json, thinking, a, t);
    ShownArguments(json, thinking, a, answers, message, t);
    if Plain(json, frags) {
      PlainEnd(json, frags);
    }
  }

  /** Calls with different indices, interleaved as they like, are two tools to the client: each has a block
      of its own, under its own id and name, with its own arguments. */
  lemma ParallelCalls(json: Json, thinking: bool, a: Attempt, answers: Answers, message: string, i: int, j: int)
    requires json.parse("").NotJson? && AttemptOutcome(json, thinking, a).Finished? && NoneNegative(AllCalls(a.chunks))
    requires i != j && HasInk(Named(WithIndex(AllCalls(a.chunks), i))) && HasInk(Named(WithIndex(AllCalls(a.chunks), j)))
    ensures exists x, y :: x != y
              && ShownAlone(json, AttemptOutput(json, thinking, a, answers, message), x, WithIndex(AllCalls(a.chunks), i))
              && ShownAlone(json, AttemptOutput(json, thinking, a, answers, message), y, WithIndex(AllCalls(a.chunks), j))
  {
    AttemptSound(json, thinking, a);
    OwnBlock(json, thinking, a, answers, message, i);
    OwnBlock(json, thinking, a, answers, message, j);
    var b := AttemptTurn(json, thinking, a).s.b;
    assert b.tools.at[i].blockIndex != b.tools.at[j].blockIndex;
  }
}
