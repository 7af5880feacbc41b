/** What a recovered OpenAI stream tells the client: complete tool arguments, a continued text, and
    no lost argument fragment (providers/openai_compat.py, core/anthropic/stream_recovery.py). */
module OpenAIRecovery {
  import opened OrderedDict
  import opened StreamContract
  import opened BlockState
  import opened JsonTexts
  import opened ToolCalls
  import opened ToolFragments
  import opened StreamRecovery
  import opened OpenAIStream
  import opened OpenAIContract
  import Text

  // ----- what stops and message events show: nothing -----

  predicate ShowsNothing(e: Event) {
    !e.BlockDelta?
  }

  lemma {:induction false} NoJsonShown(es: seq<Event>, more: seq<Event>, i: int)
    requires forall k :: 0 <= k < |more| ==> ShowsNothing(more[k])
    ensures ShownJson(es + more, i) == ShownJson(es, i)
    decreases |more|
  {
    if more == [] {
      assert es + more == es;
    } else {
      var init, last := more[..|more| - 1], more[|more| - 1];
      NoJsonShown(es, init, i);
      ShownSnocAt(es + init, last, i);
      ConcatAssoc(es, init, [last]);
      assert init + [last] == more;
    }
  }

  lemma {:induction false} NoTextShown(es: seq<Event>, more: seq<Event>)
    requires forall k :: 0 <= k < |more| ==> ShowsNothing(more[k])
    ensures ShownText(es + more) == ShownText(es) && ShownThinking(es + more) == ShownThinking(es)
    decreases |more|
  {
    if more == [] {
      assert es + more == es;
    } else {
      var init, last := more[..|more| - 1], more[|more| - 1];
      NoTextShown(es, init);
      ShownTextSnoc(es + init, last);
      ConcatAssoc(es, init, [last]);
      assert init + [last] == more;
    }
  }

  lemma CloseShowsNothing(b: Blocks)
    ensures forall e :: e in CloseAll(b).events ==> ShowsNothing(e)
  {
    StopsShowNothing(CloseContent(b).b.tools, CloseContent(b).b.tools.keys);
  }

  lemma StopsShowNothing(tools: Dict<int, ToolCallState>, order: seq<int>)
    ensures forall e :: e in ToolStops(tools, order) ==> ShowsNothing(e)
  {
  }

  // ----- tools -----

  /** The argument text the client has for tool `t` parses, as an object, and meets its schema. */
  predicate ShownComplete(json: Json, b: Blocks, es: seq<Event>, t: int)
    requires t in b.tools.at
  {
    json.Complete(ShownJson(es, b.tools.at[t].blockIndex), b.tools.at[t].name)
  }

  /** What `CloseRecovery` adds after the given events. */
  function RecoveryEnd(b: Blocks, reason: StopReason): seq<Event> {
    CloseAll(b).events + [MessageDelta(Some(reason)), MessageStop]
  }

  lemma RecoveryEndShowsNothing(b: Blocks, reason: StopReason)
    ensures forall e :: e in RecoveryEnd(b, reason) ==> ShowsNothing(e)
  {
    CloseShowsNothing(b);
  }

  lemma RecoveryParts(b: Blocks, es: seq<Event>, events: seq<Event>, reason: StopReason, answers: Answers)
    requires answers.estimate.Some?
    ensures es + CloseRecovery(b, events, reason, answers).events == es + events + RecoveryEnd(b, reason)
  {
  }

  /** A recovered run that ends with stop reason tool_use has shown, for every tool it started, a
      complete object that the schema of the tool's registered name accepts. */
  lemma ToolUseShowsComplete(json: Json, s: Session, es: seq<Event>, answers: Answers)
    requires Good(s.b, es) && Recover(json, s, answers).Recovered?
    requires MessageDelta(Some(ToolUse)) in Recover(json, s, answers).events
    ensures HasStartedTool(s.b)
    ensures forall t :: Live(s.b, t) ==> ShownComplete(json, s.b, es + Recover(json, s, answers).events, t)
  {
    if !HasStartedTool(s.b) {
      TextRecoveryIsNoToolUse(s.b, answers);
      assert false;
    }
    forall t | Live(s.b, t) ensures ShownComplete(json, s.b, es + Recover(json, s, answers).events, t) {
      RecoveredToolComplete(json, s, es, answers, t);
    }
  }

  lemma RecoveredToolComplete(json: Json, s: Session, es: seq<Event>, answers: Answers, t: int)
    requires Good(s.b, es) && Live(s.b, t) && RecoverTools(json, s, answers).Recovered?
    ensures ShownComplete(json, s.b, es + RecoverTools(json, s, answers).events, t)
  {
    var repairs := ToolRepairs(json, s, answers);
    ToolRepairsGood(json, s, es, answers);
    ToolRepairsShape(json, s, answers);
    RepairNames(json, s, s.b.tools.keys, answers.repairs);
    assert Live(repairs.b, t);
    RecoveryParts(repairs.b, es, repairs.events, ToolUse, answers);
    RecoveryEndShowsNothing(repairs.b, ToolUse);
    NoJsonShown(es + repairs.events, RecoveryEnd(repairs.b, ToolUse), s.b.tools.at[t].blockIndex);
  }

  lemma TextRecoveryIsNoToolUse(b: Blocks, answers: Answers)
    requires RecoverText(b, answers).Recovered?
    ensures MessageDelta(Some(ToolUse)) !in RecoverText(b, answers).events
  {
    var (text, thinking) := answers.continuation.value;
    var continued := Continue(b, text, thinking);
    CloseIsBlocks(continued.b);
    ContinueIsBlocks(b, text, thinking);
    NotAmongBlocks(continued.events, CloseAll(continued.b).events);
  }

  lemma NotAmongBlocks(more: seq<Event>, closes: seq<Event>)
    requires OnlyBlocks(more) && OnlyBlocks(closes)
    ensures MessageDelta(Some(ToolUse)) !in more + closes + [MessageDelta(Some(EndTurn)), MessageStop]
  {
    assert !IsBlockEvent(MessageDelta(Some(ToolUse)));
  }

  lemma CloseIsBlocks(b: Blocks)
    ensures OnlyBlocks(CloseAll(b).events)
  {
    ToolStopsOnlyBlocks(CloseContent(b).b.tools, CloseContent(b).b.tools.keys);
  }

  lemma ContinueIsBlocks(b: Blocks, text: string, thinking: string)
    ensures OnlyBlocks(Continue(b, text, thinking).events)
  {
    SayIsBlocks(b, Continued(b.reasoning, thinking));
    var thought := if Continued(b.reasoning, thinking) != "" then SayThinking(b, Continued(b.reasoning, thinking)) else Out(b, []);
    SayIsBlocks(thought.b, Continued(b.text, text));
  }

  lemma SayIsBlocks(b: Blocks, s: string)
    ensures OnlyBlocks(SayText(b, s).events) && OnlyBlocks(SayThinking(b, s).events)
  {
  }

  lemma {:induction false} RepairNames(json: Json, s: Session, order: seq<int>, repairs: RepairAnswers)
    ensures var r := RepairTools(json, s, order, repairs);
            r.b.tools.at.Keys == s.b.tools.at.Keys &&
            forall t :: t in s.b.tools.at ==> r.b.tools.at[t].name == s.b.tools.at[t].name
    decreases |order|
  {
    if order != [] {
      RepairNames(json, s, order[1..], repairs);
      if Live(s.b, order[0]) && RepairTool(json, s, order[0], repairs).Some? {
        RepairNames(json, s.(b := RepairTool(json, s, order[0], repairs).value.b), order[1..], repairs);
      }
    }
  }

  // ----- text -----

  /** A continued stream shows the text and the thinking it had shown, then exactly the new suffixes. */
  lemma RecoveredTextContinues(json: Json, s: Session, es: seq<Event>, answers: Answers)
    requires Good(s.b, es) && !HasStartedTool(s.b) && Recover(json, s, answers).Recovered?
    ensures var all := es + Recover(json, s, answers).events;
            var (text, thinking) := answers.continuation.value;
            && ShownText(all) == ShownText(es) + Continued(ShownText(es), text)
            && ShownThinking(all) == ShownThinking(es) + Continued(ShownThinking(es), thinking)
  {
    var (text, thinking) := answers.continuation.value;
    var continued := Continue(s.b, text, thinking);
    ContinueGood(s.b, es, text, thinking);
    ContinueAccumulates(s.b, text, thinking);
    RecoveryParts(continued.b, es, continued.events, EndTurn, answers);
    RecoveryEndShowsNothing(continued.b, EndTurn);
    NoTextShown(es + continued.events, RecoveryEnd(continued.b, EndTurn));
  }

  lemma ContinueAccumulates(b: Blocks, text: string, thinking: string)
    ensures Continue(b, text, thinking).b.text == b.text + Continued(b.text, text)
    ensures Continue(b, text, thinking).b.reasoning == b.reasoning + Continued(b.reasoning, thinking)
  {
  }

  // ----- names and arguments -----

  /** The fragments an attempt's chunks address to tool `t`. */
  function AddressedIn(json: Json, thinking: bool, s: Session, chunks: seq<Chunk>, t: int): seq<Fragment>
    decreases |chunks|
  {
    if chunks == [] then []
    else
      var turn := ProcessChunk(json, thinking, s, chunks[0]);
      Addressed(json, s.(b := ProcessContent(json, thinking, s.b, chunks[0]).b), chunks[0].calls, t)
      + (if turn.raised then [] else AddressedIn(json, thinking, turn.s, chunks[1..], t))
  }

  /** The fragments an attempt addresses to tool `t`. */
  function Fragments(json: Json, thinking: bool, a: Attempt, t: int): seq<Fragment> {
    if a.Opened? then AddressedIn(json, thinking, NewSession, a.chunks, t) else []
  }

  lemma ChunkFollows(json: Json, thinking: bool, s: Session, es: seq<Event>, frags: seq<Fragment>, chunk: Chunk, t: int)
    requires Follows(json, s, es, frags, t)
    ensures var turn := ProcessChunk(json, thinking, s, chunk);
            var own := Addressed(json, s.(b := ProcessContent(json, thinking, s.b, chunk).b), chunk.calls, t);
            Follows(json, turn.s, es + turn.events, frags + own, t)
  {
    var content := ProcessContent(json, thinking, s.b, chunk);
    var s1 := s.(b := content.b);
    ContentKeepsTools(json, thinking, s.b, chunk);
    assert Follows(json, s1, es + content.events, frags, t);
    CallsFollow(json, s1, es + content.events, frags, chunk.calls, t);
    ConcatAssoc(es, content.events, ProcessToolCalls(json, s1, chunk.calls).events);
  }

  /** The tools of a stream do not disturb each other, nor does its text: at any point, and even after an
      exception, each is what its own fragments make of it. */
  lemma {:induction false} ChunksFollow(json: Json, thinking: bool, s: Session, es: seq<Event>, frags: seq<Fragment>, chunks: seq<Chunk>, t: int)
    requires Follows(json, s, es, frags, t)
    ensures var turn := ProcessChunks(json, thinking, s, chunks);
            Follows(json, turn.s, es + turn.events, frags + AddressedIn(json, thinking, s, chunks, t), t)
    decreases |chunks|
  {
    if chunks == [] {
      ConcatEmpty(es);
      ConcatEmpty(frags);
    } else {
      var first := ProcessChunk(json, thinking, s, chunks[0]);
      var own := Addressed(json, s.(b := ProcessContent(json, thinking, s.b, chunks[0]).b), chunks[0].calls, t);
      ChunkFollows(json, thinking, s, es, frags, chunks[0], t);
      ConcatEmpty(own);
      if !first.raised {
        ChunksFollow(json, thinking, first.s, es + first.events, frags + own, chunks[1..], t);
        ConcatAssoc(es, first.events, ProcessChunks(json, thinking, first.s, chunks[1..]).events);
        ConcatAssoc(frags, own, AddressedIn(json, thinking, first.s, chunks[1..], t));
      }
    }
  }

  lemma AttemptFollows(json: Json, thinking: bool, a: Attempt, t: int)
    ensures var turn := AttemptTurn(json, thinking, a);
            Follows(json, turn.s, turn.events, Fragments(json, thinking, a, t), t)
  {
    NewFollows(json, t);
    if a.Opened? {
      ChunksFollow(json, thinking, NewSession, [], [], a.chunks, t);
      ConcatEmpty(AttemptTurn(json, thinking, a).events);
      ConcatEmpty(Fragments(json, thinking, a, t));
    }
  }

  /** For a tool that, once it has a name, is never a Task nor aliased, the argument text shown for its
      block is the concatenation of every fragment received for it, in order, those before its name
      included, wherever the attempt stops; while its block has not started, the fragments all wait. */
  lemma ArgumentsConserved(json: Json, thinking: bool, a: Attempt, t: int)
    requires Plain(json, Fragments(json, thinking, a, t))
    ensures var turn := AttemptTurn(json, thinking, a);
            var received := Args(Fragments(json, thinking, a, t));
            if Live(turn.s.b, t) then ShownJson(turn.events, turn.s.b.tools.at[t].blockIndex) == received
            else ToolAt(turn.s.b, t).preStartArgs == received
  {
    AttemptSound(json, thinking, a);
    AttemptFollows(json, thinking, a, t);
    PlainIsPassedOn(json, Fragments(json, thinking, a, t));
  }

  /** A block starts once. */
  lemma OneStart(es: seq<Event>, i: int, x: ContentBlock, y: ContentBlock)
    requires Run(Fresh, es).ok && BlockStart(i, x) in es && BlockStart(i, y) in es
    ensures x == y
  {
    RunDescribes(es);
    var p :| 0 <= p < |es| && es[p] == BlockStart(i, x);
    var q :| 0 <= q < |es| && es[q] == BlockStart(i, y);
    assert p == q;
  }

  /** The client is shown a tool once, with the last id sent by then and under the first name it registers,
      outer white space off; this is the name by which the tool goes from then on exactly when that had no
      outer white space and no later fragment made it longer. */
  lemma NamesAgree(json: Json, thinking: bool, a: Attempt, t: int)
    requires Live(AttemptTurn(json, thinking, a).s.b, t)
    ensures var turn, frags := AttemptTurn(json, thinking, a), Fragments(json, thinking, a, t);
            var state := turn.s.b.tools.at[t];
            && (forall block :: BlockStart(state.blockIndex, block) in turn.events <==> block == FirstBlock(frags))
            && (forall name :: StartedAs(turn.events, state.blockIndex, name) <==> name == Text.Strip(FirstName(frags)))
            && (StartedAs(turn.events, state.blockIndex, state.name) <==> Text.NoOuterSpace(FirstName(frags)) && Steady(frags))
  {
    var turn, frags := AttemptTurn(json, thinking, a), Fragments(json, thinking, a, t);
    var i := turn.s.b.tools.at[t].blockIndex;
    AttemptSound(json, thinking, a);
    AttemptFollows(json, thinking, a, t);
    ShownIsRegistered(frags);
    forall block | BlockStart(i, block) in turn.events ensures block == FirstBlock(frags) {
      OneStart(turn.events, i, block, FirstBlock(frags));
    }
  }

  // ----- a recovered stream that ends in tool_use -----

  /** What the client has of a tool's block: arguments that are complete under the name registered at
      last; and complete under the name shown exactly when the two agree, or by its own schema. */
  ghost predicate CompleteAsShown(json: Json, out: seq<Event>, i: int, frags: seq<Fragment>) {
    var shown, name := ShownJson(out, i), Text.Strip(FirstName(frags));
    && StartedAs(out, i, name)
    && json.Complete(shown, Named(frags))
    && (json.Complete(shown, name) <==> (Text.NoOuterSpace(FirstName(frags)) && Steady(frags)) || json.valid(name, shown))
  }

  lemma ErrorTailIsNoToolUse(b: Blocks, message: string)
    ensures MessageDelta(Some(ToolUse)) !in ErrorTail(b, message)
  {
    CloseIsBlocks(b);
    assert !IsBlockEvent(MessageDelta(Some(ToolUse)));
  }

  lemma OnlyRecoveryIsToolUse(json: Json, s: Session, es: seq<Event>, retryable: bool, answers: Answers, message: string)
    requires OnlyBlocks(es) && MessageDelta(Some(ToolUse)) in es + FailureTail(json, s, retryable, answers, message)
    ensures Recover(json, s, answers).Recovered? && FailureTail(json, s, retryable, answers, message) == Recover(json, s, answers).events
    ensures MessageDelta(Some(ToolUse)) in Recover(json, s, answers).events
  {
    assert !IsBlockEvent(MessageDelta(Some(ToolUse)));
    ErrorTailIsNoToolUse(s.b, message);
    if !Recover(json, s, answers).Recovered? {
      ErrorTailIsNoToolUse(Recover(json, s, answers).b, message);
    }
  }

  /** A failed attempt that ends with stop reason tool_use has started a tool, and for every tool it
      started has shown complete arguments, by the schema of the name registered at last. */
  lemma ToolUseMeansComplete(json: Json, thinking: bool, a: Attempt, answers: Answers, message: string)
    requires AttemptOutcome(json, thinking, a).Failed?
    requires MessageDelta(Some(ToolUse)) in AttemptOutput(json, thinking, a, answers, message)
    ensures var b := AttemptTurn(json, thinking, a).s.b;
            && HasStartedTool(b)
            && forall t :: Live(b, t) ==>
                 CompleteAsShown(json, AttemptOutput(json, thinking, a, answers, message),
                                 b.tools.at[t].blockIndex, Fragments(json, thinking, a, t))
  {
    var turn := AttemptTurn(json, thinking, a);
    AttemptSound(json, thinking, a);
    OnlyRecoveryIsToolUse(json, turn.s, turn.events, AttemptOutcome(json, thinking, a).retryable, answers, message);
    ToolUseShowsComplete(json, turn.s, turn.events, answers);
    forall t | Live(turn.s.b, t)
      ensures CompleteAsShown(json, AttemptOutput(json, thinking, a, answers, message),
                              turn.s.b.tools.at[t].blockIndex, Fragments(json, thinking, a, t))
    {
      var frags := Fragments(json, thinking, a, t);
      AttemptFollows(json, thinking, a, t);
      ShownIsRegistered(frags);
      MoreShown(turn.events, Recover(json, turn.s, answers).events, turn.s.b.tools.at[t].blockIndex, Text.Strip(FirstName(frags)));
    }
  }
}
