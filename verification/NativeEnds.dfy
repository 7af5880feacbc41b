/** How a failed native stream ends: with which stop reason, and what tool_use then means
    (providers/anthropic_messages.py, `_native_recovery_events`). */
module NativeEnds {
  import opened OrderedDict
  import opened StreamContract
  import opened BlockState
  import opened JsonTexts
  import opened StreamRecovery
  import opened EmittedTracker
  import opened NativePolicy
  import opened NativeContent
  import opened NativeRecovery
  import opened NativeStream

  // ----- what the tracker knows of a block is how it was started -----

  /** Block `i` was last started at position `k`. */
  predicate LastStart(es: seq<Event>, k: int, i: int) {
    StartsAt(es, k, i) && forall q :: k < q < |es| ==> !StartsAt(es, q, i)
  }

  lemma {:induction false} TrackedAsStarted(es: seq<Event>, k: int, i: int)
    requires LastStart(es, k, i)
    ensures var at := Track(es).blocks.at;
            && i in at
            && (at[i].kind.ToolKind? <==> es[k].block.ToolUseBlock?)
            && (at[i].kind.TextKind? <==> es[k].block.TextBlock?)
            && (at[i].kind.ThinkingKind? <==> es[k].block.ThinkingBlock?)
            && (es[k].block.ToolUseBlock? ==> at[i].toolId == es[k].block.id && at[i].name == es[k].block.name)
    decreases |es|
  {
    var init, last := es[..|es| - 1], es[|es| - 1];
    TrackSnoc(init, last);
    assert es == init + [last];
    if k < |init| {
      assert forall q :: StartsAt(init, q, i) ==> StartsAt(es, q, i);
      assert !StartsAt(es, |es| - 1, i);
      assert init[k] == es[k];
      TrackedAsStarted(init, k, i);
    }
  }

  /** A tool block has been shown. */
  ghost predicate ToolShown(es: seq<Event>) {
    exists k :: 0 <= k < |es| && es[k].BlockStart? && es[k].block.ToolUseBlock?
  }

  lemma StartIsLast(es: seq<Event>, k: int)
    requires Run(Fresh, es).ok && 0 <= k < |es| && es[k].BlockStart?
    ensures LastStart(es, k, es[k].index)
  {
    RunDescribes(es);
  }

  lemma ToolsAreShown(es: seq<Event>)
    requires Run(Fresh, es).ok
    ensures ToolOrder(Track(es).blocks, Track(es).blocks.keys) != [] <==> ToolShown(es)
  {
    var t := Track(es);
    var order := ToolOrder(t.blocks, t.blocks.keys);
    TrackKnows(es);
    RunDescribes(es);
    if order != [] {
      var i := order[0];
      assert i in order && i in Run(Fresh, es).seen;
      var k :| StartsAt(es, k, i);
      StartIsLast(es, k);
      TrackedAsStarted(es, k, i);
    }
    if k :| 0 <= k < |es| && es[k].BlockStart? && es[k].block.ToolUseBlock? {
      StartIsLast(es, k);
      TrackedAsStarted(es, k, es[k].index);
      assert es[k].index in order;
    }
  }

  // ----- the stop reason -----

  /** The events give just this stop reason, once. */
  predicate GivesOnce(tail: seq<Event>, reason: StopReason) {
    exists j :: 0 <= j < |tail| && tail[j] == MessageDelta(Some(reason))
                && forall q :: 0 <= q < |tail| && q != j ==> !tail[q].MessageDelta?
  }

  predicate GivesNone(tail: seq<Event>) {
    forall q :: 0 <= q < |tail| ==> !tail[q].MessageDelta?
  }

  lemma BlocksGiveNone(more: seq<Event>)
    requires OnlyBlocks(more)
    ensures GivesNone(more)
  {
    assert forall q :: 0 <= q < |more| ==> more[q] in more;
  }

  lemma GivesAfter(more: seq<Event>, end: seq<Event>, reason: StopReason)
    requires GivesNone(more) && |end| > 0 && end[0] == MessageDelta(Some(reason)) && GivesNone(end[1..])
    ensures GivesOnce(more + end, reason)
  {
    var all := more + end;
    assert all[|more|] == MessageDelta(Some(reason));
    forall q | 0 <= q < |all| && q != |more| ensures !all[q].MessageDelta? {
      assert q > |more| ==> all[q] == end[1..][q - |more| - 1];
    }
  }

  lemma SuccessGives(more: seq<Event>, t: Tracker, reason: StopReason)
    requires OnlyBlocks(more)
    ensures t.stopReason.None? ==> GivesOnce(more + SuccessTail(t, reason), reason)
    ensures t.stopReason.Some? ==> GivesNone(more + SuccessTail(t, reason))
  {
    var closes := CloseUnclosed(t).events;
    CloseUnclosedStops(t);
    BlocksGiveNone(more);
    assert forall q :: 0 <= q < |more + closes| ==> !(more + closes)[q].MessageDelta?;
    ConcatAssoc(more, closes, MessageTail(t, reason));
    if t.stopReason.None? {
      GivesAfter(more + closes, MessageTail(t, reason), reason);
    }
  }

  lemma ErrorGives(t: Tracker, message: string)
    ensures GivesOnce(ErrorTail(t, message), EndTurn)
  {
    var more := CloseUnclosed(t).events + ErrorBlock(t.maxIndex + 1, message);
    CloseUnclosedStops(t);
    GivesAfter(more, [MessageDelta(Some(EndTurn)), MessageStop], EndTurn);
  }

  lemma ErrorMessageGives(message: string)
    ensures GivesOnce(ErrorMessage(message), EndTurn)
  {
    GivesAfter([MessageStart] + ErrorBlock(0, message), [MessageDelta(Some(EndTurn)), MessageStop], EndTurn);
  }

  lemma RecoveryGives(json: Json, es: seq<Event>, answers: NativeAnswers)
    requires Run(Fresh, es).ok && RecoverNative(json, Track(es), answers).Some?
    ensures var events := RecoverNative(json, Track(es), answers).value;
            if GaveReason(es) then GivesNone(events)
            else if ToolShown(es) then GivesOnce(events, ToolUse)
            else GivesOnce(events, EndTurn)
  {
    var t := Track(es);
    var order := ToolOrder(t.blocks, t.blocks.keys);
    TrackMessage(es);
    ToolsAreShown(es);
    if order != [] {
      var told := RepairBlocks(json, t, order, 0, answers.repairs).value;
      RepairsKeepMessage(json, t, order, 0, answers.repairs);
      SuccessGives(told.events, told.t, ToolUse);
    } else {
      var thinking := Continued(PartialThinking(t), answers.continuation.value.1);
      var text := Continued(PartialText(t), answers.continuation.value.0);
      AppendOnlyBlocks(t, thinking, text);
      ContinuationKeepsReason(t, thinking, text);
      SuccessGives(Continuation(t, thinking, text).events, Continuation(t, thinking, text).t, EndTurn);
    }
  }

  lemma ContinuationKeepsReason(t: Tracker, thinking: string, text: string)
    ensures Continuation(t, thinking, text).t.stopReason == t.stopReason
  {
  }

  /** The attempt is recovered: it failed in a way that may be retried, after a block was shown. */
  ghost predicate RecoveredBy(json: Json, es: seq<Event>, retryable: bool, answers: NativeAnswers) {
    retryable && Track(es).blocks.keys != [] && RecoversNative(json, Track(es), answers)
  }

  /** A failed attempt ends with one stop reason more, after events that obeyed the block rules: tool_use if
      it is recovered and a tool block has been shown, and end_turn otherwise; but a recovery gives none
      when one has been given. */
  lemma FailedEnd(json: Json, thinking: bool, u: Upstream, answers: NativeAnswers, message: string)
    requires UpstreamOutcome(thinking, u).Failed? && (u.Sent? ==> Run(Fresh, u.events).ok)
    ensures var es, retryable := Shown(thinking, u), UpstreamOutcome(thinking, u).retryable;
            var tail := NativeFailureTail(json, es, retryable, answers, message);
            && NativeOutput(json, thinking, u, answers, message) == es + tail
            && if !RecoveredBy(json, es, retryable, answers) then GivesOnce(tail, EndTurn)
               else if GaveReason(es) then GivesNone(tail)
               else if ToolShown(es) then GivesOnce(tail, ToolUse)
               else GivesOnce(tail, EndTurn)
  {
    var es, retryable := Shown(thinking, u), UpstreamOutcome(thinking, u).retryable;
    LawfulIsShown(thinking, u);
    TrackKnows(es);
    RecoversNativeWhen(json, Track(es), answers);
    if FailureRecovery(json, Track(es), retryable, answers).Some? {
      RecoveryGives(json, es, answers);
    } else {
      ErrorGives(Track(es), message);
      ErrorMessageGives(message);
    }
  }

  lemma LawfulIsShown(thinking: bool, u: Upstream)
    requires u.Sent? ==> Run(Fresh, u.events).ok
    ensures Run(Fresh, Shown(thinking, u)).ok
  {
    if u.Sent? {
      ShownIsOk(thinking, u);
    }
  }

  // ----- what tool_use means -----

  lemma GivesOnly(tail: seq<Event>, reason: StopReason)
    requires GivesOnce(tail, reason) && MessageDelta(Some(ToolUse)) in tail
    ensures reason == ToolUse
  {
    var j :| 0 <= j < |tail| && tail[j] == MessageDelta(Some(ToolUse));
  }

  /** A failed attempt that newly ends with tool_use has shown a tool block, and for every tool block it has
      shown, an id and arguments that are complete, by the schema of the name shown. */
  lemma ToolUseMeansComplete(json: Json, thinking: bool, u: Upstream, answers: NativeAnswers, message: string)
    requires UpstreamOutcome(thinking, u).Failed? && (u.Sent? ==> Run(Fresh, u.events).ok)
    requires MessageDelta(Some(ToolUse)) in NativeFailureTail(json, Shown(thinking, u), UpstreamOutcome(thinking, u).retryable, answers, message)
    ensures ToolShown(Shown(thinking, u))
    ensures forall k :: 0 <= k < |Shown(thinking, u)| && Shown(thinking, u)[k].BlockStart? && Shown(thinking, u)[k].block.ToolUseBlock? ==>
              var e := Shown(thinking, u)[k];
              e.block.id != "" && json.Complete(ShownJson(NativeOutput(json, thinking, u, answers, message), e.index), e.block.name)
  {
    var es, retryable := Shown(thinking, u), UpstreamOutcome(thinking, u).retryable;
    var t, tail := Track(es), NativeFailureTail(json, es, retryable, answers, message);
    FailedEnd(json, thinking, u, answers, message);
    LawfulIsShown(thinking, u);
    RecoveredIsToolUse(json, es, retryable, answers, message);
    ToolsAreShown(es);
    forall k | 0 <= k < |es| && es[k].BlockStart? && es[k].block.ToolUseBlock?
      ensures es[k].block.id != "" && json.Complete(ShownJson(es + tail, es[k].index), es[k].block.name)
    {
      ShownToolIsComplete(json, es, answers, k);
    }
  }

  lemma RecoveredIsToolUse(json: Json, es: seq<Event>, retryable: bool, answers: NativeAnswers, message: string)
    requires Run(Fresh, es).ok
    requires MessageDelta(Some(ToolUse)) in NativeFailureTail(json, es, retryable, answers, message)
    ensures ToolShown(es)
    ensures FailureRecovery(json, Track(es), retryable, answers).Some? && RecoverNative(json, Track(es), answers).Some?
    ensures NativeFailureTail(json, es, retryable, answers, message) == RecoverNative(json, Track(es), answers).value
  {
    if FailureRecovery(json, Track(es), retryable, answers).Some? {
      RecoveryGives(json, es, answers);
      if !GaveReason(es) && !ToolShown(es) {
        GivesOnly(RecoverNative(json, Track(es), answers).value, EndTurn);
      }
    } else {
      ErrorGives(Track(es), message);
      ErrorMessageGives(message);
      GivesOnly(NativeFailureTail(json, es, retryable, answers, message), EndTurn);
    }
  }

  lemma ShownToolIsComplete(json: Json, es: seq<Event>, answers: NativeAnswers, k: int)
    requires Run(Fresh, es).ok && 0 <= k < |es| && es[k].BlockStart? && es[k].block.ToolUseBlock?
    requires RecoverNative(json, Track(es), answers).Some?
    ensures es[k].block.id != ""
    ensures json.Complete(ShownJson(es + RecoverNative(json, Track(es), answers).value, es[k].index), es[k].block.name)
  {
    var t, i := Track(es), es[k].index;
    var order := ToolOrder(t.blocks, t.blocks.keys);
    TrackKnows(es);
    StartIsLast(es, k);
    TrackedAsStarted(es, k, i);
    assert i in order;
    RecoveredToolsAreComplete(json, es, answers, i);
    RecoveredHasId(json, t, answers, i);
  }

  lemma RecoveredHasId(json: Json, t: Tracker, answers: NativeAnswers, i: int)
    requires i in ToolOrder(t.blocks, t.blocks.keys) && RecoverNative(json, t, answers).Some?
    ensures t.blocks.at[i].toolId != ""
  {
    var order := ToolOrder(t.blocks, t.blocks.keys);
    var told := RepairBlocks(json, t, order, 0, answers.repairs).value;
    RepairBlocksShape(json, t, order, 0, answers.repairs);
    RepairKeepsOrder(json, t, told.t);
    SalvagedIsUsable(json, told.t, i);
  }

  // ----- which ends are cuts, and what an error says -----

  /** An upstream that ends without a word is whole if message_stop was among its events, and is then passed
      on and no more; otherwise it is as one cut by a failure that may be retried. */
  lemma SilentEndIsACut(json: Json, thinking: bool, events: seq<Event>, answers: NativeAnswers, message: string)
    ensures MessageStop in events ==>
              UpstreamOutcome(thinking, Sent(events, Exhausted)) == Completed
              && NativeOutput(json, thinking, Sent(events, Exhausted), answers, message) == Repair(thinking, events).out
    ensures MessageStop !in events ==>
              NativeOutput(json, thinking, Sent(events, Exhausted), answers, message) ==
              NativeOutput(json, thinking, Sent(events, Broke(true)), answers, message)
  {
    MessageEventsPass(thinking, events, MessageStop);
    TrackMessage(Repair(thinking, events).out);
    assert Shown(thinking, Sent(events, Exhausted)) == Shown(thinking, Sent(events, Broke(true)));
  }

  lemma {:induction false} StopsSayNothing(es: seq<Event>, stops: seq<Event>)
    requires forall k :: 0 <= k < |stops| ==> !stops[k].BlockDelta?
    ensures ShownText(es + stops) == ShownText(es)
    decreases |stops|
  {
    if stops == [] {
      ConcatEmpty(es);
    } else {
      var init, last := stops[..|stops| - 1], stops[|stops| - 1];
      StopsSayNothing(es, init);
      ShownTextSnoc(es + init, last);
      ConcatEmpty(ShownText(es));
      ConcatAssoc(es, init, [last]);
      assert init + [last] == stops;
    }
  }

  lemma ErrorBlockSays(es: seq<Event>, index: int, message: string)
    ensures ShownText(es + ErrorBlock(index, message)) == ShownText(es) + message
  {
    var start, delta, stop := BlockStart(index, TextBlock("")), BlockDelta(index, TextDelta(message)), BlockStop(index);
    StopsSayNothing(es, [start]);
    ShownTextSnoc(es + [start], delta);
    StopsSayNothing(es + [start] + [delta], [stop]);
    ConcatAssoc(es, [start], [delta]);
    ConcatAssoc(es, [start] + [delta], [stop]);
    assert [start] + [delta] + [stop] == ErrorBlock(index, message);
  }

  lemma ClosedErrorSays(es: seq<Event>, closes: seq<Event>, index: int, message: string)
    requires forall k :: 0 <= k < |closes| ==> !closes[k].BlockDelta?
    ensures ShownText(es + closes + ErrorBlock(index, message) + [MessageDelta(Some(EndTurn)), MessageStop]) == ShownText(es) + message
  {
    StopsSayNothing(es, closes);
    ErrorBlockSays(es + closes, index, message);
    StopsSayNothing(es + closes + ErrorBlock(index, message), [MessageDelta(Some(EndTurn)), MessageStop]);
  }

  lemma ErrorTailSays(es: seq<Event>, t: Tracker, message: string)
    ensures ShownText(es + ErrorTail(t, message)) == ShownText(es) + message
  {
    var closes, block := CloseUnclosed(t).events, ErrorBlock(t.maxIndex + 1, message);
    CloseUnclosedStops(t);
    ClosedErrorSays(es, closes, t.maxIndex + 1, message);
    ConcatAssoc(es, closes, block);
    ConcatAssoc(es, closes + block, [MessageDelta(Some(EndTurn)), MessageStop]);
  }

  /** A failed attempt that is not recovered says the error message, after what it had said. */
  lemma FailureIsTold(json: Json, thinking: bool, u: Upstream, answers: NativeAnswers, message: string)
    requires UpstreamOutcome(thinking, u).Failed?
    requires u.Refused? || u.end == Broke(false) || !RecoversNative(json, Track(Shown(thinking, u)), answers)
    ensures ShownText(NativeOutput(json, thinking, u, answers, message)) == ShownText(Shown(thinking, u)) + message
  {
    var es := Shown(thinking, u);
    TrackedIsValid(es);
    RecoversNativeWhen(json, Track(es), answers);
    ErrorTailSays(es, Track(es), message);
    ErrorMessageSays(message);
    ConcatEmpty(ErrorMessage(message));
  }

  lemma ErrorMessageSays(message: string)
    ensures ShownText(ErrorMessage(message)) == message
  {
    StopsSayNothing([], [MessageStart]);
    ClosedErrorSays([MessageStart], [], 0, message);
    ConcatEmpty([MessageStart]);
    ConcatEmpty(message);
  }

  lemma {:induction false} TrackedIsValid(es: seq<Event>)
    ensures Track(es).blocks.Valid()
    decreases |es|
  {
    if es != [] {
      TrackedIsValid(es[..|es| - 1]);
    }
  }
}
