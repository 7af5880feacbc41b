/** What a client of the native transport is sent for one upstream attempt
    (providers/anthropic_messages.py, `stream_response`), and when it meets the stream contract. */
module NativeStream {
  import opened BlockState
  import opened EmittedTracker
  import opened JsonTexts
  import opened NativeContent
  import opened NativePolicy
  import opened NativeRecovery
  import opened OrderedDict
  import opened StreamContract
  import opened StreamRecovery
  import Text

  datatype UpstreamEnd = Exhausted | Broke(retryable: bool)

  /** One upstream attempt: the request failed, or events came until the stream ended or broke. */
  datatype Upstream = Refused(retryable: bool) | Sent(events: seq<Event>, end: UpstreamEnd)

  datatype Outcome = Completed | Failed(retryable: bool)

  /** What the policy passes on of an attempt. */
  function Shown(thinking: bool, u: Upstream): seq<Event> {
    if u.Sent? then Repair(thinking, u.events).out else []
  }

  function UpstreamOutcome(thinking: bool, u: Upstream): Outcome {
    match u
    case Refused(retryable) => Failed(retryable)
    case Sent(_, end) =>
      if end.Broke? then Failed(end.retryable)
      else if Track(Shown(thinking, u)).stopped then Completed
      else Failed(true)                                          // TruncatedProviderStreamError
  }

  /** `_emit_error_events` when nothing was sent. */
  function ErrorMessage(message: string): seq<Event> {
    [MessageStart] + ErrorBlock(0, message) + [MessageDelta(Some(EndTurn)), MessageStop]
  }

  /** The recovery a failure leads to, if any. */
  function FailureRecovery(json: Json, t: Tracker, retryable: bool, answers: NativeAnswers): Option<seq<Event>> {
    if t.blocks.keys != [] && retryable then RecoverNative(json, t, answers) else None
  }

  /** What follows the events `es` of a failed attempt that is not retried. */
  function NativeFailureTail(json: Json, es: seq<Event>, retryable: bool, answers: NativeAnswers, message: string): seq<Event> {
    var t := Track(es);
    match FailureRecovery(json, t, retryable, answers)
    case Some(events) => events
    case None => if es != [] then ErrorTail(t, message) else ErrorMessage(message)
  }

  /** Everything an attempt shows when it is the last one. */
  function NativeOutput(json: Json, thinking: bool, u: Upstream, answers: NativeAnswers, message: string): seq<Event> {
    var es := Shown(thinking, u);
    match UpstreamOutcome(thinking, u)
    case Completed => es
    case Failed(retryable) => es + NativeFailureTail(json, es, retryable, answers, message)
  }

  // ----- when a recovery breaks the contract -----

  /** The text a recovery appends. */
  function RecoveredText(t: Tracker, answers: NativeAnswers): string {
    if answers.continuation.Some? then Continued(PartialText(t), answers.continuation.value.0) else ""
  }

  /** A recovery succeeds, and repairs a tool block that is closed, or appends text to a block that was
      started with visible text. */
  ghost predicate RecoversClosed(json: Json, es: seq<Event>, retryable: bool, answers: NativeAnswers) {
    var t := Track(es);
    var order := ToolOrder(t.blocks, t.blocks.keys);
    && t.blocks.keys != [] && retryable && RecoversNative(json, t, answers)
    && if order != [] then !RepairsOpen(json, t, order, Run(Fresh, es)) else ContinuesFullBlock(es, RecoveredText(t, answers))
  }

  lemma ErrorMessageContract(message: string)
    ensures Framed(ErrorMessage(message)) && Contract(ErrorMessage(message), false)
  {
    var out := ErrorMessage(message);
    assert out == [MessageStart, BlockStart(0, TextBlock("")), BlockDelta(0, TextDelta(message)), BlockStop(0),
                   MessageDelta(Some(EndTurn)), MessageStop];
    ContractByRun(out, false);
    ErrorBlockRuns(Fresh, 0, message);
    RunOne(Fresh, MessageStart);
    RunConcat(Fresh, [MessageStart], ErrorBlock(0, message));
    RunConcat(Fresh, [MessageStart] + ErrorBlock(0, message), [MessageDelta(Some(EndTurn)), MessageStop]);
    RunTail(Run(Fresh, [MessageStart] + ErrorBlock(0, message)), MessageDelta(Some(EndTurn)), MessageStop);
    assert 0 in Run(Fresh, out).seen;
  }

  /** The end of a failed attempt, for any events shown that obeyed the block rules and had begun, but
      not ended, the message. */
  lemma FailureContract(json: Json, es: seq<Event>, retryable: bool, answers: NativeAnswers, message: string)
    requires Run(Fresh, es).ok && MessageStart in es && !Ended(es)
    ensures Contract(es + NativeFailureTail(json, es, retryable, answers, message), true) <==>
            !RecoversClosed(json, es, retryable, answers)
  {
    var t := Track(es);
    var recovered := FailureRecovery(json, t, retryable, answers);
    TrackKnows(es);
    RecoversNativeWhen(json, t, answers);
    if recovered.None? {
      ErrorTailMeetsContract(es, message, true);
    } else if ToolOrder(t.blocks, t.blocks.keys) != [] {
      ToolRecoveryMeetsContract(json, es, answers, true);
      TrackMessage(es);
      assert EndsOnce(es, recovered.value) by {
        RecoveryEnds(json, es, answers);
      }
    } else {
      var text := RecoveredText(t, answers);
      var thinking := Continued(PartialThinking(t), answers.continuation.value.1);
      AppendOnlyBlocks(t, thinking, text);
      ContinuationMeetsContract(es, thinking, text, true);
    }
  }

  /** A recovery of a message that has not ended ends it, once and last, and starts no second one. */
  lemma RecoveryEnds(json: Json, es: seq<Event>, answers: NativeAnswers)
    requires !Ended(es) && RecoverNative(json, Track(es), answers).Some?
    ensures var events := RecoverNative(json, Track(es), answers).value;
            && events != [] && events[|events| - 1] == MessageStop && MessageStart !in events
            && forall q :: 0 <= q < |events| - 1 ==> events[q] != MessageStop
  {
    var t := Track(es);
    TrackMessage(es);
    var order := ToolOrder(t.blocks, t.blocks.keys);
    if order != [] {
      var told := RepairBlocks(json, t, order, 0, answers.repairs).value;
      RepairBlocksShape(json, t, order, 0, answers.repairs);
      RepairsKeepMessage(json, t, order, 0, answers.repairs);
      SuccessTailShape(told.t, ToolUse);
      EndsAfterBlocks(told.events, SuccessTail(told.t, ToolUse));
    } else {
      var thinking := Continued(PartialThinking(t), answers.continuation.value.1);
      var told := Continuation(t, thinking, RecoveredText(t, answers));
      AppendOnlyBlocks(t, thinking, RecoveredText(t, answers));
      SuccessTailShape(told.t, EndTurn);
      EndsAfterBlocks(told.events, SuccessTail(told.t, EndTurn));
    }
  }

  lemma EndsAfterBlocks(more: seq<Event>, tail: seq<Event>)
    requires OnlyBlocks(more) && MessageStart !in tail && tail != [] && tail[|tail| - 1] == MessageStop
    requires forall q :: 0 <= q < |tail| - 1 ==> tail[q] != MessageStop
    ensures var events := more + tail;
            && events[|events| - 1] == MessageStop && MessageStart !in events
            && forall q :: 0 <= q < |events| - 1 ==> events[q] != MessageStop
  {
    assert forall q :: 0 <= q < |more| ==> more[q] in more;
  }

  lemma {:induction false} RepairsKeepMessage(json: Json, t: Tracker, order: seq<int>, k: int, repairs: RepairAnswers)
    requires forall i :: i in order ==> i in t.blocks.at
    ensures var r := RepairBlocks(json, t, order, k, repairs);
            r.Some? ==> r.value.t.stopped == t.stopped && r.value.t.stopReason == t.stopReason && OnlyBlocks(r.value.events)
    decreases |order|
  {
    if order != [] {
      var i := order[0];
      assert forall j :: j in order[1..] ==> j in order;
      var b := t.blocks.at[i];
      if Usable(json, b) {
        RepairsKeepMessage(json, t, order[1..], k + 1, repairs);
      } else {
        var tried := TryRepair(json, b.content, b.name, k, repairs, 0);
        if tried.Suffix? {
          RepairsKeepMessage(json, AppendRepair(t, i, tried.text).t, order[1..], k + 1, repairs);
        }
      }
    }
  }

  // ----- a stream cut anywhere -----

  /** A message that has begun, once and first, and not ended. */
  predicate Begins(es: seq<Event>) {
    && es != [] && es[0] == MessageStart
    && (forall i :: 0 < i < |es| ==> es[i] != MessageStart)
    && MessageStop !in es
  }

  lemma TransformKeepsMessage(p: Policy, thinking: bool, e: Event)
    ensures var out := Transform(p, thinking, e).out;
            if IsBlockEvent(e) then MessageStart !in out && MessageStop !in out else out == [e]
  {
    CloseOthersCloses(p, if e.BlockStart? then e.index else 0, p.byUpstream.keys);
  }

  lemma {:induction false} RepairBegins(thinking: bool, es: seq<Event>)
    requires Begins(es)
    ensures Begins(Repair(thinking, es).out)
    decreases |es|
  {
    var init, last := es[..|es| - 1], es[|es| - 1];
    var before := Repair(thinking, init);
    TransformKeepsMessage(before.p, thinking, last);
    if init == [] {
      assert before == Passed(NewPolicy, []);
    } else {
      RepairBegins(thinking, init);
      assert last in es;
      var more := Transform(before.p, thinking, last).out;
      assert MessageStart !in more && MessageStop !in more;
      var out := before.out + more;
      assert forall i :: |before.out| <= i < |out| ==> out[i] in more;
    }
  }

  /** How the frame of an event reads that lost its data but kept its name. */
  function NameOnly(e: Event): Event {
    match e
    case BlockStart(_, _) => Malformed
    case BlockDelta(_, _) => Malformed
    case BlockStop(_) => Malformed
    case MessageDelta(_) => MessageDelta(None)
    case ErrorEvent(_) => ErrorEvent("")
    case _ => e
  }

  /** How the first part of the frame of `e` may read: with a part of its name, or without any, it is
      some other event, which passes and means nothing. */
  predicate ReadsAs(e: Event, r: Event) {
    r.OtherEvent? || r == NameOnly(e)
  }

  /** The upstream sent the first `n` events of a message; if it then ended without a word, its last
      frame may be there in part. (Once message_stop is there by name, the message is whole.) */
  predicate CutAt(whole: seq<Event>, u: Upstream, n: nat) {
    && u.Sent? && n < |whole|
    && (|| u.events == whole[..n]
        || (&& u.end.Exhausted? && |u.events| == n + 1 && u.events[..n] == whole[..n]
            && ReadsAs(whole[n], u.events[n]) && u.events[n] != MessageStop))
  }

  lemma CutBegins(whole: seq<Event>, u: Upstream, n: nat)
    requires Framed(whole) && CutAt(whole, u, n) && MessageStart in u.events
    ensures Begins(u.events)
  {
    var es := u.events;
    assert forall i :: 0 <= i < n ==> es[i] == whole[i];
    if n == 0 {
      assert es == [MessageStart];
    }
  }

  lemma CutHasStart(whole: seq<Event>, u: Upstream, n: nat)
    requires Framed(whole) && CutAt(whole, u, n) && n > 0
    ensures MessageStart in u.events
  {
    assert u.events[0] == u.events[..n][0] == whole[0];
  }

  lemma CutInFirstFrame(whole: seq<Event>, u: Upstream, n: nat)
    requires Framed(whole) && CutAt(whole, u, n) && u.events != [] && MessageStart !in u.events
    ensures u.end.Exhausted? && |u.events| == 1 && u.events[0].OtherEvent?
  {
    if n > 0 {
      CutHasStart(whole, u, n);
      assert false;
    }
    assert u.events[0] in u.events;
  }

  lemma CutIsOk(whole: seq<Event>, u: Upstream, n: nat)
    requires Run(Fresh, whole).ok && CutAt(whole, u, n)
    ensures Run(Fresh, u.events).ok <==> Malformed !in u.events
  {
    Doomed(whole, n);
    RunDescribes(u.events);
    if u.events != whole[..n] {
      assert u.events == whole[..n] + [u.events[n]];
      RunSnoc(Fresh, whole[..n], u.events[n]);
      assert Run(Fresh, u.events).ok <==> u.events[n] != Malformed;
    }
    assert Run(Fresh, u.events).ok ==> forall q :: 0 <= q < |u.events| ==> !u.events[q].Malformed?;
  }

  /** A whole message, blocks overlapping as they like, cut at any point before its end, by a failure
      between two events or without a word anywhere, and whatever the recovery requests answer: the client
      is sent one message from message_start to message_stop, and it meets the stream contract, unless
      the cut went through the first frame, or left a content block's frame without its data, or a
      recovery went to a block that takes no more deltas. */
  lemma CutStreamContract(json: Json, thinking: bool, whole: seq<Event>, u: Upstream, n: nat, answers: NativeAnswers, message: string)
    requires Framed(whole) && Run(Fresh, whole).ok && CutAt(whole, u, n)
    ensures var outcome := UpstreamOutcome(thinking, u);
            var out := NativeOutput(json, thinking, u, answers, message);
            && outcome.Failed?
            && (Framed(out) <==> u.events == [] || MessageStart in u.events)
            && (Contract(out, true) <==>
                  || u.events == []
                  || (&& MessageStart in u.events && Malformed !in u.events
                      && !RecoversClosed(json, Shown(thinking, u), outcome.retryable, answers)))
  {
    if u.events == [] {
      NothingShownContract(json, thinking, u, answers, message);
    } else if MessageStart !in u.events {
      CutInFirstFrame(whole, u, n);
      NamelessContract(json, thinking, u, answers, message);
    } else {
      CutBegins(whole, u, n);
      FailedOutput(json, thinking, u, answers, message);
      CutIsOk(whole, u, n);
      var es, retryable := Shown(thinking, u), UpstreamOutcome(thinking, u).retryable;
      if Malformed !in u.events {
        ShownIsOk(thinking, u);
        FailureOfBegun(json, es, retryable, answers, message);
      } else {
        MalformedIsShown(thinking, u);
        FailureFramed(json, es, retryable, answers, message);
        BrokenStaysBroken(es, NativeFailureTail(json, es, retryable, answers, message));
      }
    }
  }

  lemma MalformedIsShown(thinking: bool, u: Upstream)
    requires u.Sent? && Malformed in u.events
    ensures !Run(Fresh, Shown(thinking, u)).ok
  {
    var es := Shown(thinking, u);
    MessageEventsPass(thinking, u.events, Malformed);
    RunDescribes(es);
    var q :| 0 <= q < |es| && es[q] == Malformed;
  }

  lemma BrokenStaysBroken(es: seq<Event>, more: seq<Event>)
    requires !Run(Fresh, es).ok
    ensures !Contract(es + more, true)
  {
    ContractByRun(es + more, true);
    if Run(Fresh, es + more).ok {
      OkPrefix(Fresh, es, more);
    }
  }

  /** Only a part of the first frame arrived: something was shown, so no message_start is sent. */
  lemma NamelessContract(json: Json, thinking: bool, u: Upstream, answers: NativeAnswers, message: string)
    requires u.Sent? && u.end.Exhausted? && |u.events| == 1 && u.events[0].OtherEvent?
    ensures var out := NativeOutput(json, thinking, u, answers, message);
            UpstreamOutcome(thinking, u).Failed? && !Framed(out) && !Contract(out, true)
  {
    var e := u.events[0];
    OneEventShown(thinking, e);
    assert u.events == [e];
    TrackSnoc([], e);
    assert [] + [e] == [e] && Track([]) == NewTracker;
    var out := NativeOutput(json, thinking, u, answers, message);
    ErrorTailShape(NewTracker, message);
    assert out == [e] + ErrorTail(NewTracker, message);
    assert out[0] == e;
    assert MessageStart !in out;
  }

  lemma OneEventShown(thinking: bool, e: Event)
    requires e.OtherEvent?
    ensures Repair(thinking, [e]).out == [e]
  {
    RepairSnoc(thinking, [], e);
    assert [] + [e] == [e];
  }

  lemma FailedOutput(json: Json, thinking: bool, u: Upstream, answers: NativeAnswers, message: string)
    requires u.Sent? && Begins(u.events)
    ensures Begins(Shown(thinking, u)) && UpstreamOutcome(thinking, u).Failed?
    ensures NativeOutput(json, thinking, u, answers, message) ==
            Shown(thinking, u) +
            NativeFailureTail(json, Shown(thinking, u), UpstreamOutcome(thinking, u).retryable, answers, message)
  {
    RepairBegins(thinking, u.events);
    TrackMessage(Shown(thinking, u));
  }

  lemma ShownIsOk(thinking: bool, u: Upstream)
    requires u.Sent? && Run(Fresh, u.events).ok
    ensures Run(Fresh, Shown(thinking, u)).ok
  {
    RepairSimulates(thinking, u.events);
  }

  lemma FailureOfBegun(json: Json, es: seq<Event>, retryable: bool, answers: NativeAnswers, message: string)
    requires Begins(es) && Run(Fresh, es).ok
    ensures var out := es + NativeFailureTail(json, es, retryable, answers, message);
            Framed(out) && (Contract(out, true) <==> !RecoversClosed(json, es, retryable, answers))
  {
    assert es[0] in es;
    FailureContract(json, es, retryable, answers, message);
    FailureFramed(json, es, retryable, answers, message);
  }

  /** Nothing known, nothing to recover. */
  lemma NothingToRecover(json: Json, retryable: bool, answers: NativeAnswers)
    ensures Track([]) == NewTracker && FailureRecovery(json, NewTracker, retryable, answers) == None
  {
  }

  lemma NothingShownOutput(json: Json, thinking: bool, u: Upstream, answers: NativeAnswers, message: string)
    requires Shown(thinking, u) == []
    ensures UpstreamOutcome(thinking, u).Failed?
    ensures NativeOutput(json, thinking, u, answers, message) == ErrorMessage(message)
  {
    assert Track([]) == NewTracker;
    NothingToRecover(json, UpstreamOutcome(thinking, u).retryable, answers);
    assert [] + ErrorMessage(message) == ErrorMessage(message);
  }

  lemma NothingShownContract(json: Json, thinking: bool, u: Upstream, answers: NativeAnswers, message: string)
    requires Shown(thinking, u) == []
    ensures var outcome := UpstreamOutcome(thinking, u);
            var out := NativeOutput(json, thinking, u, answers, message);
            outcome.Failed? && Framed(out) && Contract(out, true) && !RecoversClosed(json, [], outcome.retryable, answers)
  {
    NothingShownOutput(json, thinking, u, answers, message);
    assert Track([]) == NewTracker;
    ErrorMessageContract(message);
    ContractAllows(ErrorMessage(message));
  }

  lemma ContractAllows(es: seq<Event>)
    requires Contract(es, false)
    ensures Contract(es, true)
  {
  }

  lemma FailureFramed(json: Json, es: seq<Event>, retryable: bool, answers: NativeAnswers, message: string)
    requires Begins(es)
    ensures Framed(es + NativeFailureTail(json, es, retryable, answers, message))
  {
    var tail := NativeFailureTail(json, es, retryable, answers, message);
    if FailureRecovery(json, Track(es), retryable, answers).Some? {
      RecoveryEnds(json, es, answers);
    } else {
      ErrorTailShape(Track(es), message);
    }
    BeginsAndEnds(es, tail);
  }

  lemma BeginsAndEnds(es: seq<Event>, tail: seq<Event>)
    requires Begins(es) && MessageStart !in tail && tail != [] && tail[|tail| - 1] == MessageStop
    requires forall q :: 0 <= q < |tail| - 1 ==> tail[q] != MessageStop
    ensures Framed(es + tail)
  {
    var out := es + tail;
    forall i | 0 < i < |out| ensures out[i] != MessageStart {
      if i >= |es| {
        assert out[i] in tail;
      }
    }
  }

  /** A whole stream that arrives to its end is passed on as the policy repairs it. */
  lemma CompleteStreamContract(json: Json, thinking: bool, whole: seq<Event>, answers: NativeAnswers, message: string)
    requires Contract(whole, true)
    ensures var out := NativeOutput(json, thinking, Sent(whole, Exhausted), answers, message);
            out == Repair(thinking, whole).out && (Contract(out, true) <==> KeepsSome(thinking, whole))
  {
    RepairMeetsContract(thinking, whole, true);
    MessageEventsPass(thinking, whole, MessageStop);
    TrackMessage(Repair(thinking, whole).out);
    assert whole[|whole| - 1] in whole;
  }

  // ----- a failure after the end -----

  lemma RepairEnds(thinking: bool, whole: seq<Event>)
    requires Framed(whole)
    ensures Framed(Repair(thinking, whole).out)
  {
    var n := |whole| - 1;
    RepairBegins(thinking, whole[..n]);
    BeginsAndEnds(Repair(thinking, whole[..n]).out, [MessageStop]);
  }

  lemma RepairCloses(thinking: bool, whole: seq<Event>)
    requires Contract(whole, true)
    ensures var c := Run(Fresh, Repair(thinking, whole).out); c.ok && c.open == map[]
  {
    ContractByRun(whole, true);
    RepairSimulates(thinking, whole);
    NoneOpen(Repair(thinking, whole).p, Run(Fresh, Repair(thinking, whole).out).open);
  }

  lemma StackedIsOpen(t: Tracker, c: Check)
    requires Knows(t, c) && t.stack != []
    ensures c.open != map[]
  {
    var i := t.stack[0];
    assert StackHolds(t.stack, c.open) && i in t.stack;
    assert i in c.open;
  }

  /** A whole message leaves the tracker with nothing to close. */
  lemma WholeIsTracked(thinking: bool, whole: seq<Event>)
    requires Framed(whole) && Contract(whole, true)
    ensures var es := Repair(thinking, whole).out;
            Run(Fresh, es).ok && MessageStart in es && Track(es).stopped && Track(es).stack == []
  {
    var es := Repair(thinking, whole).out;
    RepairEnds(thinking, whole);
    RepairCloses(thinking, whole);
    TrackKnows(es);
    if Track(es).stack != [] {
      StackedIsOpen(Track(es), Run(Fresh, es));
      assert false;
    }
    TrackMessage(es);
    assert es[0] in es && es[|es| - 1] in es;
  }

  /** Tool blocks that can be used as they are need no repair. */
  lemma {:induction false} NothingToRepair(json: Json, t: Tracker, order: seq<int>, k: int, repairs: RepairAnswers)
    requires forall i :: i in order ==> i in t.blocks.at && Usable(json, t.blocks.at[i])
    ensures RepairBlocks(json, t, order, k, repairs) == Some(Told(t, []))
    decreases |order|
  {
    if order != [] {
      assert order[0] in order && forall i :: i in order[1..] ==> i in order;
      NothingToRepair(json, t, order[1..], k + 1, repairs);
    }
  }

  lemma {:induction false} EmptyRepairs(json: Json, t: Tracker, order: seq<int>, k: int, repairs: RepairAnswers)
    requires forall i :: i in order ==> i in t.blocks.at
    requires var r := RepairBlocks(json, t, order, k, repairs); r.Some? && r.value.events == []
    ensures RepairBlocks(json, t, order, k, repairs).value.t == t
    decreases |order|
  {
    if order != [] {
      assert forall i :: i in order[1..] ==> i in order;
      EmptyRepairs(json, t, order[1..], k + 1, repairs);
    }
  }

  lemma SalvagedTail(json: Json, t: Tracker, answers: NativeAnswers)
    requires t.stopped && t.stack == []
    ensures RecoverNative(json, t, answers) == Some([]) <==> CanSalvage(json, t) && t.stopReason.Some?
  {
    var order := ToolOrder(t.blocks, t.blocks.keys);
    if order == [] {
      if RecoverNative(json, t, answers).Some? {
        AppendOnlyBlocks(t, Continued(PartialThinking(t), answers.continuation.value.1), RecoveredText(t, answers));
      }
    } else {
      SalvagedTools(json, t, order, answers);
    }
  }

  lemma SalvagedTools(json: Json, t: Tracker, order: seq<int>, answers: NativeAnswers)
    requires t.stopped && t.stack == [] && order == ToolOrder(t.blocks, t.blocks.keys) != []
    ensures RecoverNativeTools(json, t, answers) == Some([]) <==> CanSalvage(json, t) && t.stopReason.Some?
  {
    var whole := RepairBlocks(json, t, order, 0, answers.repairs);
    if CanSalvage(json, t) {
      forall i | i in order ensures Usable(json, t.blocks.at[i]) {
        SalvagedIsUsable(json, t, i);
      }
      NothingToRepair(json, t, order, 0, answers.repairs);
    }
    if whole.Some? {
      var (events, tail) := (whole.value.events, SuccessTail(whole.value.t, ToolUse));
      assert |events + tail| == |events| + |tail|;
      if events == [] {
        EmptyRepairs(json, t, order, 0, answers.repairs);
        assert CloseUnclosed(t).events == [];
        assert tail == MessageTail(t, ToolUse);
      }
    }
  }

  /** A recovery after message_stop meets the contract only by adding nothing: no block is open to take
      a repair, and what a continuation adds comes without a message_stop of its own. */
  lemma RecoveredAfterStop(json: Json, es: seq<Event>, answers: NativeAnswers)
    requires Run(Fresh, es).ok && MessageStart in es && Ended(es) && es[|es| - 1] == MessageStop && Track(es).stack == []
    requires RecoverNative(json, Track(es), answers).Some?
    ensures Contract(es + RecoverNative(json, Track(es), answers).value, true) <==>
            CanSalvage(json, Track(es)) && Track(es).stopReason.Some?
  {
    var t := Track(es);
    var order := ToolOrder(t.blocks, t.blocks.keys);
    TrackKnows(es);
    TrackMessage(es);
    SalvagedTail(json, t, answers);
    if order != [] {
      ToolRecoveryMeetsContract(json, es, answers, true);
      if CanSalvage(json, t) {
        forall i | i in order ensures Usable(json, t.blocks.at[i]) {
          SalvagedIsUsable(json, t, i);
        }
      }
    } else {
      var text := RecoveredText(t, answers);
      var thinking := Continued(PartialThinking(t), answers.continuation.value.1);
      AppendOnlyBlocks(t, thinking, text);
      ContinuationMeetsContract(es, thinking, text, true);
    }
  }

  lemma TailAfterStop(json: Json, es: seq<Event>, retryable: bool, answers: NativeAnswers, message: string)
    requires es != [] && Ended(es) && Track(es).stack == []
    ensures NativeFailureTail(json, es, retryable, answers, message) == [] <==>
            retryable && CanSalvage(json, Track(es)) && Track(es).stopReason.Some?
  {
    TrackMessage(es);
    SalvagedTail(json, Track(es), answers);
  }

  lemma FailureAfterStop(json: Json, es: seq<Event>, retryable: bool, answers: NativeAnswers, message: string)
    requires Framed(es) && Run(Fresh, es).ok && MessageStart in es && Ended(es) && Track(es).stack == []
    ensures var t := Track(es);
            var tail := NativeFailureTail(json, es, retryable, answers, message);
            Contract(es + tail, true) <==>
            tail == [] || !(t.blocks.keys != [] && retryable && RecoverNative(json, t, answers).Some?)
  {
    TailAfterStop(json, es, retryable, answers, message);
    if FailureRecovery(json, Track(es), retryable, answers).Some? {
      RecoveredAfterStop(json, es, answers);
    } else {
      ErrorTailMeetsContract(es, message, true);
    }
  }

  /** A failure after message_stop, with the whole message shown: the client is sent no more, so that it
      has one message, exactly when the failure may be retried and the message ends with a stop reason
      and has tool blocks, all usable. Otherwise it is sent more after message_stop; the stream contract,
      which counts no message_stop, then still holds exactly when that is the error tail. */
  lemma BrokenAfterStop(json: Json, thinking: bool, whole: seq<Event>, retryable: bool, answers: NativeAnswers, message: string)
    requires Framed(whole) && Contract(whole, true)
    ensures var t := Track(Repair(thinking, whole).out);
            var out := NativeOutput(json, thinking, Sent(whole, Broke(retryable)), answers, message);
            && (Framed(out) <==> retryable && CanSalvage(json, t) && t.stopReason.Some?)
            && (Contract(out, true) <==>
                  Framed(out) || !(t.blocks.keys != [] && retryable && RecoversNative(json, t, answers)))
  {
    var es := Repair(thinking, whole).out;
    RepairEnds(thinking, whole);
    WholeIsTracked(thinking, whole);
    TrackMessage(es);
    TailAfterStop(json, es, retryable, answers, message);
    FailureAfterStop(json, es, retryable, answers, message);
    TrackKnows(es);
    RecoversNativeWhen(json, Track(es), answers);
    AfterStop(es, NativeFailureTail(json, es, retryable, answers, message));
  }

  lemma AfterStop(es: seq<Event>, tail: seq<Event>)
    requires Framed(es)
    ensures Framed(es + tail) <==> tail == []
  {
    assert (es + tail)[|es| - 1] == es[|es| - 1];
    if tail == [] {
      assert es + tail == es;
    }
  }
}
