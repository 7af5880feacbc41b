/** The native transport's code (providers/anthropic_messages.py): reading one attempt, recovering and
    the retry loop, run on the policy, tracker and holdback objects and proved equal to the stream
    functions. */
module NativeTransport {
  import opened BlockState
  import opened EmittedTracker
  import opened JsonTexts
  import opened NativePolicy
  import opened NativeRecovery
  import opened NativeSseBlockPolicy
  import opened NativeSseTracker
  import opened NativeStream
  import opened OrderedDict
  import opened SseFraming
  import opened StreamContract
  import opened StreamRecovery

  /** Events are printed on single lines, and reading a printed event gives it back. */
  ghost predicate Codec(encode: Event -> Raw, decode: Raw -> Event) {
    forall e :: Printable(encode(e)) && decode(encode(e)) == e
  }

  /** One printed event, fed whole to a tracker with nothing left over. */
  lemma PrintedEventIsObserved(t: Tracker, encode: Event -> Raw, decode: Raw -> Event, e: Event)
    requires Codec(encode, decode)
    ensures var fed := Drain("" + Print(encode(e)));
            fed.rest == "" && ObserveFrames(t, decode, fed.frames) == Observe(t, e)
  {
    var raw := encode(e);
    assert Printable(raw);
    assert [raw][1..] == [] && PrintAll([]) == "" && Bodies([]) == [];
    assert PrintAll([raw]) == Print(raw) + "";
    PrintedDrains([raw], "");
    assert "" + Print(raw) == Print(raw) + "" + "";
    assert Drain("") == Fed("", []);
    assert Bodies([raw]) == [Body(raw)] && [Body(raw)] + [] == [Body(raw)];
    PrintedBodyParses(raw);
    assert [Body(raw)][1..] == [];
    assert ObserveFrames(ObserveFrame(t, decode, Body(raw)), decode, []) == ObserveFrame(t, decode, Body(raw));
    assert Decoded(decode, [raw]) == [e];
    assert [e][1..] == [];
    assert ObserveAll(Observe(t, e), []) == Observe(t, e);
  }

  lemma RepairUnroll(thinking: bool, events: seq<Event>, i: nat)
    requires i < |events|
    ensures Repair(thinking, events[..i + 1]) ==
            var before := Repair(thinking, events[..i]);
            var last := Transform(before.p, thinking, events[i]);
            Passed(last.p, before.out + last.out)
  {
    assert events[..i + 1][..i] == events[..i];
  }

  method FeedEvent(e: Event, encode: Event -> Raw, decode: Raw -> Event, tracker: EmittedNativeSseTracker)
    requires Codec(encode, decode) && tracker.buf == ""
    modifies tracker
    ensures tracker.buf == "" && tracker.State() == Observe(old(tracker.State()), e)
  {
    PrintedEventIsObserved(tracker.State(), encode, decode, e);
    tracker.Feed(Print(encode(e)), decode);
  }

  /** Feed the tracker the text of some events. */
  method FeedEvents(out: seq<Event>, encode: Event -> Raw, decode: Raw -> Event, tracker: EmittedNativeSseTracker,
                    ghost sofar: seq<Event>)
    requires Codec(encode, decode) && tracker.buf == "" && tracker.State() == Track(sofar)
    modifies tracker
    ensures tracker.buf == "" && tracker.State() == Track(sofar + out)
  {
    ghost var fed := sofar;
    for k := 0 to |out|
      invariant tracker.buf == "" && tracker.State() == Track(fed)
      invariant fed == sofar + out[..k]
    {
      TrackSnoc(fed, out[k]);
      fed := fed + [out[k]];
      FeedEvent(out[k], encode, decode, tracker);
    }
    assert fed == sofar + out;
  }

  /** One upstream event, through policy, tracker and holdback. */
  method Forward(thinking: bool, e: Event, encode: Event -> Raw, decode: Raw -> Event, policy: NativeSseBlockPolicyState,
                 tracker: EmittedNativeSseTracker, holdback: RecoveryHoldbackBuffer,
                 clock: nat -> real, size: Event -> nat, ticks: nat, ghost before: Passed, ghost shown: seq<Event>, ghost start: nat)
    returns (more: seq<Event>, ticks': nat)
    requires holdback.Held(before.out, clock, size, start) && ticks == start + 2 * |before.out|
    requires Codec(encode, decode) && tracker.buf == "" && tracker.State() == Track(before.out)
    requires policy.State() == before.p
    requires holdback.Valid() && shown + holdback.events == before.out && (!holdback.committed ==> shown == [])
    requires holdback.committed ==> before.out != []
    modifies policy, tracker, holdback
    ensures var last := Transform(before.p, thinking, e);
            && policy.State() == last.p
            && tracker.buf == "" && tracker.State() == Track(before.out + last.out)
            && shown + more + holdback.events == before.out + last.out
            && (holdback.committed ==> before.out + last.out != [])
            && holdback.Held(before.out + last.out, clock, size, start) && ticks' == start + 2 * |before.out + last.out|
    ensures holdback.Valid() && (!holdback.committed ==> shown + more == [])
  {
    ghost var held := holdback.events;
    var out := policy.TransformEvent(thinking, e);
    FeedEvents(out, encode, decode, tracker, before.out);
    more, ticks' := HoldEvents(holdback, out, clock, size, ticks, before.out, start);
    ConcatAssoc(shown, held, out);
    ConcatAssoc(shown, more, holdback.events);
  }

  /** Read one opened upstream stream to its end or its failure. */
  method ReadUpstream(thinking: bool, events: seq<Event>, encode: Event -> Raw, decode: Raw -> Event,
                      tracker: EmittedNativeSseTracker, holdback: RecoveryHoldbackBuffer,
                      clock: nat -> real, size: Event -> nat, ticks: nat)
    returns (shown: seq<Event>, ticks': nat)
    requires Codec(encode, decode) && tracker.buf == "" && tracker.State() == NewTracker
    requires holdback.Valid() && !holdback.committed && holdback.events == [] && holdback.Held([], clock, size, ticks)
    modifies tracker, holdback
    ensures holdback.Valid()
    ensures shown + holdback.events == Repair(thinking, events).out
    ensures holdback.Held(Repair(thinking, events).out, clock, size, ticks) && ticks' == ticks + 2 * |Repair(thinking, events).out|
    ensures tracker.State() == Track(Repair(thinking, events).out)
    ensures !holdback.committed ==> shown == []
    ensures holdback.committed ==> shown != []
  {
    var policy := new NativeSseBlockPolicyState();
    shown, ticks' := [], ticks;
    ghost var passed := Passed(NewPolicy, []);
    for i := 0 to |events|
      invariant holdback.Valid() && tracker.buf == ""
      invariant passed == Repair(thinking, events[..i])
      invariant policy.State() == passed.p
      invariant tracker.State() == Track(passed.out)
      invariant shown + holdback.events == passed.out
      invariant !holdback.committed ==> shown == []
      invariant holdback.committed ==> passed.out != []
      invariant holdback.Held(passed.out, clock, size, ticks) && ticks' == ticks + 2 * |passed.out|
    {
      RepairUnroll(thinking, events, i);
      var more;
      more, ticks' := Forward(thinking, events[i], encode, decode, policy, tracker, holdback, clock, size, ticks', passed, shown, ticks);
      shown := shown + more;
      passed := Repair(thinking, events[..i + 1]);
    }
    assert events[..|events|] == events;
  }

  // ----- recovery -----

  /** The trackers close the same blocks and use the same next index. */
  predicate SameOpen(t: Tracker, t': Tracker) {
    t'.stack == t.stack && t'.maxIndex == t.maxIndex
  }

  lemma {:induction false} SameOpenSameTail(t: Tracker, t': Tracker)
    requires SameOpen(t, t')
    ensures CloseUnclosed(t).events == CloseUnclosed(t').events
    decreases |t.stack|
  {
    if t.stack != [] {
      var index, below := t.stack[|t.stack| - 1], t.stack[..|t.stack| - 1];
      SameOpenSameTail(t.(stack := below, blocks := Shut(t.blocks, index)), t'.(stack := below, blocks := Shut(t'.blocks, index)));
    }
  }

  lemma SameErrorTail(t: Tracker, t': Tracker, message: string)
    requires SameOpen(t, t')
    ensures ErrorTail(t', message) == ErrorTail(t, message)
  {
    SameOpenSameTail(t, t');
  }

  /** What becomes of the tool block `i`, number `n`: the tracker and the events, or no repair. */
  function RepairBlock(json: Json, t: Tracker, i: int, n: int, repairs: RepairAnswers): Option<Told>
    requires i in t.blocks.at
  {
    var b := t.blocks.at[i];
    if Usable(json, b) then Some(Told(t, []))
    else
      match TryRepair(json, b.content, b.name, n, repairs, 0)
      case Suffix(suffix) => Some(AppendRepair(t, i, suffix))
      case _ => None
  }

  lemma RepairStep(json: Json, t: Tracker, order: seq<int>, n: nat, repairs: RepairAnswers)
    requires n < |order| && (forall i :: i in order[n..] ==> i in t.blocks.at) && order[n] in t.blocks.at
    ensures var first := RepairBlock(json, t, order[n], n, repairs);
            var whole := RepairBlocks(json, t, order[n..], n, repairs);
            && (first.None? ==> whole.None?)
            && (first.Some? ==>
                  && (forall i :: i in order[n + 1..] ==> i in first.value.t.blocks.at)
                  && var rest := RepairBlocks(json, first.value.t, order[n + 1..], n + 1, repairs);
                     if rest.None? then whole.None? else whole == Some(Told(rest.value.t, first.value.events + rest.value.events)))
  {
    var tail := order[n..];
    assert tail[0] == order[n] && tail[1..] == order[n + 1..];
    assert forall i :: i in order[n + 1..] ==> i in tail;
    var first := RepairBlock(json, t, order[n], n, repairs);
    if first.Some? && first.value.events == [] {
      var rest := RepairBlocks(json, t, order[n + 1..], n + 1, repairs);
      assert rest.Some? ==> [] + rest.value.events == rest.value.events;
    }
  }

  /** One tool block. */
  method RepairOne(json: Json, tracker: EmittedNativeSseTracker, n: nat, repairs: RepairAnswers) returns (r: Option<seq<Event>>)
    requires n < |ToolOrder(tracker.blocks, tracker.blocks.keys)|
    modifies tracker
    ensures var order := ToolOrder(old(tracker.blocks), old(tracker.blocks).keys);
            && order[n] in old(tracker.blocks).at
            && (match RepairBlock(json, old(tracker.State()), order[n], n, repairs)
                case Some(told) => r == Some(told.events) && tracker.State() == told.t
                case None => r == None && tracker.State() == old(tracker.State()))
            && SameOpen(old(tracker.State()), tracker.State())
            && ToolOrder(tracker.blocks, tracker.blocks.keys) == order
  {
    var order := ToolOrder(tracker.blocks, tracker.blocks.keys);
    assert order[n] in order;
    var block := tracker.blocks.at[order[n]];
    if block.toolId != "" && block.name != "" && json.Complete(block.content, block.name) {
      return Some([]);
    }
    var repaired := RequestRepair(json, block.content, block.name, n, repairs);
    if !repaired.Suffix? {
      return None;
    }
    ghost var t := tracker.State();
    var more := tracker.AppendToolRepairSuffix(n, repaired.text);
    RepairKeepsOrder(json, t, tracker.State());
    return Some(more);
  }

  /** `order` is the tool blocks in the order they were started. */
  ghost predicate Lists(t: Tracker, order: seq<int>) {
    order == ToolOrder(t.blocks, t.blocks.keys)
  }

  /** The repair `whole` is the events `events` and then the repair of the tool blocks from the `n`th on. */
  ghost predicate Remaining(json: Json, t: Tracker, order: seq<int>, n: nat, repairs: RepairAnswers, events: seq<Event>,
                            whole: Option<Told>)
  {
    && n <= |order| && Lists(t, order)
    && (forall i :: i in order[n..] ==> i in t.blocks.at)
    && var rest := RepairBlocks(json, t, order[n..], n, repairs);
       if rest.None? then whole.None? else whole == Some(Told(rest.value.t, events + rest.value.events))
  }

  /** The repair `whole` gives the events `r`, or none, and leaves `t` where it gives some. */
  predicate Repaired(whole: Option<Told>, r: Option<seq<Event>>, t: Tracker) {
    match whole
    case Some(told) => r == Some(told.events) && t == told.t
    case None => r == None
  }

  lemma RemainingAtStart(json: Json, t: Tracker, order: seq<int>, repairs: RepairAnswers)
    requires Lists(t, order)
    ensures Remaining(json, t, order, 0, repairs, [], RepairBlocks(json, t, order, 0, repairs))
  {
    assert order[0..] == order;
    var whole := RepairBlocks(json, t, order, 0, repairs);
    assert whole.Some? ==> [] + whole.value.events == whole.value.events;
  }

  lemma RemainingAfterOne(json: Json, t: Tracker, order: seq<int>, n: nat, repairs: RepairAnswers, events: seq<Event>,
                          whole: Option<Told>)
    requires n < |order| && order[n] in t.blocks.at && Remaining(json, t, order, n, repairs, events, whole)
    ensures match RepairBlock(json, t, order[n], n, repairs)
            case Some(first) => Lists(first.t, order) ==> Remaining(json, first.t, order, n + 1, repairs, events + first.events, whole)
            case None => whole.None?
  {
    RepairStep(json, t, order, n, repairs);
    var first := RepairBlock(json, t, order[n], n, repairs);
    if first.Some? {
      var rest := RepairBlocks(json, first.value.t, order[n + 1..], n + 1, repairs);
      if rest.Some? {
        ConcatAssoc(events, first.value.events, rest.value.events);
      }
    }
  }

  lemma RemainingAtEnd(json: Json, t: Tracker, order: seq<int>, repairs: RepairAnswers, events: seq<Event>, whole: Option<Told>)
    requires Remaining(json, t, order, |order|, repairs, events, whole)
    ensures Repaired(whole, Some(events), t)
  {
    assert events + [] == events;
  }

  /** One turn of the repair loop. */
  method RepairNext(json: Json, tracker: EmittedNativeSseTracker, order: seq<int>, n: nat, repairs: RepairAnswers,
                    ghost events: seq<Event>, ghost whole: Option<Told>)
    returns (more: Option<seq<Event>>)
    requires n < |order| && Remaining(json, tracker.State(), order, n, repairs, events, whole)
    modifies tracker
    ensures SameOpen(old(tracker.State()), tracker.State())
    ensures match more
            case Some(next) => Remaining(json, tracker.State(), order, n + 1, repairs, events + next, whole)
            case None => Repaired(whole, None, tracker.State())
  {
    assert order[n] in order[n..];
    RemainingAfterOne(json, tracker.State(), order, n, repairs, events, whole);
    more := RepairOne(json, tracker, n, repairs);
  }

  /** The tool side of `_native_recovery_events`: one repair per unusable tool block. */
  method RepairTools(json: Json, tracker: EmittedNativeSseTracker, repairs: RepairAnswers) returns (r: Option<seq<Event>>)
    modifies tracker
    ensures var t := old(tracker.State());
            Repaired(RepairBlocks(json, t, ToolOrder(t.blocks, t.blocks.keys), 0, repairs), r, tracker.State())
    ensures SameOpen(old(tracker.State()), tracker.State())
  {
    var order := ToolOrder(tracker.blocks, tracker.blocks.keys);
    ghost var whole := RepairBlocks(json, tracker.State(), order, 0, repairs);
    var events := [];
    RemainingAtStart(json, tracker.State(), order, repairs);
    var n := 0;
    while n < |order|
      invariant n <= |order|
      invariant SameOpen(old(tracker.State()), tracker.State())
      invariant Remaining(json, tracker.State(), order, n, repairs, events, whole)
    {
      var more := RepairNext(json, tracker, order, n, repairs, events, whole);
      if more.None? {
        return None;
      }
      events := events + more.value;
      n := n + 1;
    }
    RemainingAtEnd(json, tracker.State(), order, repairs, events, whole);
    return Some(events);
  }

  /** `_native_recovery_events`. */
  method RecoveryEvents(json: Json, tracker: EmittedNativeSseTracker, answers: NativeAnswers) returns (r: Option<seq<Event>>)
    modifies tracker
    ensures r == RecoverNative(json, old(tracker.State()), answers)
    ensures r.None? ==> SameOpen(old(tracker.State()), tracker.State())
  {
    if ToolOrder(tracker.blocks, tracker.blocks.keys) != [] {
      var repairs := RepairTools(json, tracker, answers.repairs);
      if repairs.None? {
        return None;
      }
      var usable := tracker.CanSalvageToolUse(json);
      if !usable {
        return None;
      }
      var tail := tracker.SuccessTailEvents(ToolUse);
      return Some(repairs.value + tail);
    }
    var partialText := EmittedOf(tracker.blocks, tracker.blocks.keys, TextKind);
    var partialThinking := EmittedOf(tracker.blocks, tracker.blocks.keys, ThinkingKind);
    if (partialText == "" && partialThinking == "") || answers.continuation.None? {
      return None;
    }
    var textSuffix := ComputeContinuationSuffix(partialText, answers.continuation.value.0);
    var thinkingSuffix := ComputeContinuationSuffix(partialThinking, answers.continuation.value.1);
    var text := if textSuffix.Some? then textSuffix.value else "";
    var thinking := if thinkingSuffix.Some? then thinkingSuffix.value else "";
    AppendOnlyBlocks(tracker.State(), thinking, text);
    ghost var t := tracker.State();
    var events := tracker.AppendContinuation(thinking, text);
    if events == [] {
      assert Continuation(t, thinking, text).t == t;
      return None;
    }
    var tail := tracker.SuccessTailEvents(EndTurn);
    return Some(events + tail);
  }

  // ----- the retry loop -----

  /** Whether a failed attempt is retried without the client noticing. */
  predicate RetriesUnseen(json: Json, thinking: bool, u: Upstream) {
    var t := Track(Shown(thinking, u));
    u.Sent? && UpstreamOutcome(thinking, u) == Failed(true) && !(t.blocks.keys != [] && CanSalvage(json, t))
  }

  /** A cut stream whose tool blocks are all usable is not retried, even if nothing was shown of it: it is
      shown and ended with tool_use, and no repair is asked for. */
  lemma UsableIsKept(json: Json, thinking: bool, u: Upstream, answers: NativeAnswers, message: string)
    requires UpstreamOutcome(thinking, u) == Failed(true) && CanSalvage(json, Track(Shown(thinking, u)))
    ensures !RetriesUnseen(json, thinking, u)
    ensures NativeOutput(json, thinking, u, answers, message) ==
            Shown(thinking, u) + SuccessTail(Track(Shown(thinking, u)), ToolUse)
  {
    var t := Track(Shown(thinking, u));
    var order := ToolOrder(t.blocks, t.blocks.keys);
    forall i | i in order ensures Usable(json, t.blocks.at[i]) {
      SalvagedIsUsable(json, t, i);
    }
    assert order[0] in t.blocks.keys;
    NothingToRepair(json, t, order, 0, answers.repairs);
    ConcatEmpty(SuccessTail(t, ToolUse));
  }

  /** The end of a failed attempt that is not retried. */
  method EndFailed(json: Json, tracker: EmittedNativeSseTracker, holdback: RecoveryHoldbackBuffer, retryable: bool,
                   answers: NativeAnswers, message: string, ghost shown: seq<Event>)
    returns (out: seq<Event>)
    requires holdback.Valid() && (holdback.committed ==> shown != []) && (!holdback.committed ==> shown == [])
    requires tracker.State() == Track(shown + holdback.events)
    modifies tracker, holdback
    ensures out == old(holdback.events) +
                   NativeFailureTail(json, shown + old(holdback.events), retryable, answers, message)
  {
    ghost var t := tracker.State();
    var committed := holdback.committed;
    if tracker.blocks.keys != [] && retryable {
      var recovered := RecoveryEvents(json, tracker, answers);
      if recovered.Some? {
        var held := [];
        if !committed {
          held := holdback.Flush();
        }
        return held + recovered.value;
      }
    }
    SameErrorTail(t, tracker.State(), message);
    if committed || holdback.events != [] {
      out := [];
      if !committed {
        out := holdback.Flush();
      }
      var tail := tracker.ErrorTailEvents(message);
      out := out + tail;
    } else {
      holdback.Discard();
      out := ErrorMessage(message);
    }
  }

  /** The attempt fails in a way that is retried, before the client has been shown anything. */
  ghost predicate FailsEarly(json: Json, thinking: bool, u: Upstream, clock: nat -> real, size: Event -> nat) {
    RetriesUnseen(json, thinking, u) && !Commits(Shown(thinking, u), clock, size, 0)
  }

  /** One turn of the loop: either the attempt shows nothing and is retried, or it is the last. */
  method RunAttempt(json: Json, thinking: bool, u: Upstream, answers: NativeAnswers, message: string, mayRetry: bool,
                    encode: Event -> Raw, decode: Raw -> Event, clock: nat -> real, size: Event -> nat)
    returns (shown: seq<Event>, again: bool)
    requires Codec(encode, decode)
    ensures again <==> mayRetry && FailsEarly(json, thinking, u, clock, size)
    ensures again ==> shown == []
    ensures !again ==> shown == NativeOutput(json, thinking, u, answers, message)
  {
    var tracker := new EmittedNativeSseTracker();
    var holdback := NewHoldback(clock, size, 0);
    shown := [];
    assert Track([]) == NewTracker;
    if u.Sent? {
      var ticks;
      shown, ticks := ReadUpstream(thinking, u.events, encode, decode, tracker, holdback, clock, size, 0);
    }
    ghost var es := Shown(thinking, u);
    assert es == shown + holdback.events && tracker.State() == Track(es);
    assert holdback.Held(es, clock, size, 0);
    var outcome := if u.Refused? then Failed(u.retryable)
                   else if u.end.Broke? then Failed(u.end.retryable)
                   else if tracker.messageStopped then Completed
                   else Failed(true);
    assert outcome == UpstreamOutcome(thinking, u);
    match outcome
    case Completed =>
      var last := holdback.Flush();
      return shown + last, false;
    case Failed(retryable) =>
      var salvageable := tracker.CanSalvageToolUse(json);
      if !holdback.committed && u.Sent? && retryable && !(tracker.blocks.keys != [] && salvageable) && mayRetry {
        holdback.Discard();
        return [], true;
      }
      ghost var held := holdback.events;
      var rest := EndFailed(json, tracker, holdback, retryable, answers, message, shown);
      ConcatAssoc(shown, held, NativeFailureTail(json, es, retryable, answers, message));
      return shown + rest, false;
  }

  /** The first `n` attempts fail early; `clocks` are the readings each attempt takes. */
  ghost predicate AllFailEarly(json: Json, thinking: bool, upstreams: seq<Upstream>, clocks: nat -> nat -> real, size: Event -> nat, n: nat)
    requires n <= |upstreams|
  {
    n == 0 || (&& AllFailEarly(json, thinking, upstreams, clocks, size, n - 1)
               && FailsEarly(json, thinking, upstreams[n - 1], clocks(n - 1), size))
  }

  /** Attempt `n`, after those before it have failed early. */
  method NextAttempt(json: Json, thinking: bool, upstreams: seq<Upstream>, n: nat, answers: NativeAnswers, message: string,
                     encode: Event -> Raw, decode: Raw -> Event, clocks: nat -> nat -> real, size: Event -> nat)
    returns (shown: seq<Event>, again: bool)
    requires Codec(encode, decode) && n < |upstreams| && AllFailEarly(json, thinking, upstreams, clocks, size, n)
    ensures again ==> n < 4 && shown == [] && AllFailEarly(json, thinking, upstreams, clocks, size, n + 1)
    ensures !again ==> shown == NativeOutput(json, thinking, upstreams[n], answers, message)
    ensures !again && n < 4 ==> !AllFailEarly(json, thinking, upstreams, clocks, size, n + 1)
  {
    shown, again := RunAttempt(json, thinking, upstreams[n], answers, message, n < EARLY_TRANSPARENT_MAX_RETRIES,
                               encode, decode, clocks(n), size);
  }

  /** `stream_response`, for runs that return normally. `upstreams` are the upstream streams an attempt
      may meet, `answers` and `messages` what recovery and error mapping would make of each. What the
      client is sent is the output of one attempt only, in order and whole: the first that does not fail
      early, or else the fifth. */
  method StreamResponse(json: Json, thinking: bool, upstreams: seq<Upstream>, answers: nat -> NativeAnswers,
                        messages: nat -> string, encode: Event -> Raw, decode: Raw -> Event,
                        clocks: nat -> nat -> real, size: Event -> nat)
    returns (out: seq<Event>, retries: nat)
    requires |upstreams| >= EARLY_TRANSPARENT_TOTAL_ATTEMPTS && Codec(encode, decode)
    ensures retries < EARLY_TRANSPARENT_TOTAL_ATTEMPTS
    ensures out == NativeOutput(json, thinking, upstreams[retries], answers(retries), messages(retries))
    ensures retries <= 4 && AllFailEarly(json, thinking, upstreams, clocks, size, retries)
    ensures retries < 4 ==> !AllFailEarly(json, thinking, upstreams, clocks, size, retries + 1)
  {
    out, retries := [], 0;
    while true
      invariant 0 <= retries < EARLY_TRANSPARENT_TOTAL_ATTEMPTS
      invariant AllFailEarly(json, thinking, upstreams, clocks, size, retries)
      decreases EARLY_TRANSPARENT_TOTAL_ATTEMPTS - retries
    {
      var events, again := NextAttempt(json, thinking, upstreams, retries, answers(retries), messages(retries),
                                       encode, decode, clocks, size);
      if !again {
        out := events;
        return;
      }
      retries := retries + 1;
    }
  }
}
