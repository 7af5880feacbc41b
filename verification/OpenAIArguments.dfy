/** What the client is shown of every tool's arguments over a whole attempt
    (providers/openai_compat.py: the stream, the flushes at its end, and the repairs). */
module OpenAIArguments {
  import opened OrderedDict
  import opened StreamContract
  import opened BlockState
  import opened JsonTexts
  import opened ToolCalls
  import opened ToolFragments
  import opened StreamRecovery
  import opened OpenAIStream
  import opened OpenAIContract
  import opened OpenAIRecovery
  import Text

  // ----- the normal end -----

  /** The tool as before, but for what has been shown of its arguments. */
  predicate SameButShown(before: ToolCallState, after: ToolCallState, shown: string) {
    after.contents == shown && after.started == before.started && after.blockIndex == before.blockIndex
  }

  /** What the end of a stream sends of a tool's arguments that are still held back. */
  function FlushEnd(json: Json, name: string, x: Strand): string {
    AliasEnd(json, name, x) + if x.taskBuffer != "" then "{}" else ""
  }

  function AliasEnd(json: Json, name: string, x: Strand): string {
    if name != "Task" && json.aliased(name) then x.aliasBuffer else ""
  }

  lemma FlushAliasShows(json: Json, s: Session, u: int, t: int)
    requires t in s.b.tools.at && (t in s.aliasBuffers.at ==> json.parse(s.aliasBuffers.at[t]).NotJson?)
    ensures var s', state := FlushAlias(json, s, u).s, s.b.tools.at[t];
            && t in s'.b.tools.at && (t in s'.aliasBuffers.at ==> json.parse(s'.aliasBuffers.at[t]).NotJson?)
            && (u != t ==> s'.b.tools.at[t] == state && AliasBuffer(s', t) == AliasBuffer(s, t))
            && (u == t ==> s'.b.tools.at[t] == state.(contents := state.contents + AliasEnd(json, state.name, StrandOf(s, t)))
                           && AliasEnd(json, state.name, StrandOf(s', t)) == "")
  {
    ConcatEmpty(s.b.tools.at[t].contents);
  }

  lemma {:induction false} FlushAliasesShow(json: Json, s: Session, order: seq<int>, t: int)
    requires t in s.b.tools.at && (t in s.aliasBuffers.at ==> json.parse(s.aliasBuffers.at[t]).NotJson?)
    requires AliasEnd(json, s.b.tools.at[t].name, StrandOf(s, t)) != "" ==> t in order
    ensures var s', state := FlushAliases(json, s, order).s, s.b.tools.at[t];
            && t in s'.b.tools.at
            && s'.b.tools.at[t] == state.(contents := state.contents + AliasEnd(json, state.name, StrandOf(s, t)))
    decreases |order|
  {
    ConcatEmpty(s.b.tools.at[t].contents);
    if order != [] {
      var s1 := FlushAlias(json, s, order[0]).s;
      FlushAliasShows(json, s, order[0], t);
      assert order == [order[0]] + order[1..];
      FlushAliasesShow(json, s1, order[1..], t);
      ConcatEmpty(s1.b.tools.at[t].contents);
    }
  }

  /** What the results hold for one tool. */
  function Gained(results: seq<(int, string)>, t: int): string {
    if results == [] then "" else (if results[0].0 == t then results[0].1 else "") + Gained(results[1..], t)
  }

  lemma {:induction false} EmitResultsGain(b: Blocks, results: seq<(int, string)>, t: int)
    requires t in b.tools.at && forall r :: r in results ==> r.0 in b.tools.at
    ensures var b' := EmitResults(b, results).b;
            t in b'.tools.at && SameButShown(b.tools.at[t], b'.tools.at[t], b.tools.at[t].contents + Gained(results, t))
    decreases |results|
  {
    var contents := b.tools.at[t].contents;
    assert contents + "" == contents;
    if results != [] {
      var gain := if results[0].0 == t then results[0].1 else "";
      assert results[0] in results;
      EmitResultsGain(EmitTool(b, results[0].0, results[0].1).b, results[1..], t);
      ConcatAssoc(contents, gain, Gained(results[1..], t));
    }
  }

  lemma {:induction false} DrainedTask(json: Json, b: Blocks, order: seq<int>, t: int)
    requires Distinct(order) && t in b.tools.at && !DrainTasks(json, b, order).raised
    requires b.tools.at[t].taskArgBuffer != "" ==> json.parse(b.tools.at[t].taskArgBuffer).NotJson?
    ensures var d := DrainTasks(json, b, order);
            var state := b.tools.at[t];
            && t in d.b.tools.at && SameButShown(state, d.b.tools.at[t], state.contents)
            && Gained(d.results, t) == if t in order && state.taskArgBuffer != "" && !state.taskArgsEmitted then "{}" else ""
    decreases |order|
  {
    if order != [] {
      var u, rest := order[0], order[1..];
      assert order == [u] + rest && u !in rest && Distinct(rest);
      var state := ToolAt(b, u);
      if u !in b.tools.at || state.taskArgBuffer == "" || state.taskArgsEmitted {
        DrainedTask(json, b, rest, t);
      } else {
        var b' := SetTool(b, u, state.(taskArgBuffer := "", taskArgsEmitted := true));
        DrainedTask(json, b', rest, t);
        var d, d' := DrainTasks(json, b, order), DrainTasks(json, b', rest);
        assert d.results[1..] == d'.results;
        assert "{}" + "" == "{}" && "" + Gained(d'.results, t) == Gained(d'.results, t);
      }
    }
  }

  /** The flushes send a Task whose arguments never parsed an empty object, and change no other. */
  lemma FlushTasksShow(json: Json, s: Session, es: seq<Event>, t: int)
    requires Sound(json, s, es) && Live(s.b, t)
    ensures var state, b' := s.b.tools.at[t], FlushTasks(json, s).s.b;
            && t in b'.tools.at
            && SameButShown(state, b'.tools.at[t], state.contents + if state.taskArgBuffer != "" then "{}" else "")
  {
    var state, order := s.b.tools.at[t], s.b.tools.keys;
    var d := DrainTasks(json, s.b, order);
    assert ToolTidy(state);
    DrainSound(json, s, es, order);
    DrainedKeys(json, s.b, order);
    DrainedTask(json, s.b, order, t);
    EmitResultsGain(d.b, d.results, t);
  }

  lemma FlushesShow(json: Json, s: Session, es: seq<Event>, t: int)
    requires Sound(json, s, es) && Live(s.b, t)
    ensures var state, b' := s.b.tools.at[t], Flushes(json, s).s.b;
            && t in b'.tools.at
            && SameButShown(state, b'.tools.at[t], state.contents + FlushEnd(json, state.name, StrandOf(s, t)))
  {
    var state := s.b.tools.at[t];
    var aliases := FlushAliases(json, s, s.aliasBuffers.keys);
    FlushAliasesSound(json, s, es, s.aliasBuffers.keys);
    FlushAliasesShow(json, s, s.aliasBuffers.keys, t);
    FlushTasksShow(json, aliases.s, es + aliases.events, t);
    ConcatAssoc(state.contents, AliasEnd(json, state.name, StrandOf(s, t)), if state.taskArgBuffer != "" then "{}" else "");
  }

  lemma FlushedShows(json: Json, thinking: bool, s: Session, es: seq<Event>, a: Attempt, t: int)
    requires Sound(json, s, es) && Live(s.b, t) && a.Opened?
    ensures var state, b' := s.b.tools.at[t], Flushed(json, thinking, s, a).s.b;
            && t in b'.tools.at
            && SameButShown(state, b'.tools.at[t], state.contents + FlushEnd(json, state.name, StrandOf(s, t)))
  {
    var content := FinishContent(json, thinking, s.b, a);
    FinishContentSound(json, thinking, s, es, a);
    FinishContentGood(json, thinking, s.b, es, a);
    FlushesShow(json, s.(b := content.b), es + content.events, t);
  }

  lemma {:induction false} ShownConcat(a: seq<Event>, b: seq<Event>, i: int)
    ensures ShownJson(a + b, i) == ShownJson(a, i) + ShownJson(b, i)
    decreases |b|
  {
    if b == [] {
      assert a + b == a;
      ConcatEmpty(ShownJson(a, i));
    } else {
      assert (a + b)[..|a + b| - 1] == a + b[..|b| - 1];
      ShownConcat(a, b[..|b| - 1], i);
      ConcatAssoc(ShownJson(a, i), ShownJson(b[..|b| - 1], i), JsonIn(b[|b| - 1], i));
    }
  }

  lemma {:induction false} SilentIsEmpty(es: seq<Event>, i: int)
    requires forall e :: e in es ==> JsonIn(e, i) == ""
    ensures ShownJson(es, i) == ""
    decreases |es|
  {
    if es != [] {
      assert es[|es| - 1] in es;
      SilentIsEmpty(es[..|es| - 1], i);
    }
  }

  lemma SilentShown(es: seq<Event>, more: seq<Event>, i: int)
    requires forall e :: e in more ==> JsonIn(e, i) == ""
    ensures ShownJson(es + more, i) == ShownJson(es, i)
  {
    ShownConcat(es, more, i);
    SilentIsEmpty(more, i);
    ConcatEmpty(ShownJson(es, i));
  }

  lemma EndShows(b: Blocks, es: seq<Event>, e: Event, i: int)
    requires e.MessageDelta?
    ensures ShownJson(es + (CloseAll(b).events + [e, MessageStop]), i) == ShownJson(es, i)
  {
    CloseShowsNothing(b);
    SilentShown(es, CloseAll(b).events + [e, MessageStop], i);
  }

  lemma CompletionParts(json: Json, thinking: bool, s: Session, es: seq<Event>, a: Attempt, finish: FinishReason)
    requires a.Opened?
    ensures var turn := Flushed(json, thinking, s, a);
            es + Completion(json, thinking, s, a, finish) ==
            es + turn.events + (CloseAll(turn.s.b).events + [MessageDelta(Some(MapStopReason(finish))), MessageStop])
  {
  }

  lemma CompletionShows(json: Json, thinking: bool, s: Session, es: seq<Event>, a: Attempt, finish: FinishReason, t: int)
    requires Sound(json, s, es) && Live(s.b, t) && a.Opened?
    ensures var state := s.b.tools.at[t];
            ShownJson(es + Completion(json, thinking, s, a, finish), state.blockIndex) ==
            state.contents + FlushEnd(json, state.name, StrandOf(s, t))
  {
    FlushedShows(json, thinking, s, es, a, t);
    FlushedGood(json, thinking, s, es, a);
    var turn := Flushed(json, thinking, s, a);
    assert Live(turn.s.b, t);
    EndShows(turn.s.b, es + turn.events, MessageDelta(Some(MapStopReason(finish))), s.b.tools.at[t].blockIndex);
    CompletionParts(json, thinking, s, es, a, finish);
  }

  lemma ErrorTailShows(b: Blocks, es: seq<Event>, message: string, i: int)
    ensures ShownJson(es + ErrorTail(b, message), i) == ShownJson(es, i)
  {
    var closed := CloseAll(b);
    CloseShowsNothing(b);
    var last := if HasStartedTool(closed.b) then [ErrorEvent(message)] else EmitError(closed.b, message).events;
    assert forall e :: e in last ==> JsonIn(e, i) == "";
    SilentShown(es, ErrorTail(b, message), i);
  }

  // ----- repairs -----

  /** What a repair starts from: what was shown, or, if nothing was, what is held back under the name. */
  function Waiting(name: string, x: Strand): string {
    if x.shown != "" then x.shown
    else if name == "Task" && x.taskBuffer != "" then x.taskBuffer
    else x.aliasBuffer
  }

  /** What a repair sends. */
  function RepairEnd(json: Json, name: string, x: Strand, t: int, repairs: RepairAnswers): string {
    var prefix := Waiting(name, x);
    var tried := TryRepair(json, prefix, name, t, repairs, 0);
    (if x.shown == "" then prefix else "")
    + if !json.Complete(prefix, name) && tried.Suffix? then tried.text else ""
  }

  lemma OwnRepairShows(json: Json, s: Session, t: int, repairs: RepairAnswers)
    requires t in s.b.tools.at && RepairTool(json, s, t, repairs).Some?
    ensures var b', state := RepairTool(json, s, t, repairs).value.b, s.b.tools.at[t];
            && t in b'.tools.at
            && SameButShown(state, b'.tools.at[t], state.contents + RepairEnd(json, state.name, StrandOf(s, t), t, repairs))
  {
    var state := s.b.tools.at[t];
    ConcatEmpty(state.contents);
    assert RepairPrefix(s, t) == Waiting(state.name, StrandOf(s, t));
    ConcatEmpty(RepairPrefix(s, t));
    if TryRepair(json, RepairPrefix(s, t), state.name, t, repairs, 0).Suffix? {
      ConcatEmpty(TryRepair(json, RepairPrefix(s, t), state.name, t, repairs, 0).text);
    }
  }

  lemma RepairToolShows(json: Json, s: Session, u: int, repairs: RepairAnswers, t: int)
    requires u in s.b.tools.at && t in s.b.tools.at && RepairTool(json, s, u, repairs).Some?
    ensures var b', state := RepairTool(json, s, u, repairs).value.b, s.b.tools.at[t];
            && t in b'.tools.at && (u != t ==> b'.tools.at[t] == state)
            && (u == t ==> SameButShown(state, b'.tools.at[t],
                                        state.contents + RepairEnd(json, state.name, StrandOf(s, t), t, repairs)))
  {
    if u == t {
      OwnRepairShows(json, s, t, repairs);
    }
  }

  lemma {:induction false} RepairsMiss(json: Json, s: Session, order: seq<int>, repairs: RepairAnswers, t: int)
    requires t in s.b.tools.at && t !in order && RepairTools(json, s, order, repairs).ok
    ensures var b' := RepairTools(json, s, order, repairs).b; t in b'.tools.at && b'.tools.at[t] == s.b.tools.at[t]
    decreases |order|
  {
    if order != [] {
      if Live(s.b, order[0]) {
        RepairToolShows(json, s, order[0], repairs, t);
        RepairsMiss(json, s.(b := RepairTool(json, s, order[0], repairs).value.b), order[1..], repairs, t);
      } else {
        RepairsMiss(json, s, order[1..], repairs, t);
      }
    }
  }

  lemma RepairsUnroll(json: Json, s: Session, u: int, rest: seq<int>, repairs: RepairAnswers)
    requires RepairTools(json, s, [u] + rest, repairs).ok
    ensures Live(s.b, u) ==> RepairTool(json, s, u, repairs).Some?
    ensures var r := RepairTools(json, if Live(s.b, u) then s.(b := RepairTool(json, s, u, repairs).value.b) else s, rest, repairs);
            r.ok && r.b == RepairTools(json, s, [u] + rest, repairs).b
  {
    assert ([u] + rest)[0] == u && ([u] + rest)[1..] == rest;
  }

  lemma {:induction false} RepairsShow(json: Json, s: Session, order: seq<int>, repairs: RepairAnswers, t: int)
    requires Distinct(order) && t in order && Live(s.b, t) && RepairTools(json, s, order, repairs).ok
    ensures var b', state := RepairTools(json, s, order, repairs).b, s.b.tools.at[t];
            && t in b'.tools.at
            && SameButShown(state, b'.tools.at[t], state.contents + RepairEnd(json, state.name, StrandOf(s, t), t, repairs))
    decreases |order|
  {
    var u, rest := order[0], order[1..];
    assert order == [u] + rest && u !in rest && Distinct(rest);
    RepairsUnroll(json, s, u, rest, repairs);
    if !Live(s.b, u) {
      RepairsShow(json, s, rest, repairs, t);
    } else {
      var b' := RepairTool(json, s, u, repairs).value.b;
      RepairToolShows(json, s, u, repairs, t);
      if u == t {
        RepairsMiss(json, s.(b := b'), rest, repairs, t);
      } else {
        assert StrandOf(s.(b := b'), t) == StrandOf(s, t);
        RepairsShow(json, s.(b := b'), rest, repairs, t);
      }
    }
  }

  lemma RecoveryShows(json: Json, s: Session, es: seq<Event>, answers: Answers, t: int)
    requires json.parse("").NotJson? && Good(s.b, es) && Live(s.b, t) && Recover(json, s, answers).Recovered?
    ensures var state := s.b.tools.at[t];
            ShownJson(es + Recover(json, s, answers).events, state.blockIndex) ==
            state.contents + RepairEnd(json, state.name, StrandOf(s, t), t, answers.repairs)
  {
    var state, repairs := s.b.tools.at[t], ToolRepairs(json, s, answers);
    ToolRepairsGood(json, s, es, answers);
    if AllStartedComplete(json, s.b) {
      assert json.Complete(state.contents, state.name);
      ConcatEmpty(state.contents);
    } else {
      RepairsShow(json, s, s.b.tools.keys, answers.repairs, t);
    }
    assert Live(repairs.b, t) && repairs.b.tools.at[t].blockIndex == state.blockIndex;
    RecoveryParts(repairs.b, es, repairs.events, ToolUse, answers);
    RecoveryEndShowsNothing(repairs.b, ToolUse);
    SilentShown(es + repairs.events, RecoveryEnd(repairs.b, ToolUse), state.blockIndex);
  }

  lemma FailureShows(json: Json, s: Session, es: seq<Event>, retryable: bool, answers: Answers, message: string, t: int)
    requires Good(s.b, es) && Live(s.b, t)
    ensures var shown := ShownJson(es + FailureTail(json, s, retryable, answers, message), s.b.tools.at[t].blockIndex);
            if retryable && Recover(json, s, answers).Recovered?
            then shown == ShownJson(es + Recover(json, s, answers).events, s.b.tools.at[t].blockIndex)
            else shown == s.b.tools.at[t].contents
  {
    var i := s.b.tools.at[t].blockIndex;
    var recovery := Recover(json, s, answers);
    if retryable && !recovery.Recovered? {
      ErrorTailShows(recovery.b, es, message, i);
      assert FailureTail(json, s, retryable, answers, message) == ErrorTail(recovery.b, message);
    } else if !retryable {
      ErrorTailShows(s.b, es, message, i);
    }
  }

  // ----- whole attempts -----

  /** What is sent of a tool's arguments after the attempt's own fragments: what was held back, at a normal
      end; what completes them, when a failed attempt is recovered. */
  ghost function SentLast(json: Json, thinking: bool, a: Attempt, answers: Answers, t: int): string {
    var frags := Fragments(json, thinking, a, t);
    var name, x := Named(frags), Assembled(json, frags);
    match AttemptOutcome(json, thinking, a)
    case Finished(_) => FlushEnd(json, name, x)
    case Failed(retryable) =>
      if retryable && answers.estimate.Some? && Recovers(json, AttemptTurn(json, thinking, a).s, answers)
      then RepairEnd(json, name, x, t, answers.repairs) else ""
  }

  /** However the attempt ends, the client is shown of a tool, under its first name, what the tool's own
      fragments make of its arguments, and then what is sent last. */
  lemma ShownArguments(json: Json, thinking: bool, a: Attempt, answers: Answers, message: string, t: int)
    requires json.parse("").NotJson? && Live(AttemptTurn(json, thinking, a).s.b, t)
    ensures var i := AttemptTurn(json, thinking, a).s.b.tools.at[t].blockIndex;
            var out, frags := AttemptOutput(json, thinking, a, answers, message), Fragments(json, thinking, a, t);
            && BlockStart(i, FirstBlock(frags)) in out && StartedAs(out, i, Text.Strip(FirstName(frags)))
            && ShownJson(out, i) == Assembled(json, frags).shown + SentLast(json, thinking, a, answers, t)
  {
    var turn, frags := AttemptTurn(json, thinking, a), Fragments(json, thinking, a, t);
    var state, out := turn.s.b.tools.at[t], AttemptOutput(json, thinking, a, answers, message);
    AttemptSound(json, thinking, a);
    AttemptFollows(json, thinking, a, t);
    MoreShown(turn.events, out[|turn.events|..], state.blockIndex, Text.Strip(FirstName(frags)));
    assert turn.events + out[|turn.events|..] == out;
    ConcatEmpty(state.contents);
    match AttemptOutcome(json, thinking, a)
    case Finished(finish) =>
      CompletionShows(json, thinking, turn.s, turn.events, a, finish, t);
    case Failed(retryable) =>
      FailureShows(json, turn.s, turn.events, retryable, answers, message, t);
      RecoversWhen(json, turn.s, answers);
      if retryable && Recover(json, turn.s, answers).Recovered? {
        RecoveryShows(json, turn.s, turn.events, answers, t);
      }
  }

  /** Whatever an attempt's chunks, and wherever they stop, arguments that are still buffered never parse:
      a tool that has shown nothing is never found complete, and all it may show comes from a repair. */
  lemma BufferedIsIncomplete(json: Json, thinking: bool, chunks: seq<Chunk>, t: int)
    requires json.parse("").NotJson?
    requires var turn := ProcessChunks(json, thinking, NewSession, chunks);
             !turn.raised && Live(turn.s.b, t) && turn.s.b.tools.at[t].contents == ""
    ensures var s := ProcessChunks(json, thinking, NewSession, chunks).s;
            !json.Complete(RepairPrefix(s, t), s.b.tools.at[t].name)
  {
    NewSound(json);
    ProcessChunksSound(json, thinking, NewSession, [], chunks);
  }
}
