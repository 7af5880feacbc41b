/** Inputs on which an OpenAI stream shows a tool's arguments past the rule that Task calls run in the
    foreground, or past the schema of the name it shows. */
module OpenAIShortfalls {
  import opened OrderedDict
  import opened StreamContract
  import opened BlockState
  import opened JsonTexts
  import opened ToolCalls
  import opened ToolFragments
  import opened StreamRecovery
  import opened OpenAIStream
  import opened OpenAIContract
  import opened OpenAIRecovery
  import opened OpenAIArguments
  import opened OpenAITasks
  import Text

  // ----- attempts with one tool -----

  /** An attempt that sends these calls in one chunk, and then ends or is cut. */
  function CallsOnly(calls: seq<ToolCall>, finish: Option<FinishReason>): Attempt {
    Opened([Chunk(finish, "", [], calls)], if finish.None? then Broke(true) else Exhausted, NoLeftover, [])
  }

  function FirstCall(name: string, args: string): ToolCall {
    ToolCall(Some(0), Some("call_1"), Some(name), args, "tool_1")
  }

  function NextCall(name: string, args: string): ToolCall {
    ToolCall(Some(0), None, Some(name), args, "tool_2")
  }

  lemma CallsOnlyContent(json: Json, calls: seq<ToolCall>, finish: Option<FinishReason>)
    ensures NewSession.(b := ProcessContent(json, false, NewBlocks, CallsOnly(calls, finish).chunks[0]).b) == NewSession
  {
    assert ProcessParts(json, false, NewBlocks, []) == Out(NewBlocks, []);
  }

  lemma ChunkOnly(json: Json, s: Session, chunk: Chunk, t: int)
    ensures ProcessChunks(json, false, s, [chunk]).s == ProcessChunk(json, false, s, chunk).s
    ensures ProcessChunks(json, false, s, [chunk]).raised == ProcessChunk(json, false, s, chunk).raised
    ensures AddressedIn(json, false, s, [chunk], t) ==
            Addressed(json, s.(b := ProcessContent(json, false, s.b, chunk).b), chunk.calls, t)
  {
    assert [chunk][1..] == [];
    var turn := ProcessChunk(json, false, s, chunk);
    assert AddressedIn(json, false, turn.s, [], t) == [];
  }

  lemma CallsOnlyTurn(json: Json, calls: seq<ToolCall>, finish: Option<FinishReason>, t: int)
    ensures var turn, a := ProcessToolCalls(json, NewSession, calls), CallsOnly(calls, finish);
            && AttemptTurn(json, false, a).s == turn.s && AttemptTurn(json, false, a).raised == turn.raised
            && Fragments(json, false, a, t) == Addressed(json, NewSession, calls, t)
  {
    CallsOnlyContent(json, calls, finish);
    ChunkOnly(json, NewSession, CallsOnly(calls, finish).chunks[0], t);
  }

  lemma ToolZeroCall(json: Json, s: Session, es: seq<Event>, before: seq<Fragment>, tc: ToolCall)
    requires tc.ToolCall? && tc.index == Some(0) && Follows(json, s, es, before, 0)
    requires !json.parse(Assembled(json, before + [Said(tc)]).taskBuffer).NotObject?
    ensures var turn := ProcessToolCall(json, s, tc);
            !turn.raised && Follows(json, turn.s, es + turn.events, before + [Said(tc)], 0)
  {
    OwnCallFollows(json, s, es, before, tc, 0);
    if ProcessToolCall(json, s, tc).raised {
      CallRaises(json, s, tc);
      assert false;
    }
  }

  /** The calls raise nothing and say `frags` of tool 0, and nothing of any other. */
  ghost predicate SayJust(json: Json, s: Session, calls: seq<ToolCall>, frags: seq<Fragment>) {
    && !ProcessToolCalls(json, s, calls).raised
    && forall t :: Addressed(json, s, calls, t) == if t == 0 then frags else []
  }

  lemma SayMore(json: Json, s: Session, tc: ToolCall, rest: seq<ToolCall>, frags: seq<Fragment>)
    requires tc.ToolCall? && tc.index == Some(0) && !ProcessToolCall(json, s, tc).raised
    requires SayJust(json, ProcessToolCall(json, s, tc).s, rest, frags)
    ensures SayJust(json, s, [tc] + rest, [Said(tc)] + frags)
  {
    assert ([tc] + rest)[0] == tc && ([tc] + rest)[1..] == rest;
  }

  lemma SayOne(json: Json, s: Session, tc: ToolCall)
    requires tc.ToolCall? && tc.index == Some(0) && !ProcessToolCall(json, s, tc).raised
    ensures SayJust(json, s, [tc], [Said(tc)])
  {
    SayMore(json, s, tc, [], []);
    ConcatEmpty([tc]);
    ConcatEmpty([Said(tc)]);
  }

  /** The attempt's one tool has just those fragments. */
  lemma ToolZeroAttempt(json: Json, calls: seq<ToolCall>, frags: seq<Fragment>, finish: Option<FinishReason>)
    requires SayJust(json, NewSession, calls, frags) && HasInk(Named(frags))
    ensures var a := CallsOnly(calls, finish);
            && Fragments(json, false, a, 0) == frags
            && (forall t :: Live(AttemptTurn(json, false, a).s.b, t) <==> t == 0)
            && AttemptOutcome(json, false, a) == if finish.None? then Failed(true) else Finished(finish.value)
  {
    var a := CallsOnly(calls, finish);
    assert a.chunks[..|a.chunks| - 1] == [];
    forall t ensures Live(AttemptTurn(json, false, a).s.b, t) <==> t == 0 {
      CallsOnlyTurn(json, calls, finish, t);
      AttemptFollows(json, false, a, t);
    }
    CallsOnlyTurn(json, calls, finish, 0);
  }

  lemma SayTwo(json: Json, x: ToolCall, y: ToolCall, f: Fragment, g: Fragment)
    requires x.ToolCall? && x.index == Some(0) && f == Said(x)
    requires y.ToolCall? && y.index == Some(0) && g == Said(y)
    requires !json.parse(Assembled(json, [f]).taskBuffer).NotObject?
    requires !json.parse(Assembled(json, [f, g]).taskBuffer).NotObject?
    ensures SayJust(json, NewSession, [x, y], [f, g])
  {
    var turn := ProcessToolCall(json, NewSession, x);
    NewFollows(json, 0);
    assert [] + [f] == [f] && [f] + [g] == [f, g] && [x] + [y] == [x, y];
    ToolZeroCall(json, NewSession, [], [], x);
    ToolZeroCall(json, turn.s, [] + turn.events, [f], y);
    SayOne(json, turn.s, y);
    SayMore(json, NewSession, x, [y], [g]);
  }

  // ----- Task calls past the rule -----

  lemma TaskIsAName()
    ensures HasInk("Task") && Text.Strip("Task") == "Task"
  {
    assert !IsSpace("Task"[0]) && !IsSpace("Task"[3]);
    Text.StripShort("Task");
  }

  lemma OneFragment(json: Json, name: string, args: string)
    requires HasInk(name)
    ensures var frags := [Said(FirstCall(name, args))];
            && Named(frags) == name && FirstName(frags) == name
            && Assembled(json, frags) == Take(json, NewStrand, name, args)
  {
    assert [Said(FirstCall(name, args))][..0] == [];
    assert Take(json, NewStrand, name, "") == NewStrand;
  }

  lemma OneIsSaid(json: Json, name: string, args: string)
    requires HasInk(name) && json.parse("").NotJson? && !json.parse(Take(json, NewStrand, name, args).taskBuffer).NotObject?
    ensures SayJust(json, NewSession, [FirstCall(name, args)], [Said(FirstCall(name, args))])
  {
    var frags := [Said(FirstCall(name, args))];
    OneFragment(json, name, args);
    NewFollows(json, 0);
    ConcatEmpty(frags);
    ToolZeroCall(json, NewSession, [], [], FirstCall(name, args));
    SayOne(json, NewSession, FirstCall(name, args));
  }

  lemma HeldTask(json: Json, args: string)
    requires JsonRules(json) && args != "" && json.parse(args).NotJson?
    ensures SayJust(json, NewSession, [FirstCall("Task", args)], [Said(FirstCall("Task", args))])
    ensures Assembled(json, [Said(FirstCall("Task", args))]) == Strand("", args, false, "")
  {
    TaskIsAName();
    OneFragment(json, "Task", args);
    assert "" + args == args;
    OneIsSaid(json, "Task", args);
  }

  /** The client is shown a Task, with these arguments. */
  ghost predicate TaskShown(json: Json, a: Attempt, answers: Answers, message: string, args: string) {
    var out := AttemptOutput(json, false, a, answers, message);
    exists i :: StartedAs(out, i, "Task") && ShownJson(out, i) == args
  }

  lemma ToolZeroShown(json: Json, calls: seq<ToolCall>, frags: seq<Fragment>, finish: Option<FinishReason>, answers: Answers, message: string)
    requires json.parse("").NotJson? && SayJust(json, NewSession, calls, frags) && HasInk(Named(frags))
    requires Text.Strip(FirstName(frags)) == "Task"
    ensures var a := CallsOnly(calls, finish);
            TaskShown(json, a, answers, message, Assembled(json, frags).shown + SentLast(json, false, a, answers, 0))
  {
    ToolZeroAttempt(json, calls, frags, finish);
    ShownArguments(json, false, CallsOnly(calls, finish), answers, message, 0);
  }

  lemma ToolZeroRecovers(json: Json, calls: seq<ToolCall>, frags: seq<Fragment>, answers: Answers)
    requires SayJust(json, NewSession, calls, frags) && HasInk(Named(frags))
    requires var name, x := Named(frags), Assembled(json, frags);
             json.Complete(Waiting(name, x), name) || TryRepair(json, Waiting(name, x), name, 0, answers.repairs, 0).Suffix?
    ensures Recovers(json, AttemptTurn(json, false, CallsOnly(calls, None)).s, answers)
  {
    var s := AttemptTurn(json, false, CallsOnly(calls, None)).s;
    ToolZeroAttempt(json, calls, frags, None);
    AttemptFollows(json, false, CallsOnly(calls, None), 0);
    assert Live(s.b, 0);
    WaitingIsRepaired(json, s, frags, answers.repairs);
    SoleToolRecovers(json, s, answers);
  }

  lemma WaitingIsRepaired(json: Json, s: Session, frags: seq<Fragment>, repairs: RepairAnswers)
    requires Live(s.b, 0) && s.b.tools.at[0].name == Named(frags) && StrandOf(s, 0) == Assembled(json, frags)
    requires var name, x := Named(frags), Assembled(json, frags);
             json.Complete(Waiting(name, x), name) || TryRepair(json, Waiting(name, x), name, 0, repairs, 0).Suffix?
    ensures Repairable(json, s, 0, repairs)
  {
    assert RepairPrefix(s, 0) == Waiting(Named(frags), Assembled(json, frags));
    RepairIsFound(json, RepairPrefix(s, 0), Named(frags), 0, repairs);
  }

  lemma SoleToolRecovers(json: Json, s: Session, answers: Answers)
    requires (forall t :: Live(s.b, t) <==> t == 0) && Live(s.b, 0) && Repairable(json, s, 0, answers.repairs)
    ensures Recovers(json, s, answers)
  {
  }

  /** A Task cut short and completed on request: the client is shown what the model wrote, and if that
      runs in the background, so will the Task. */
  lemma RepairedTaskEscapes(json: Json, args: string, more: string, answers: Answers, message: string)
    requires JsonRules(json) && args != "" && json.parse(args).NotJson? && answers.estimate.Some?
    requires TryRepair(json, args, "Task", 0, answers.repairs, 0) == Suffix(more) && !json.inForeground(args + more)
    ensures TaskShown(json, CallsOnly([FirstCall("Task", args)], None), answers, message, args + more)
    ensures !Obeys(json, args + more)
  {
    var calls, frags := [FirstCall("Task", args)], [Said(FirstCall("Task", args))];
    TaskIsAName();
    OneFragment(json, "Task", args);
    HeldTask(json, args);
    ToolZeroShown(json, calls, frags, None, answers, message);
    ToolZeroAttempt(json, calls, frags, None);
    ToolZeroRecovers(json, calls, frags, answers);
    assert "" + (args + more) == args + more;
  }

  /** A Task whose stream ends normally before its arguments parse is sent an empty object, which does
      not say where to run. */
  lemma DrainedTaskEscapes(json: Json, args: string, answers: Answers, message: string)
    requires JsonRules(json) && args != "" && json.parse(args).NotJson? && !json.inForeground("{}")
    ensures TaskShown(json, CallsOnly([FirstCall("Task", args)], Some(ToolCallsFinish)), answers, message, "{}")
    ensures !Obeys(json, "{}")
  {
    var calls, frags := [FirstCall("Task", args)], [Said(FirstCall("Task", args))];
    TaskIsAName();
    OneFragment(json, "Task", args);
    HeldTask(json, args);
    ToolZeroShown(json, calls, frags, Some(ToolCallsFinish), answers, message);
    ToolZeroAttempt(json, calls, frags, Some(ToolCallsFinish));
    assert "" + "{}" == "{}";
  }

  lemma PaddedIsStripped()
    ensures Text.Strip("Task ") == "Task" && HasInk("Task ")
  {
    assert !IsSpace("Task "[0]);
    assert Text.LStrip("Task ") == "Task ";
    assert "Task "[..4] == "Task" && IsSpace("Task "[4]);
    assert Text.RStrip("Task") == "Task";
  }

  lemma PaddedTask(json: Json, args: string)
    requires json.parse("").NotJson? && !json.aliased("Task ")
    ensures SayJust(json, NewSession, [FirstCall("Task ", args)], [Said(FirstCall("Task ", args))])
    ensures var frags := [Said(FirstCall("Task ", args))];
            && Assembled(json, frags) == Strand(args, "", false, "") && Named(frags) == FirstName(frags) == "Task "
  {
    PaddedIsStripped();
    OneFragment(json, "Task ", args);
    assert "" + args == args;
    OneIsSaid(json, "Task ", args);
  }

  /** A name with white space after it is shown as Task, but its arguments are passed on as they come. */
  lemma PaddedTaskEscapes(json: Json, args: string, answers: Answers, message: string)
    requires JsonRules(json) && !json.aliased("Task ") && !Obeys(json, args)
    ensures TaskShown(json, CallsOnly([FirstCall("Task ", args)], Some(ToolCallsFinish)), answers, message, args)
  {
    var calls, frags := [FirstCall("Task ", args)], [Said(FirstCall("Task ", args))];
    PaddedIsStripped();
    PaddedTask(json, args);
    ToolZeroShown(json, calls, frags, Some(ToolCallsFinish), answers, message);
    ToolZeroAttempt(json, calls, frags, Some(ToolCallsFinish));
    assert args + ("" + "") == args;
  }

  lemma ExtendedName(args: string)
    ensures var frags := [Said(FirstCall("Task", "")), Said(NextCall("Group", args))];
            && Named(frags) == "TaskGroup" && FirstName(frags) == "Task"
            && Named(frags[..1]) == "Task" && HasInk("TaskGroup")
  {
    var frags := [Said(FirstCall("Task", "")), Said(NextCall("Group", args))];
    TaskIsAName();
    var first := [Said(FirstCall("Task", ""))];
    assert frags[..1] == first && first[..0] == [];
    assert Named(first) == "Task" && FirstName(first) == "Task";
    assert frags[..|frags| - 1] == first;
    GroupExtends();
    assert Named(frags) == MergeName("Task", "Group");
  }

  lemma GroupExtends()
    ensures MergeName("Task", "Group") == "TaskGroup" && HasInk("TaskGroup")
  {
    TaskIsAName();
    assert "Group"[0] != "Task"[0];
    assert !("Task" <= "Group") && !("Group" <= "Task");
    assert "Task" + "Group" == "TaskGroup";
    InkStays("Task", "TaskGroup");
  }

  lemma ExtendedStrand(json: Json, args: string)
    requires !json.aliased("TaskGroup")
    ensures Assembled(json, [Said(FirstCall("Task", ""))]) == NewStrand
    ensures Assembled(json, [Said(FirstCall("Task", "")), Said(NextCall("Group", args))]) == Strand(args, "", false, "")
  {
    var frags := [Said(FirstCall("Task", "")), Said(NextCall("Group", args))];
    var first := [Said(FirstCall("Task", ""))];
    TaskIsAName();
    ExtendedName(args);
    OneFragment(json, "Task", "");
    assert frags[..|frags| - 1] == first;
    assert "" + args == args;
    assert Assembled(json, frags) == Take(json, NewStrand, "TaskGroup", args);
  }

  lemma ExtendedIsSaid(json: Json, args: string)
    requires json.parse("").NotJson? && !json.aliased("TaskGroup")
    ensures SayJust(json, NewSession, [FirstCall("Task", ""), NextCall("Group", args)],
                    [Said(FirstCall("Task", "")), Said(NextCall("Group", args))])
  {
    ExtendedStrand(json, args);
    SayTwo(json, FirstCall("Task", ""), NextCall("Group", args), Said(FirstCall("Task", "")), Said(NextCall("Group", args)));
  }

  /** A block started as Task, whose name is then made longer: its arguments are passed on as they come. */
  lemma ExtendedTaskEscapes(json: Json, args: string, answers: Answers, message: string)
    requires JsonRules(json) && !json.aliased("TaskGroup") && !Obeys(json, args)
    ensures TaskShown(json, CallsOnly([FirstCall("Task", ""), NextCall("Group", args)], Some(ToolCallsFinish)), answers, message, args)
  {
    var calls, frags := [FirstCall("Task", ""), NextCall("Group", args)], [Said(FirstCall("Task", "")), Said(NextCall("Group", args))];
    TaskIsAName();
    ExtendedName(args);
    ExtendedStrand(json, args);
    ExtendedIsSaid(json, args);
    ToolZeroShown(json, calls, frags, Some(ToolCallsFinish), answers, message);
    ToolZeroAttempt(json, calls, frags, Some(ToolCallsFinish));
    assert args + ("" + "") == args;
  }

  // ----- complete by a name the client is not shown -----

  lemma RecoveredIsToolUse(json: Json, s: Session, answers: Answers)
    requires HasStartedTool(s.b) && Recover(json, s, answers).Recovered?
    ensures MessageDelta(Some(ToolUse)) in Recover(json, s, answers).events
  {
    var repairs := ToolRepairs(json, s, answers);
    RecoveryParts(repairs.b, [], repairs.events, ToolUse, answers);
    assert MessageDelta(Some(ToolUse)) in RecoveryEnd(repairs.b, ToolUse);
    ConcatEmpty(Recover(json, s, answers).events);
  }

  lemma FailedEndsInToolUse(json: Json, s: Session, answers: Answers, message: string)
    requires s.b.tools.Valid() && Live(s.b, 0) && answers.estimate.Some? && Recovers(json, s, answers)
    ensures MessageDelta(Some(ToolUse)) in FailureTail(json, s, true, answers, message)
  {
    RecoversWhen(json, s, answers);
    RecoveredIsToolUse(json, s, answers);
  }

  lemma ToolZeroEndsInToolUse(json: Json, calls: seq<ToolCall>, frags: seq<Fragment>, answers: Answers, message: string)
    requires SayJust(json, NewSession, calls, frags) && HasInk(Named(frags)) && answers.estimate.Some?
    requires Recovers(json, AttemptTurn(json, false, CallsOnly(calls, None)).s, answers)
    ensures MessageDelta(Some(ToolUse)) in AttemptOutput(json, false, CallsOnly(calls, None), answers, message)
  {
    ToolZeroAttempt(json, calls, frags, None);
    AttemptSound(json, false, CallsOnly(calls, None));
    FailedEndsInToolUse(json, AttemptTurn(json, false, CallsOnly(calls, None)).s, answers, message);
  }

  /** A cut stream ends with stop reason tool_use, and the arguments shown for a Task are not what the
      schema of Task accepts: they were held against the schema of its name with the white space. */
  lemma ShownNameRefuses(json: Json, args: string, answers: Answers, message: string)
    requires json.parse("").NotJson? && !json.aliased("Task ") && answers.estimate.Some?
    requires json.Complete(args, "Task ") && !json.valid("Task", args)
    ensures var a := CallsOnly([FirstCall("Task ", args)], None);
            && MessageDelta(Some(ToolUse)) in AttemptOutput(json, false, a, answers, message)
            && TaskShown(json, a, answers, message, args) && !json.Complete(args, "Task")
  {
    var calls, frags := [FirstCall("Task ", args)], [Said(FirstCall("Task ", args))];
    PaddedIsStripped();
    PaddedTask(json, args);
    ToolZeroShown(json, calls, frags, None, answers, message);
    ToolZeroAttempt(json, calls, frags, None);
    ToolZeroRecovers(json, calls, frags, answers);
    ToolZeroEndsInToolUse(json, calls, frags, answers, message);
    assert args + ("" + "") == args;
  }
}
