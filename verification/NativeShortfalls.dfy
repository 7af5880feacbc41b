/** Upstream attempts for which the native transport does not do what it promises: for each exception in
    its theorems, one input that meets it. */
module NativeShortfalls {
  import opened BlockState
  import opened EmittedTracker
  import opened JsonTexts
  import opened NativeContent
  import opened NativeContinuation
  import opened NativePolicy
  import opened NativeRecovery
  import opened NativeStream
  import opened OrderedDict
  import opened StreamContract
  import opened StreamRecovery
  import Text

  // ----- a recovery goes to a block that takes no more deltas -----

  /** An attempt that breaks off, shown as it came. */
  lemma BegunOutput(json: Json, thinking: bool, es: seq<Event>, answers: NativeAnswers, message: string)
    requires Repair(thinking, es).out == es
    ensures NativeOutput(json, thinking, Sent(es, Broke(true)), answers, message) ==
            es + NativeFailureTail(json, es, true, answers, message)
  {
  }

  const FULL_TEXT := [MessageStart, BlockStart(0, TextBlock("Hi"))]

  lemma FullTextTracked()
    ensures Track(FULL_TEXT) == Tracker([0], 0, Dict([0], map[0 := EmittedBlock(TextKind, true, "", "", "Hi")]), None, false)
    ensures Run(Fresh, FULL_TEXT) == Check(map[0 := NoDeltas], {0}, true)
  {
    TrackTwo([], MessageStart, BlockStart(0, TextBlock("Hi")));
    assert [] + FULL_TEXT == FULL_TEXT && [] + [0] == [0];
    assert HasInk("Hi") by {
      assert !IsSpace("Hi"[0]);
    }
    RunTwo(Fresh, MessageStart, FULL_TEXT[1]);
  }

  lemma FullTextParts(t: Tracker)
    requires t == Tracker([0], 0, Dict([0], map[0 := EmittedBlock(TextKind, true, "", "", "Hi")]), None, false)
    ensures PartialText(t) == "Hi" && ToolOrder(t.blocks, t.blocks.keys) == []
    ensures LastOpen(t.blocks, t.stack, TextKind) == Some(0)
  {
    EmittedOne(t.blocks, 0, TextKind);
    assert [0][1..] == [];
  }

  /** A text recovery, seen from the tracker. */
  lemma TextRecoversFull(json: Json, es: seq<Event>, t: Tracker, answers: NativeAnswers)
    requires t == Track(es) && Run(Fresh, es).ok && ToolOrder(t.blocks, t.blocks.keys) == [] && t.blocks.keys != []
    requires PartialText(t) != "" && answers.continuation.Some? && RecoveredText(t, answers) != ""
    requires var last := LastOpen(t.blocks, t.stack, TextKind);
             last.Some? && last.value in Run(Fresh, es).open && Run(Fresh, es).open[last.value] == NoDeltas
    ensures RecoversClosed(json, es, true, answers)
  {
    FullBlockByRun(es, RecoveredText(t, answers));
  }

  lemma FullTextRecovers(json: Json, answers: NativeAnswers)
    requires answers.continuation.Some? && "Hi" < answers.continuation.value.0
    ensures RecoversClosed(json, FULL_TEXT, true, answers)
  {
    var text := answers.continuation.value.0;
    FullTextTracked();
    FullTextParts(Track(FULL_TEXT));
    assert Continued("Hi", text) == text[2..];
    TextRecoversFull(json, FULL_TEXT, Track(FULL_TEXT), answers);
  }

  /** A text block that starts with its text, is cut, and then continued: the client is sent a delta the
      contract refuses. */
  lemma FullTextBlockBreaks(json: Json, thinking: bool, answers: NativeAnswers, message: string)
    requires answers.continuation.Some? && "Hi" < answers.continuation.value.0
    ensures !Contract(NativeOutput(json, thinking, Sent(FULL_TEXT, Broke(true)), answers, message), true)
  {
    FullTextShown(thinking);
    BegunOutput(json, thinking, FULL_TEXT, answers, message);
    FullTextFails(json, answers, message);
  }

  lemma FullTextFails(json: Json, answers: NativeAnswers, message: string)
    requires answers.continuation.Some? && "Hi" < answers.continuation.value.0
    ensures !Contract(FULL_TEXT + NativeFailureTail(json, FULL_TEXT, true, answers, message), true)
  {
    FullTextRecovers(json, answers);
    FullTextTracked();
    assert FULL_TEXT[0] == MessageStart;
    FailureContract(json, FULL_TEXT, true, answers, message);
  }

  lemma FullTextShown(thinking: bool)
    ensures Repair(thinking, FULL_TEXT).out == FULL_TEXT
  {
    var e, f := FULL_TEXT[0], FULL_TEXT[1];
    assert [] + [e] == [e] && [e] + [f] == FULL_TEXT;
    RepairSnoc(thinking, [], e);
    RepairSnoc(thinking, [e], f);
  }

  const CLOSED_TOOL := [MessageStart, BlockStart(0, ToolUseBlock("toolu_1", "Read", "{}")), BlockStop(0)]

  lemma BegunAndStopped(block: ContentBlock)
    ensures Track([MessageStart, BlockStart(0, block), BlockStop(0)]) ==
            Tracker([], 0, Dict([0], map[0 := StartedBlock(block).(open := false)]), None, false)
    ensures Run(Fresh, [MessageStart, BlockStart(0, block), BlockStop(0)]) == Check(map[], {0}, AllowedStart(block))
  {
    TrackBegun(block);
    TrackSnoc([MessageStart, BlockStart(0, block)], BlockStop(0));
    assert [MessageStart, BlockStart(0, block)] + [BlockStop(0)] == [MessageStart, BlockStart(0, block), BlockStop(0)];
    BegunIsStopped(StartedBlock(block));
    RunThree(Fresh, MessageStart, BlockStart(0, block), BlockStop(0));
    assert map[0 := StorageOf(block)] - {0} == map[];
  }

  lemma TrackBegun(block: ContentBlock)
    ensures Track([MessageStart, BlockStart(0, block)]) ==
            Tracker([0], 0, Dict([0], map[0 := StartedBlock(block)]), None, false)
  {
    TrackTwo([], MessageStart, BlockStart(0, block));
    assert [] + [MessageStart, BlockStart(0, block)] == [MessageStart, BlockStart(0, block)];
    assert [] + [0] == [0];
  }

  lemma BegunIsStopped(begun: EmittedBlock)
    ensures Observe(Tracker([0], 0, Dict([0], map[0 := begun]), None, false), BlockStop(0)) ==
            Tracker([], 0, Dict([0], map[0 := begun.(open := false)]), None, false)
  {
    assert [0][..0] == [];
    assert map[0 := begun][0 := begun.(open := false)] == map[0 := begun.(open := false)];
  }

  lemma ClosedToolRepair(json: Json, t: Tracker, repairs: RepairAnswers)
    requires t == Tracker([], 0, Dict([0], map[0 := EmittedBlock(ToolKind, false, "toolu_1", "Read", "")]), None, false)
    requires json.Complete("{}", "Read") && !json.Complete("", "Read") && repairs(0, 0) == Some("{}")
    ensures ToolOrder(t.blocks, t.blocks.keys) == [0]
    ensures RecoverNativeTools(json, t, NativeAnswers(repairs, None)).Some?
  {
    var blocks := t.blocks;
    assert [0][1..] == [];
    assert ToolOrder(blocks, [0]) == [0] + ToolOrder(blocks, []);
    FirstAnswerCompletes(json, repairs);
    var repaired := AppendRepair(t, 0, "{}");
    assert "" + "{}" == "{}";
    assert RepairBlocks(json, repaired.t, [], 1, repairs) == Some(Told(repaired.t, []));
    RepairKeepsOrder(json, t, repaired.t);
  }

  lemma FirstAnswerCompletes(json: Json, repairs: RepairAnswers)
    requires json.Complete("{}", "Read") && repairs(0, 0) == Some("{}")
    ensures TryRepair(json, "", "Read", 0, repairs, 0) == Suffix("{}")
  {
    assert Text.LStrip("{}") == "{}" && Text.RStrip("{}") == "{}";
    assert RepairCandidates("", "{}")[0] == "{}";
    assert "" + "{}" == "{}";
  }

  lemma ClosedToolShown(thinking: bool)
    ensures Repair(thinking, CLOSED_TOOL).out == CLOSED_TOOL
  {
    var e, f, g := CLOSED_TOOL[0], CLOSED_TOOL[1], CLOSED_TOOL[2];
    assert [] + [e] == [e] && [e] + [f] == [e, f] && [e, f] + [g] == CLOSED_TOOL;
    RepairSnoc(thinking, [], e);
    RepairSnoc(thinking, [e], f);
    RepairSnoc(thinking, [e, f], g);
  }

  /** A tool block that was stopped with its arguments cut short, then repaired: the client is sent a
      delta for a closed block. */
  lemma ClosedToolBlockBreaks(json: Json, thinking: bool, repairs: RepairAnswers, message: string)
    requires json.Complete("{}", "Read") && !json.Complete("", "Read") && repairs(0, 0) == Some("{}")
    ensures !Contract(NativeOutput(json, thinking, Sent(CLOSED_TOOL, Broke(true)), NativeAnswers(repairs, None), message), true)
  {
    ClosedToolShown(thinking);
    BegunOutput(json, thinking, CLOSED_TOOL, NativeAnswers(repairs, None), message);
    ClosedToolFails(json, repairs, message);
  }

  lemma ClosedToolFails(json: Json, repairs: RepairAnswers, message: string)
    requires json.Complete("{}", "Read") && !json.Complete("", "Read") && repairs(0, 0) == Some("{}")
    ensures !Contract(CLOSED_TOOL + NativeFailureTail(json, CLOSED_TOOL, true, NativeAnswers(repairs, None), message), true)
  {
    var t := Track(CLOSED_TOOL);
    BegunAndStopped(ToolUseBlock("toolu_1", "Read", "{}"));
    ClosedToolRepair(json, t, repairs);
    RecoversNativeWhen(json, t, NativeAnswers(repairs, None));
    assert 0 in [0] && !Usable(json, t.blocks.at[0]);
    assert CLOSED_TOOL[0] == MessageStart;
    FailureContract(json, CLOSED_TOOL, true, NativeAnswers(repairs, None), message);
  }

  // ----- a continuation goes before text that was already there -----

  const EMPTY_TEXT := TextBlock("")
  const FIRST := [MessageStart, BlockStart(0, EMPTY_TEXT)]
  const BOTH := FIRST + [BlockStart(1, EMPTY_TEXT)]
  const BACK := BOTH + [BlockDelta(0, TextDelta("x"))]

  /** Two text blocks; text for the first comes after the second has started, and the first stops. */
  const BETWEEN := BACK + [BlockStop(0)]

  const SPLIT := FIRST + [BlockStop(0), BlockStart(1, EMPTY_TEXT)]
  const RESUMED := SPLIT + [BlockStart(2, EMPTY_TEXT), BlockDelta(2, TextDelta("x"))]
  const REOPENED := RESUMED + [BlockStop(2)]

  const P_FIRST := Policy(1, Dict([0], map[0 := Segment(0, true, EMPTY_TEXT)]), {}, {})
  const P_BOTH := Policy(2, Dict([0, 1], map[0 := Segment(0, false, EMPTY_TEXT), 1 := Segment(1, true, EMPTY_TEXT)]), {}, {0})

  lemma FirstShown(thinking: bool)
    ensures Repair(thinking, FIRST) == Passed(P_FIRST, FIRST)
  {
    var e, f := FIRST[0], FIRST[1];
    assert [] + [e] == [e] && [e] + [f] == FIRST && [] + [0] == [0];
    RepairSnoc(thinking, [], e);
    RepairSnoc(thinking, [e], f);
    assert map[][0 := Segment(0, true, EMPTY_TEXT)] == map[0 := Segment(0, true, EMPTY_TEXT)];
  }

  lemma FirstCloses()
    ensures CloseOthers(P_FIRST, 1, [0]) ==
            Passed(Policy(1, Dict([0], map[0 := Segment(0, false, EMPTY_TEXT)]), {}, {0}), [BlockStop(0)])
  {
    var shut := Policy(1, Dict([0], map[0 := Segment(0, false, EMPTY_TEXT)]), {}, {0});
    assert [0][1..] == [] && CloseOthers(shut, 1, []) == Passed(shut, []);
    assert {} + {0} == {0};
    assert map[0 := Segment(0, true, EMPTY_TEXT)][0 := Segment(0, false, EMPTY_TEXT)] == map[0 := Segment(0, false, EMPTY_TEXT)];
    assert [BlockStop(0)] + [] == [BlockStop(0)];
  }

  lemma SecondCloses(thinking: bool)
    ensures PassStart(P_FIRST, thinking, 1, EMPTY_TEXT) == Passed(P_BOTH, [BlockStop(0), BlockStart(1, EMPTY_TEXT)])
  {
    FirstCloses();
    assert [0] + [1] == [0, 1] && [BlockStop(0)] + [BlockStart(1, EMPTY_TEXT)] == [BlockStop(0), BlockStart(1, EMPTY_TEXT)];
    assert map[0 := Segment(0, false, EMPTY_TEXT)][1 := Segment(1, true, EMPTY_TEXT)] ==
           map[0 := Segment(0, false, EMPTY_TEXT), 1 := Segment(1, true, EMPTY_TEXT)];
  }

  lemma FirstReopens(thinking: bool)
    ensures var r := PassDelta(P_BOTH, thinking, 0, TextDelta("x"));
            && r.out == [BlockStart(2, EMPTY_TEXT), BlockDelta(2, TextDelta("x"))]
            && PassStop(r.p, thinking, 0).out == [BlockStop(2)]
  {
  }

  /** The first block comes back under a new index, after the second, and only the second stays open. */
  lemma BetweenShown(thinking: bool)
    ensures Repair(thinking, BETWEEN).out == REOPENED
  {
    FirstShown(thinking);
    SecondCloses(thinking);
    RepairSnoc(thinking, FIRST, BlockStart(1, EMPTY_TEXT));
    assert Repair(thinking, BOTH) == Passed(P_BOTH, SPLIT);
    FirstReopens(thinking);
    RepairSnoc(thinking, BOTH, BlockDelta(0, TextDelta("x")));
    RepairSnoc(thinking, BACK, BlockStop(0));
  }

  function SomeText(open: bool, text: string): EmittedBlock {
    EmittedBlock(TextKind, open, "", "", text)
  }

  const T_SPLIT := Tracker([1], 1, Dict([0, 1], map[0 := SomeText(false, ""), 1 := SomeText(true, "")]), None, false)
  const T_REOPENED :=
    Tracker([1], 2, Dict([0, 1, 2], map[0 := SomeText(false, ""), 1 := SomeText(true, ""), 2 := SomeText(false, "x")]), None, false)

  lemma SplitTracked()
    ensures Track(SPLIT) == T_SPLIT
  {
    TrackBegun(EMPTY_TEXT);
    TrackTwo(FIRST, BlockStop(0), BlockStart(1, EMPTY_TEXT));
    BegunIsStopped(StartedBlock(EMPTY_TEXT));
    assert [] + [1] == [1] && [0] + [1] == [0, 1];
    assert map[0 := SomeText(false, "")][1 := SomeText(true, "")] == map[0 := SomeText(false, ""), 1 := SomeText(true, "")];
  }

  lemma ResumedThenStopped()
    ensures Observe(Observe(Observe(T_SPLIT, BlockStart(2, EMPTY_TEXT)), BlockDelta(2, TextDelta("x"))), BlockStop(2)) == T_REOPENED
  {
    assert "" + "x" == "x" && [1] + [2] == [1, 2] && [1, 2][..1] == [1] && [0, 1] + [2] == [0, 1, 2];
    var at := map[0 := SomeText(false, ""), 1 := SomeText(true, "")];
    assert at[2 := SomeText(true, "")][2 := SomeText(true, "x")][2 := SomeText(false, "x")] == at[2 := SomeText(false, "x")];
    assert at[2 := SomeText(false, "x")] == map[0 := SomeText(false, ""), 1 := SomeText(true, ""), 2 := SomeText(false, "x")];
  }

  lemma ReopenedTracked()
    ensures Track(REOPENED) == T_REOPENED
  {
    SplitTracked();
    TrackTwo(SPLIT, BlockStart(2, EMPTY_TEXT), BlockDelta(2, TextDelta("x")));
    TrackSnoc(RESUMED, BlockStop(2));
    ResumedThenStopped();
  }

  lemma BetweenIsOk()
    ensures Run(Fresh, BETWEEN).ok
  {
    RunTwo(Fresh, MessageStart, BlockStart(0, EMPTY_TEXT));
    RunSnoc(Fresh, FIRST, BlockStart(1, EMPTY_TEXT));
    RunSnoc(Fresh, BOTH, BlockDelta(0, TextDelta("x")));
    RunSnoc(Fresh, BACK, BlockStop(0));
  }

  lemma ReopenedEmits()
    ensures EmittedOf(T_REOPENED.blocks, [0, 1, 2], TextKind) == "x" && EmittedOf(T_REOPENED.blocks, [2], TextKind) == "x"
    ensures ToolOrder(T_REOPENED.blocks, [0, 1, 2]) == []
  {
    var blocks := T_REOPENED.blocks;
    assert [0, 1, 2][1..] == [1, 2] && [1, 2][1..] == [2] && [2][1..] == [];
    assert EmittedOf(blocks, [2], TextKind) == "x" + "" == "x";
    assert EmittedOf(blocks, [1, 2], TextKind) == "" + "x" == "x";
    assert EmittedOf(blocks, [0, 1, 2], TextKind) == "" + "x" == "x";
    assert ToolOrder(blocks, [2]) == [] && ToolOrder(blocks, [1, 2]) == [];
  }

  lemma ReopenedReads()
    requires Run(Fresh, REOPENED).ok
    ensures ClientText(REOPENED, TextKind) == "x" && LaterText(REOPENED, TextKind) == "x"
  {
    ReopenedTracked();
    ReopenedEmits();
    TrackShowsOrder(REOPENED);
    EmittedIsClientText(REOPENED, TextKind);
    EmittedIsJoined(REOPENED, [2], TextKind);
    assert [0, 1, 2][1..] == [1, 2] && [1, 2][1..] == [2];
    assert After([0, 1, 2], 1) == After([1, 2], 1) == [2];
  }

  lemma TextRecovers(json: Json, t: Tracker, answers: NativeAnswers)
    requires ToolOrder(t.blocks, t.blocks.keys) == [] && PartialText(t) != "" && RecoveredText(t, answers) != ""
    ensures RecoverNative(json, t, answers).Some?
  {
    AppendOnlyBlocks(t, Continued(PartialThinking(t), answers.continuation.value.1), RecoveredText(t, answers));
  }

  lemma RecoveredOutput(json: Json, thinking: bool, es: seq<Event>, shown: seq<Event>, answers: NativeAnswers, message: string)
    requires Repair(thinking, es).out == shown && Track(shown).blocks.keys != [] && RecoverNative(json, Track(shown), answers).Some?
    ensures NativeOutput(json, thinking, Sent(es, Broke(true)), answers, message) ==
            shown + RecoverNative(json, Track(shown), answers).value
  {
  }

  lemma XContinues()
    ensures Continued("x", "xy") == "y"
  {
    assert "xy"[1..] == "y" && "xy"[..1] == "x";
  }

  lemma ReopenedRecovers(json: Json, answers: NativeAnswers)
    requires answers.continuation == Some(("xy", ""))
    ensures RecoverNative(json, T_REOPENED, answers).Some?
  {
    ReopenedEmits();
    XContinues();
    TextRecovers(json, T_REOPENED, answers);
  }

  lemma YGoesFirst()
    ensures Ends("x", "x") && Inserted("x", "x", "y") == "yx"
  {
    assert "x"[..0] == "" && "" + "y" + "x" == "yx";
  }

  /** The client had read "x"; the provider goes on with "xy", and the client reads "yx". */
  lemma ContinuationGoesBetween(json: Json, thinking: bool, repairs: RepairAnswers, message: string)
    ensures var answers := NativeAnswers(repairs, Some(("xy", "")));
            ClientText(NativeOutput(json, thinking, Sent(BETWEEN, Broke(true)), answers, message), TextKind) == "yx"
  {
    var answers := NativeAnswers(repairs, Some(("xy", "")));
    BetweenShown(thinking);
    BetweenIsOk();
    RepairSimulates(thinking, BETWEEN);
    ReopenedTracked();
    ReopenedRecovers(json, answers);
    RecoveredOutput(json, thinking, BETWEEN, REOPENED, answers, message);
    ReopenedContinues(json, answers);
  }

  lemma ReopenedContinues(json: Json, answers: NativeAnswers)
    requires Run(Fresh, REOPENED).ok && answers.continuation == Some(("xy", ""))
    requires Track(REOPENED) == T_REOPENED && RecoverNative(json, T_REOPENED, answers).Some?
    ensures ClientText(REOPENED + RecoverNative(json, T_REOPENED, answers).value, TextKind) == "yx"
  {
    ReopenedReads();
    ReopenedEmits();
    RecoveredTextInserted(json, REOPENED, answers);
    XContinues();
    YGoesFirst();
  }

  // ----- a cut frame -----

  const ONE_BLOCK := [MessageStart, BlockStart(0, TextBlock("")), BlockStop(0), MessageStop]

  lemma OneBlockContract()
    ensures Framed(ONE_BLOCK) && Contract(ONE_BLOCK, false) && Contract(ONE_BLOCK, true)
    ensures KeepsSome(false, ONE_BLOCK) && KeepsSome(true, ONE_BLOCK)
  {
    var es := ONE_BLOCK[..3];
    assert es == [MessageStart, BlockStart(0, TextBlock("")), BlockStop(0)] && ONE_BLOCK == es + [MessageStop];
    RunThree(Fresh, es[0], es[1], es[2]);
    RunSnoc(Fresh, es, MessageStop);
    assert map[0 := TextStream] - {0} == map[];
    assert 0 in Run(Fresh, ONE_BLOCK).seen;
    ContractByRun(ONE_BLOCK, false);
    ContractByRun(ONE_BLOCK, true);
    assert ONE_BLOCK[1].BlockStart?;
  }

  /** The upstream ends without a word inside the frame of a block: the frame's name is passed on without
      its data, and the contract refuses it whatever follows. */
  lemma CutFrameBreaks(json: Json, thinking: bool, answers: NativeAnswers, message: string)
    ensures CutAt(ONE_BLOCK, Sent([MessageStart, Malformed], Exhausted), 1)
    ensures !Contract(NativeOutput(json, thinking, Sent([MessageStart, Malformed], Exhausted), answers, message), true)
  {
    var u := Sent([MessageStart, Malformed], Exhausted);
    OneBlockContract();
    ContractByRun(ONE_BLOCK, true);
    assert u.events[0] == MessageStart && u.events[1] == Malformed;
    CutStreamContract(json, thinking, ONE_BLOCK, u, 1, answers, message);
  }

  /** It ends inside the very first frame: what the client is sent then has no message_start. */
  lemma CutFirstFrameBreaks(json: Json, thinking: bool, name: string, answers: NativeAnswers, message: string)
    ensures CutAt(ONE_BLOCK, Sent([OtherEvent(name)], Exhausted), 0)
    ensures !Contract(NativeOutput(json, thinking, Sent([OtherEvent(name)], Exhausted), answers, message), true)
  {
    var u := Sent([OtherEvent(name)], Exhausted);
    OneBlockContract();
    ContractByRun(ONE_BLOCK, true);
    assert MessageStart !in u.events;
    CutStreamContract(json, thinking, ONE_BLOCK, u, 0, answers, message);
  }

  // ----- a failure after the end -----

  /** The whole message is shown and then the connection fails: the client is sent a second
      message_stop. */
  lemma BrokenAfterStopBreaks(json: Json, thinking: bool, answers: NativeAnswers, message: string)
    ensures !Framed(NativeOutput(json, thinking, Sent(ONE_BLOCK, Broke(false)), answers, message))
  {
    OneBlockContract();
    BrokenAfterStop(json, thinking, ONE_BLOCK, false, answers, message);
  }

  // ----- every block dropped -----

  const THINKING_ONLY := [MessageStart, BlockStart(0, ThinkingBlock("")), BlockDelta(0, ThinkingDelta("Hm")), BlockStop(0), MessageStop]

  lemma ThinkingOnlyContract()
    ensures Contract(THINKING_ONLY, true)
  {
    var e, f := THINKING_ONLY[0], THINKING_ONLY[4];
    var blocks := [THINKING_ONLY[1], THINKING_ONLY[2], THINKING_ONLY[3]];
    assert THINKING_ONLY == [e] + blocks + [f];
    RunOne(Fresh, e);
    RunConcat(Fresh, [e], blocks);
    RunThree(Fresh, blocks[0], blocks[1], blocks[2]);
    RunSnoc(Fresh, [e] + blocks, f);
    assert map[0 := ThinkingStream] - {0} == map[];
    assert 0 in Run(Fresh, THINKING_ONLY).seen;
    ContractByRun(THINKING_ONLY, true);
  }

  /** A message that only thinks, with thinking disabled: it meets the contract, and what the client is
      sent of it does not. */
  lemma ThinkingOnlyBreaks(json: Json, answers: NativeAnswers, message: string)
    ensures Contract(THINKING_ONLY, true)
    ensures !Contract(NativeOutput(json, false, Sent(THINKING_ONLY, Exhausted), answers, message), true)
  {
    ThinkingOnlyContract();
    assert !KeepsSome(false, THINKING_ONLY);
    CompleteStreamContract(json, false, THINKING_ONLY, answers, message);
  }
}
