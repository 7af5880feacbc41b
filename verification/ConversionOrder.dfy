/** The order of a converted history (core/anthropic/conversion.py): every message's own parts in their
    order, message after message, and where the held-back texts go. */
module ConversionOrder {
  import opened Conversion
  import opened OrderedDict
  import Text

  // ----- what the order should be -----

  /** Texts held back, and the tool ids awaited before they may be shown. */
  datatype Wait = Nothing | Wait(ids: set<string>, items: seq<Item>)

  function HeldItems(w: Wait): seq<Item> {
    if w.Nothing? then [] else w.items
  }

  lemma EmptiesExists(blocks: seq<Block>, ids: set<string>)
    requires ids != {} && ids - Answered(blocks) == {}
    ensures exists n: nat :: Empties(blocks, ids, n)
  {
    var n := EmptiesSomewhere(blocks, ids);
  }

  /** A user message: the held-back texts come before it when nothing is awaited any more, and otherwise
      right after the result that answers the last awaited id (and again after each later result). */
  ghost function UserLaid(blocks: seq<Block>, w: Wait): seq<Item> {
    if w.Nothing? then UserItems(blocks)
    else if w.ids == {} then w.items + UserItems(blocks)
    else if w.ids - Answered(blocks) != {} then UserItems(blocks)
    else
      EmptiesExists(blocks, w.ids);
      var n: nat :| Empties(blocks, w.ids, n);
      UserItems(blocks[..n + 1]) + w.items + Repeated(blocks[n + 1..], w.items)
  }

  /** Texts up to the first tool call, then all calls; the texts after it are held back. */
  function AssistantLaid(blocks: seq<Block>, mode: Replay): seq<Item> {
    match FirstTool(blocks)
    case None => AssistantItems(blocks, mode)
    case Some(i) => TextItems(blocks[..i], mode) + CallItems(blocks)
  }

  /** What a message puts in, after what has gone before. Texts still held back when the next assistant
      message or a user string comes go before it. */
  ghost function MessageLaid(m: Message, w: Wait, mode: Replay): seq<Item> {
    match m
    case Message(Assistant, Blocks(blocks), _) => HeldItems(w) + AssistantLaid(blocks, mode)
    case Message(User, Blocks(blocks), _) => UserLaid(blocks, w)
    case Message(User, Str(s), _) => HeldItems(w) + [UserText(s)]
    case Message(Assistant, Str(s), reasoning) => StringItems(s, reasoning, mode)
  }

  /** The ids of the calls, those of white space only left aside. */
  function AwaitedIds(blocks: seq<Block>): set<string> {
    set k | 0 <= k < |blocks| && blocks[k].ToolUseB? && Text.Strip(blocks[k].call.id) != "" :: blocks[k].call.id
  }

  lemma {:induction false} CallsOf(blocks: seq<Block>, call: Call)
    ensures call in ToolCalls(blocks) <==> exists k :: 0 <= k < |blocks| && blocks[k] == ToolUseB(call)
    decreases |blocks|
  {
    if blocks != [] {
      CallsOf(blocks[1..], call);
      if k :| 0 <= k < |blocks| && blocks[k] == ToolUseB(call) {
        assert k > 0 ==> blocks[1..][k - 1] == ToolUseB(call);
      }
      if k :| 0 <= k < |blocks[1..]| && blocks[1..][k] == ToolUseB(call) {
        assert blocks[k + 1] == ToolUseB(call);
      }
      if blocks[0].ToolUseB? && blocks[0].call == call {
        assert blocks[0] == ToolUseB(call);
      }
    }
  }

  lemma AwaitedAre(blocks: seq<Block>)
    ensures CallIds(ToolCalls(blocks)) == AwaitedIds(blocks)
  {
    forall id ensures id in CallIds(ToolCalls(blocks)) <==> id in AwaitedIds(blocks) {
      if id in CallIds(ToolCalls(blocks)) {
        var c :| c in ToolCalls(blocks) && Text.Strip(c.id) != "" && c.id == id;
        CallsOf(blocks, c);
      }
      if id in AwaitedIds(blocks) {
        var k :| 0 <= k < |blocks| && blocks[k].ToolUseB? && Text.Strip(blocks[k].call.id) != "" && blocks[k].call.id == id;
        CallsOf(blocks, blocks[k].call);
        assert blocks[k] == ToolUseB(blocks[k].call);
      }
    }
  }

  lemma {:induction false} NoneLeft(blocks: seq<Block>)
    ensures NoToolUses(blocks) == [] <==> forall k :: 0 <= k < |blocks| ==> blocks[k].ToolUseB?
    decreases |blocks|
  {
    if blocks != [] {
      NoneLeft(blocks[1..]);
      assert forall k :: 0 < k < |blocks| ==> blocks[1..][k - 1] == blocks[k];
    }
  }

  /** What is held back then. */
  function WaitAfter(m: Message, w: Wait, mode: Replay): Wait {
    match m
    case Message(Assistant, Blocks(blocks), _) =>
      (match FirstTool(blocks)
       case None => Nothing
       case Some(i) =>
         if forall k :: i < k < |blocks| ==> blocks[k].ToolUseB? then Nothing
         else Wait(AwaitedIds(blocks), TextItems(blocks[i + 1..], mode)))
    case Message(User, Blocks(blocks), _) =>
      if w.Nothing? || w.ids - Answered(blocks) == {} then Nothing else w.(ids := w.ids - Answered(blocks))
    case Message(User, Str(_), _) => Nothing
    case Message(Assistant, Str(_), _) => w
  }

  /** The history in order; what is still held back at its end comes last. */
  ghost function Laid(messages: seq<Message>, w: Wait, mode: Replay): seq<Item>
    decreases |messages|
  {
    if messages == [] then HeldItems(w)
    else MessageLaid(messages[0], w, mode) + Laid(messages[1..], WaitAfter(messages[0], w, mode), mode)
  }

  // ----- the conversion puts it so -----

  function Waiting(c: Converted, mode: Replay): Wait {
    if c.pending.None? then Nothing else Wait(c.pending.value.remaining, PendingItems(c, mode))
  }

  /** The message has been put in, and is to be continued as it should. */
  ghost predicate Puts(c: Converted, m: Message, mode: Replay) {
    var d := AddMessage(c, m, mode);
    && OutItems(d.out) == OutItems(c.out) + MessageLaid(m, Waiting(c, mode), mode)
    && Waiting(d, mode) == WaitAfter(m, Waiting(c, mode), mode)
  }

  lemma FlushPuts(c: Converted, mode: Replay)
    ensures var d := FlushPending(c, mode);
            d.pending.None? && OutItems(d.out) == OutItems(c.out) + HeldItems(Waiting(c, mode))
  {
    if c.pending.Some? {
      OutSnoc(c.out, DeferredMessage(c.pending.value, mode));
    } else {
      assert OutItems(c.out) + [] == OutItems(c.out);
    }
  }

  lemma {:induction false} NoToolsInOrder(blocks: seq<Block>, mode: Replay)
    requires forall k :: 0 <= k < |blocks| ==> !blocks[k].ToolUseB?
    ensures AssistantItems(blocks, mode) == Says(AssistantParts(blocks, mode))
    decreases |blocks|
  {
    if blocks != [] {
      var rest := blocks[1..];
      assert forall k :: 0 <= k < |rest| ==> rest[k] == blocks[k + 1];
      NoToolsInOrder(rest, mode);
      SaysConcat(PartsOf(blocks[0], mode), AssistantParts(rest, mode));
      PartsSay(blocks[0], mode);
    }
  }

  lemma AddAssistantPuts(c: Converted, blocks: seq<Block>, reasoning: string, mode: Replay)
    requires c.pending.None?
    ensures var d := AddAssistant(c, blocks, reasoning, mode);
            && OutItems(d.out) == OutItems(c.out) + AssistantLaid(blocks, mode)
            && Waiting(d, mode) == WaitAfter(Message(Assistant, Blocks(blocks), reasoning), Nothing, mode)
  {
    match FirstTool(blocks)
    case None =>
      OutSnoc(c.out, ConvertAssistant(blocks, reasoning, mode));
      NoToolsInOrder(blocks, mode);
      assert Calls([]) == [] && Says(AssistantParts(blocks, mode)) + [] == Says(AssistantParts(blocks, mode));
    case Some(i) =>
      SplitItems(c, blocks, reasoning, mode, i);
      ToolUsesSayNothing(blocks[i + 1..], mode);
      TextItemsAre(blocks[..i], mode);
      TextItemsAre(blocks[i + 1..], mode);
      CallItemsAre(blocks);
      AwaitedAre(blocks);
      NoneLeft(blocks[i + 1..]);
      assert forall k :: i < k < |blocks| ==> blocks[i + 1..][k - i - 1] == blocks[k];
  }

  lemma AssistantPuts(c: Converted, m: Message, mode: Replay)
    requires m.role.Assistant? && m.content.Blocks?
    ensures Puts(c, m, mode)
  {
    var flushed := FlushPending(c, mode);
    FlushPuts(c, mode);
    AddAssistantPuts(flushed, m.content.blocks, m.reasoning, mode);
    ConcatAssoc(OutItems(c.out), HeldItems(Waiting(c, mode)), AssistantLaid(m.content.blocks, mode));
  }

  lemma PlainUserPuts(c: Converted, blocks: seq<Block>)
    ensures OutItems(c.out + ConvertUser(blocks, {}, None).out) == OutItems(c.out) + UserItems(blocks)
  {
    ConvertUserItems(blocks, {}, None);
    OutConcat(c.out, ConvertUser(blocks, {}, None).out);
  }

  lemma UserPuts(c: Converted, m: Message, mode: Replay)
    requires m.role.User? && m.content.Blocks?
    ensures Puts(c, m, mode)
  {
    var blocks, w := m.content.blocks, Waiting(c, mode);
    if w.Nothing? {
      PlainUserPuts(c, blocks);
    } else if w.ids == {} {
      FlushPuts(c, mode);
      PlainUserPuts(FlushPending(c, mode), blocks);
      ConcatAssoc(OutItems(c.out), w.items, UserItems(blocks));
      assert w.ids - Answered(blocks) == {};
    } else if w.ids - Answered(blocks) != {} {
      InjectionWaits(c, blocks, mode);
    } else {
      EmptiesExists(blocks, w.ids);
      var n: nat :| Empties(blocks, w.ids, n) && UserLaid(blocks, w) == UserItems(blocks[..n + 1]) + w.items + Repeated(blocks[n + 1..], w.items);
      InjectionLands(c, blocks, mode, n);
      InjectedItems(c, blocks, mode);
      InjectionCount(blocks, w.ids);
    }
  }

  lemma UserStringPuts(c: Converted, m: Message, mode: Replay)
    requires m.role.User? && m.content.Str?
    ensures Puts(c, m, mode)
  {
    FlushPuts(c, mode);
    OutSnoc(FlushPending(c, mode).out, UserOut([m.content.s]));
    assert Asks([m.content.s]) == [UserText(m.content.s)];
    ConcatAssoc(OutItems(c.out), HeldItems(Waiting(c, mode)), [UserText(m.content.s)]);
  }

  lemma MessagePuts(c: Converted, m: Message, mode: Replay)
    ensures Puts(c, m, mode)
  {
    if m.content.Blocks? {
      if m.role.User? {
        UserPuts(c, m, mode);
      } else {
        AssistantPuts(c, m, mode);
      }
    } else if m.role.User? {
      UserStringPuts(c, m, mode);
    } else {
      StringSays(m.content.s, m.reasoning, mode);
      OutSnoc(c.out, AssistantString(StringParts(m.content.s, m.reasoning, mode), if mode.ReasoningContent? then m.reasoning else ""));
    }
  }

  lemma {:induction false} MessagesPut(c: Converted, messages: seq<Message>, mode: Replay)
    ensures OutItems(FlushPending(AddMessages(c, messages, mode), mode).out) ==
            OutItems(c.out) + Laid(messages, Waiting(c, mode), mode)
    decreases |messages|
  {
    if messages == [] {
      FlushPuts(c, mode);
    } else {
      var w := Waiting(c, mode);
      MessagePuts(c, messages[0], mode);
      MessagesPut(AddMessage(c, messages[0], mode), messages[1..], mode);
      ConcatAssoc(OutItems(c.out), MessageLaid(messages[0], w, mode), Laid(messages[1..], WaitAfter(messages[0], w, mode), mode));
    }
  }

  /** The converted history is the history in its order, with the texts after an assistant's first tool
      call held back: up to the result that answers the last of its calls, or, if that does not come,
      up to the next assistant message or user string, or the next user message once nothing is
      awaited, or the end. */
  lemma ConversionKeepsOrder(messages: seq<Message>, mode: Replay)
    requires !Refused(messages)
    ensures OutItems(ConvertMessages(messages, mode).value) == Laid(messages, Nothing, mode)
  {
    MessagesPut(Converted([], None), messages, mode);
    assert OutItems([]) == [] && [] + Laid(messages, Nothing, mode) == Laid(messages, Nothing, mode);
  }

  // ----- how the parts are grouped into messages -----

  /** No two texts of the same message stand in messages side by side, and none stands empty. */
  predicate Grouped(out: seq<OpenAIMessage>) {
    forall i :: 0 <= i < |out| && out[i].UserOut? ==> out[i].texts != [] && (i + 1 < |out| ==> !out[i + 1].UserOut?)
  }

  /** While texts are being collected, the last message is none of texts. */
  predicate Collecting(u: UserState) {
    Grouped(u.out) && (u.out != [] ==> !u.out[|u.out| - 1].UserOut?)
  }

  lemma {:induction false} StepsGroup(u: UserState, blocks: seq<Block>, deferred: Option<OpenAIMessage>)
    requires Collecting(u) && (deferred.Some? ==> !deferred.value.UserOut?)
    ensures Grouped(UserSteps(u, blocks, deferred).out)
    decreases |blocks|
  {
    if blocks != [] {
      StepsGroup(UserStep(u, blocks[0], deferred), blocks[1..], deferred);
    }
  }

  /** The texts of a user message between two tool results come out as one user message. */
  lemma UserTextsGroup(blocks: seq<Block>, remaining: set<string>, p: Pending, mode: Replay)
    ensures Grouped(ConvertUser(blocks, remaining, None).out)
    ensures Grouped(ConvertUser(blocks, remaining, Some(DeferredMessage(p, mode))).out)
  {
    StepsGroup(UserState([], [], remaining, false), blocks, None);
    StepsGroup(UserState([], [], remaining, false), blocks, Some(DeferredMessage(p, mode)));
  }

  /** An assistant message comes out as one message, its texts up to the first tool call together with all
      its calls, after what was held back before it. */
  lemma AssistantIsOneMessage(c: Converted, m: Message, mode: Replay)
    requires m.role.Assistant? && m.content.Blocks?
    ensures var before, after := FlushPending(c, mode).out, AddMessage(c, m, mode).out;
            && |before| <= |c.out| + 1 && |after| == |before| + 1 && after[..|before|] == before
            && after[|before|].AssistantOut?
            && OutItem(after[|before|]) == AssistantLaid(m.content.blocks, mode)
  {
    var blocks := m.content.blocks;
    match FirstTool(blocks)
    case None =>
      NoToolsInOrder(blocks, mode);
      assert Calls([]) == [] && Says(AssistantParts(blocks, mode)) + [] == Says(AssistantParts(blocks, mode));
    case Some(i) =>
      TextItemsAre(blocks[..i], mode);
      CallItemsAre(blocks);
  }
}
