/** Converting an Anthropic message history to OpenAI chat messages (core/anthropic/conversion.py).
    Assistant text after a tool call is held back until the tool's results have been replayed. */
module Conversion {
  import opened OrderedDict
  import Text

  datatype Replay = Disabled | ThinkTags | ReasoningContent

  datatype Call = Call(id: string, name: string, arguments: string)

  datatype Block =
    | TextB(text: string)
    | ThinkingB(thinking: string)
    | RedactedB
    | ToolUseB(call: Call)
    | ToolResultB(id: string, content: string)        // content as serialized
    | ImageB
    | ServerToolB
    | OtherB

  datatype Role = User | Assistant

  datatype Content = Str(s: string) | Blocks(blocks: seq<Block>)

  /** `reasoning` is empty when there is none. */
  datatype Message = Message(role: Role, content: Content, reasoning: string)

  /** A converted message. Its content is the join of `parts` (of `texts` for a user). */
  datatype OpenAIMessage =
    | AssistantOut(parts: seq<string>, calls: seq<Call>, reasoning: string)   // from a list of blocks
    | AssistantString(parts: seq<string>, reasoning: string)                  // from a string
    | UserOut(texts: seq<string>)
    | ToolOut(id: string, content: string)

  // ----- one assistant message -----

  function ThinkTagContent(reasoning: string): string {
    "<think>\n" + reasoning + "\n</think>"
  }

  /** The block types conversion refuses. */
  predicate Forbidden(role: Role, b: Block) {
    b.ImageB? || (role.Assistant? && b.ServerToolB?)
  }

  function PartsOf(b: Block, mode: Replay): seq<string> {
    match b
    case TextB(text) => [text]
    case ThinkingB(thinking) => if mode.ThinkTags? then [ThinkTagContent(thinking)] else []
    case _ => []
  }

  function AssistantParts(blocks: seq<Block>, mode: Replay): seq<string> {
    if blocks == [] then [] else PartsOf(blocks[0], mode) + AssistantParts(blocks[1..], mode)
  }

  function ThinkingParts(blocks: seq<Block>): seq<string> {
    if blocks == [] then []
    else (if blocks[0].ThinkingB? then [blocks[0].thinking] else []) + ThinkingParts(blocks[1..])
  }

  /** `_iter_tool_uses_in_order`. */
  function ToolCalls(blocks: seq<Block>): seq<Call> {
    if blocks == [] then [] else (if blocks[0].ToolUseB? then [blocks[0].call] else []) + ToolCalls(blocks[1..])
  }

  function ReplayedReasoning(blocks: seq<Block>, reasoning: string, mode: Replay): string {
    if !mode.ReasoningContent? then "" else if reasoning != "" then reasoning else Text.Join("\n", ThinkingParts(blocks))
  }

  /** `_convert_assistant_message`, for blocks without tool calls. */
  function ConvertAssistant(blocks: seq<Block>, reasoning: string, mode: Replay): OpenAIMessage {
    AssistantOut(AssistantParts(blocks, mode), [], ReplayedReasoning(blocks, reasoning, mode))
  }

  function StringParts(s: string, reasoning: string, mode: Replay): seq<string> {
    if reasoning != "" && mode.ThinkTags? then [ThinkTagContent(reasoning)] + (if s != "" then [s] else []) else [s]
  }

  /** The content field of a converted message. */
  function ContentOf(m: OpenAIMessage): string {
    match m
    case AssistantOut(parts, calls, _) =>
      var joined := Text.Join("\n\n", parts);
      if calls == [] then (if joined == "" then " " else joined) else if joined == " " then "" else joined
    case AssistantString(parts, _) => Text.Join("\n\n", parts)
    case UserOut(texts) => Text.Join("\n", texts)
    case ToolOut(_, content) => content
  }

  // ----- holding text back -----

  /** `_index_first_tool_use`. */
  function FirstTool(blocks: seq<Block>): (r: Option<nat>)
    ensures r.Some? ==> r.value < |blocks| && blocks[r.value].ToolUseB? && forall k :: 0 <= k < r.value ==> !blocks[k].ToolUseB?
    ensures r.None? ==> forall k :: 0 <= k < |blocks| ==> !blocks[k].ToolUseB?
  {
    if blocks == [] then None
    else if blocks[0].ToolUseB? then Some(0)
    else
      var rest := FirstTool(blocks[1..]);
      if rest.None? then None else Some(rest.value + 1)
  }

  function NoToolUses(blocks: seq<Block>): seq<Block> {
    if blocks == [] then [] else (if blocks[0].ToolUseB? then [] else [blocks[0]]) + NoToolUses(blocks[1..])
  }

  /** `_deferred_post_tool_blocks`. */
  function DeferredBlocks(blocks: seq<Block>, first: nat): seq<Block>
    requires first < |blocks|
  {
    NoToolUses(blocks[first + 1..])
  }

  /** The ids of tool calls that a result can answer. */
  function CallIds(calls: seq<Call>): set<string> {
    set c | c in calls && Text.Strip(c.id) != "" :: c.id
  }

  /** `_PendingAfterTools`, for a deferral that has not been emitted. */
  datatype Pending = Pending(remaining: set<string>, deferred: seq<Block>, reasoning: string)

  function DeferredMessage(p: Pending, mode: Replay): OpenAIMessage {
    ConvertAssistant(p.deferred, p.reasoning, mode)
  }

  // ----- one user message -----

  /** The loop state over a user message's blocks. */
  datatype UserState = UserState(out: seq<OpenAIMessage>, texts: seq<string>, remaining: set<string>, cleared: bool)

  function FlushText(u: UserState): UserState {
    if u.texts == [] then u else u.(out := u.out + [UserOut(u.texts)], texts := [])
  }

  /** One block; `deferred` is the message to inject once no tool id remains. */
  function UserStep(u: UserState, b: Block, deferred: Option<OpenAIMessage>): UserState {
    match b
    case TextB(text) => u.(texts := u.texts + [text])
    case ToolResultB(id, content) =>
      var f := FlushText(u);
      var answered := f.(out := f.out + [ToolOut(id, content)], remaining := f.remaining - {id});
      if deferred.Some? && answered.remaining == {}
      then answered.(out := answered.out + [deferred.value], cleared := true)
      else answered
    case _ => u
  }

  function UserSteps(u: UserState, blocks: seq<Block>, deferred: Option<OpenAIMessage>): UserState
    decreases |blocks|
  {
    if blocks == [] then FlushText(u) else UserSteps(UserStep(u, blocks[0], deferred), blocks[1..], deferred)
  }

  /** `_convert_user_message` and `_convert_user_message_with_injection`. */
  function ConvertUser(blocks: seq<Block>, remaining: set<string>, deferred: Option<OpenAIMessage>): UserState {
    UserSteps(UserState([], [], remaining, false), blocks, deferred)
  }

  // ----- the whole history -----

  datatype Converted = Converted(out: seq<OpenAIMessage>, pending: Option<Pending>)

  function FlushPending(c: Converted, mode: Replay): Converted {
    if c.pending.None? then c else Converted(c.out + [DeferredMessage(c.pending.value, mode)], None)
  }

  function AddAssistant(c: Converted, blocks: seq<Block>, reasoning: string, mode: Replay): Converted {
    match FirstTool(blocks)
    case None => c.(out := c.out + [ConvertAssistant(blocks, reasoning, mode)])
    case Some(i) =>
      var calls, pre, deferred := ToolCalls(blocks), blocks[..i], DeferredBlocks(blocks, i);
      Converted(c.out + [AssistantOut(AssistantParts(pre, mode), calls, ReplayedReasoning(pre, reasoning, mode))],
                if deferred != [] then Some(Pending(CallIds(calls), deferred, reasoning)) else c.pending)
  }

  function AddUser(c: Converted, blocks: seq<Block>, mode: Replay): Converted {
    if c.pending.None? then c.(out := c.out + ConvertUser(blocks, {}, None).out)
    else if c.pending.value.remaining == {} then
      var flushed := FlushPending(c, mode);
      flushed.(out := flushed.out + ConvertUser(blocks, {}, None).out)
    else
      var p := c.pending.value;
      var u := ConvertUser(blocks, p.remaining, Some(DeferredMessage(p, mode)));
      Converted(c.out + u.out, if u.cleared then None else Some(p.(remaining := u.remaining)))
  }

  function AddMessage(c: Converted, m: Message, mode: Replay): Converted {
    match m
    case Message(Assistant, Blocks(blocks), reasoning) => AddAssistant(FlushPending(c, mode), blocks, reasoning, mode)
    case Message(User, Blocks(blocks), _) => AddUser(c, blocks, mode)
    case Message(User, Str(s), _) =>
      var flushed := FlushPending(c, mode);
      flushed.(out := flushed.out + [UserOut([s])])
    case Message(Assistant, Str(s), reasoning) =>
      c.(out := c.out + [AssistantString(StringParts(s, reasoning, mode), if mode.ReasoningContent? then reasoning else "")])
  }

  function AddMessages(c: Converted, messages: seq<Message>, mode: Replay): Converted
    decreases |messages|
  {
    if messages == [] then c else AddMessages(AddMessage(c, messages[0], mode), messages[1..], mode)
  }

  predicate Refused(messages: seq<Message>) {
    exists k, i :: 0 <= k < |messages| && messages[k].content.Blocks? && 0 <= i < |messages[k].content.blocks| &&
                   Forbidden(messages[k].role, messages[k].content.blocks[i])
  }

  /** `convert_messages`; `None` is an `OpenAIConversionError`. */
  function ConvertMessages(messages: seq<Message>, mode: Replay): Option<seq<OpenAIMessage>> {
    if Refused(messages) then None
    else Some(FlushPending(AddMessages(Converted([], None), messages, mode), mode).out)
  }

  /** A history is refused exactly when it has an image, or an assistant's server tool block. */
  lemma RefusedExactly(messages: seq<Message>, mode: Replay)
    ensures ConvertMessages(messages, mode).None? <==>
            exists k, i :: 0 <= k < |messages| && messages[k].content.Blocks? && 0 <= i < |messages[k].content.blocks|
              && (messages[k].content.blocks[i].ImageB? || (messages[k].content.blocks[i].ServerToolB? && messages[k].role == Assistant))
  {
    if Refused(messages) {
      var k, i :| 0 <= k < |messages| && messages[k].content.Blocks? && 0 <= i < |messages[k].content.blocks| &&
                  Forbidden(messages[k].role, messages[k].content.blocks[i]);
      assert messages[k].content.blocks[i].ImageB? || (messages[k].content.blocks[i].ServerToolB? && messages[k].role == Assistant);
    }
  }

  // ----- what the history says -----

  /** The content of a conversation, item by item. */
  datatype Item = AssistantText(s: string) | Called(call: Call) | UserText(s: string) | Result(id: string, content: string)

  function Says(parts: seq<string>): seq<Item> {
    seq(|parts|, i requires 0 <= i < |parts| => AssistantText(parts[i]))
  }

  function Asks(texts: seq<string>): seq<Item> {
    seq(|texts|, i requires 0 <= i < |texts| => UserText(texts[i]))
  }

  function Calls(calls: seq<Call>): seq<Item> {
    seq(|calls|, i requires 0 <= i < |calls| => Called(calls[i]))
  }

  function OutItem(m: OpenAIMessage): seq<Item> {
    match m
    case AssistantOut(parts, calls, _) => Says(parts) + Calls(calls)
    case AssistantString(parts, _) => Says(parts)
    case UserOut(texts) => Asks(texts)
    case ToolOut(id, content) => [Result(id, content)]
  }

  function OutItems(out: seq<OpenAIMessage>): seq<Item> {
    if out == [] then [] else OutItems(out[..|out| - 1]) + OutItem(out[|out| - 1])
  }

  /** A user block's item. */
  function UserItem(b: Block): seq<Item> {
    match b
    case TextB(text) => [UserText(text)]
    case ToolResultB(id, content) => [Result(id, content)]
    case _ => []
  }

  function UserItems(blocks: seq<Block>): seq<Item> {
    if blocks == [] then [] else UserItem(blocks[0]) + UserItems(blocks[1..])
  }

  /** A message's items, in the order its blocks are written. */
  function AssistantItem(b: Block, mode: Replay): seq<Item> {
    match b
    case TextB(text) => [AssistantText(text)]
    case ThinkingB(thinking) => if mode == ThinkTags then [AssistantText("<think>\n" + thinking + "\n</think>")] else []
    case ToolUseB(call) => [Called(call)]
    case _ => []
  }

  /** What an assistant's plain string says, with its reasoning replayed in think tags if it is to be. */
  function StringItems(s: string, reasoning: string, mode: Replay): seq<Item> {
    if mode == ThinkTags && reasoning != "" then
      [AssistantText("<think>\n" + reasoning + "\n</think>")] + if s != "" then [AssistantText(s)] else []
    else [AssistantText(s)]
  }

  /** The converted parts say it. */
  lemma PartsSay(b: Block, mode: Replay)
    requires !b.ToolUseB?
    ensures Says(PartsOf(b, mode)) == AssistantItem(b, mode)
  {
  }

  lemma StringSays(s: string, reasoning: string, mode: Replay)
    ensures Says(StringParts(s, reasoning, mode)) == StringItems(s, reasoning, mode)
  {
  }

  function AssistantItems(blocks: seq<Block>, mode: Replay): seq<Item> {
    if blocks == [] then [] else AssistantItem(blocks[0], mode) + AssistantItems(blocks[1..], mode)
  }

  function InItem(m: Message, mode: Replay): seq<Item> {
    match m
    case Message(Assistant, Blocks(blocks), _) => AssistantItems(blocks, mode)
    case Message(User, Blocks(blocks), _) => UserItems(blocks)
    case Message(User, Str(s), _) => [UserText(s)]
    case Message(Assistant, Str(s), reasoning) => StringItems(s, reasoning, mode)
  }

  function InItems(messages: seq<Message>, mode: Replay): seq<Item> {
    if messages == [] then [] else InItem(messages[0], mode) + InItems(messages[1..], mode)
  }

  // ----- user messages -----

  lemma OutSnoc(out: seq<OpenAIMessage>, m: OpenAIMessage)
    ensures OutItems(out + [m]) == OutItems(out) + OutItem(m)
  {
    assert (out + [m])[..|out|] == out;
  }

  lemma {:induction false} OutConcat(a: seq<OpenAIMessage>, b: seq<OpenAIMessage>)
    ensures OutItems(a + b) == OutItems(a) + OutItems(b)
    decreases |b|
  {
    if b == [] {
      assert a + b == a && OutItems(a) + [] == OutItems(a);
    } else {
      var init, last := b[..|b| - 1], b[|b| - 1];
      OutConcat(a, init);
      OutSnoc(init, last);
      OutSnoc(a + init, last);
      ConcatAssoc(OutItems(a), OutItems(init), OutItem(last));
      ConcatAssoc(a, init, [last]);
      assert b == init + [last];
    }
  }

  /** What the loop has taken in so far. */
  function Taken(u: UserState): seq<Item> {
    OutItems(u.out) + Asks(u.texts)
  }

  /** A user message with the injected message after every result at which no tool id remains. */
  function Woven(blocks: seq<Block>, remaining: set<string>, injected: seq<Item>): seq<Item>
    decreases |blocks|
  {
    if blocks == [] then []
    else
      var b := blocks[0];
      var remaining' := if b.ToolResultB? then remaining - {b.id} else remaining;
      UserItem(b) + (if b.ToolResultB? && remaining' == {} then injected else []) + Woven(blocks[1..], remaining', injected)
  }

  lemma FlushKeeps(u: UserState)
    ensures Taken(FlushText(u)) == Taken(u) && FlushText(u).texts == []
  {
    if u.texts != [] {
      OutSnoc(u.out, UserOut(u.texts));
    }
  }

  /** The items a step injects. */
  function Injected(remaining: set<string>, b: Block, deferred: Option<OpenAIMessage>): seq<Item> {
    if b.ToolResultB? && deferred.Some? && remaining - {b.id} == {} then OutItem(deferred.value) else []
  }

  lemma TextTakes(u: UserState, text: string)
    ensures Taken(u.(texts := u.texts + [text])) == Taken(u) + [UserText(text)]
  {
    assert Asks(u.texts + [text]) == Asks(u.texts) + [UserText(text)];
    ConcatAssoc(OutItems(u.out), Asks(u.texts), [UserText(text)]);
  }

  lemma ResultTakes(u: UserState, id: string, content: string, more: seq<OpenAIMessage>)
    ensures var f := FlushText(u);
            OutItems(f.out + [ToolOut(id, content)] + more) == Taken(u) + [Result(id, content)] + OutItems(more)
    ensures FlushText(u).texts == []
  {
    var f := FlushText(u);
    FlushKeeps(u);
    assert Taken(f) == OutItems(f.out) + [];
    OutSnoc(f.out, ToolOut(id, content));
    OutConcat(f.out + [ToolOut(id, content)], more);
  }

  lemma ResultStepTakes(u: UserState, id: string, content: string, deferred: Option<OpenAIMessage>)
    ensures var b := ToolResultB(id, content);
            Taken(UserStep(u, b, deferred)) == Taken(u) + [Result(id, content)] + Injected(u.remaining, b, deferred)
  {
    var b := ToolResultB(id, content);
    var more := if deferred.Some? && u.remaining - {id} == {} then [deferred.value] else [];
    ResultTakes(u, id, content, more);
    OutOne(more);
    ResultStepOut(u, id, content, deferred, more);
    NoTextsTaken(UserStep(u, b, deferred));
  }

  lemma ResultStepOut(u: UserState, id: string, content: string, deferred: Option<OpenAIMessage>, more: seq<OpenAIMessage>)
    requires more == if deferred.Some? && u.remaining - {id} == {} then [deferred.value] else []
    ensures var v := UserStep(u, ToolResultB(id, content), deferred);
            v.out == FlushText(u).out + [ToolOut(id, content)] + more && v.texts == []
  {
    var out := FlushText(u).out + [ToolOut(id, content)];
    assert out + [] == out;
  }

  lemma NoTextsTaken(u: UserState)
    requires u.texts == []
    ensures Taken(u) == OutItems(u.out)
  {
    assert Asks([]) == [] && OutItems(u.out) + [] == OutItems(u.out);
  }

  lemma UserStepTakes(u: UserState, b: Block, deferred: Option<OpenAIMessage>)
    ensures Taken(UserStep(u, b, deferred)) == Taken(u) + UserItem(b) + Injected(u.remaining, b, deferred)
  {
    match b
    case TextB(text) =>
      TextTakes(u, text);
      assert Taken(u) + [UserText(text)] + [] == Taken(u) + [UserText(text)];
    case ToolResultB(id, content) =>
      ResultStepTakes(u, id, content, deferred);
    case _ =>
      assert Taken(u) + [] + [] == Taken(u);
  }

  lemma OutOne(out: seq<OpenAIMessage>)
    ensures |out| == 1 ==> OutItems(out) == OutItem(out[0])
  {
    if |out| == 1 {
      assert out[..0] == [] && OutItems([]) == [];
      assert [] + OutItem(out[0]) == OutItem(out[0]);
    }
  }

  /** The items of a user message: as it is, or with the injected message. */
  function Expected(blocks: seq<Block>, remaining: set<string>, deferred: Option<OpenAIMessage>): seq<Item> {
    if deferred.Some? then Woven(blocks, remaining, OutItem(deferred.value)) else UserItems(blocks)
  }

  function Left(remaining: set<string>, b: Block): set<string> {
    if b.ToolResultB? then remaining - {b.id} else remaining
  }

  lemma ExpectedStep(blocks: seq<Block>, remaining: set<string>, deferred: Option<OpenAIMessage>)
    requires blocks != []
    ensures Expected(blocks, remaining, deferred) ==
            UserItem(blocks[0]) + Injected(remaining, blocks[0], deferred)
            + Expected(blocks[1..], Left(remaining, blocks[0]), deferred)
  {
    assert UserItem(blocks[0]) + [] == UserItem(blocks[0]);
  }

  lemma StepLeft(u: UserState, b: Block, deferred: Option<OpenAIMessage>)
    ensures UserStep(u, b, deferred).remaining == Left(u.remaining, b)
  {
  }

  lemma {:induction false} UserStepsTake(u: UserState, blocks: seq<Block>, deferred: Option<OpenAIMessage>)
    ensures OutItems(UserSteps(u, blocks, deferred).out) == Taken(u) + Expected(blocks, u.remaining, deferred)
    decreases |blocks|
  {
    if blocks == [] {
      FlushKeeps(u);
      assert Taken(FlushText(u)) == OutItems(FlushText(u).out) + [];
      assert Expected([], u.remaining, deferred) == [];
    } else {
      var b := blocks[0];
      UserStepTakes(u, b, deferred);
      StepLeft(u, b, deferred);
      UserStepsTake(UserStep(u, b, deferred), blocks[1..], deferred);
      ExpectedStep(blocks, u.remaining, deferred);
      FourConcat(Taken(u), UserItem(b), Injected(u.remaining, b, deferred), Expected(blocks[1..], Left(u.remaining, b), deferred));
    }
  }

  lemma FourConcat<T>(a: seq<T>, b: seq<T>, c: seq<T>, d: seq<T>)
    ensures a + b + c + d == a + (b + c + d)
  {
  }

  // ----- how often the held-back text is injected -----

  /** The ids a user message's results answer. */
  function Answered(blocks: seq<Block>): set<string> {
    set k | 0 <= k < |blocks| && blocks[k].ToolResultB? :: blocks[k].id
  }

  function Results(blocks: seq<Block>): nat {
    if blocks == [] then 0 else (if blocks[0].ToolResultB? then 1 else 0) + Results(blocks[1..])
  }

  /** The number of results at which no id remains. */
  function Injections(blocks: seq<Block>, remaining: set<string>): nat
    decreases |blocks|
  {
    if blocks == [] then 0
    else
      (if blocks[0].ToolResultB? && Left(remaining, blocks[0]) == {} then 1 else 0)
      + Injections(blocks[1..], Left(remaining, blocks[0]))
  }

  lemma AnsweredCons(blocks: seq<Block>)
    requires blocks != []
    ensures Answered(blocks) == (if blocks[0].ToolResultB? then {blocks[0].id} else {}) + Answered(blocks[1..])
  {
    var rest := blocks[1..];
    assert forall k :: 0 <= k < |rest| ==> rest[k] == blocks[k + 1];
    forall id ensures id in Answered(blocks) <==> (blocks[0].ToolResultB? && id == blocks[0].id) || id in Answered(rest) {
      if id in Answered(rest) {
        var k :| 0 <= k < |rest| && rest[k].ToolResultB? && rest[k].id == id;
        assert blocks[k + 1].id == id;
      }
    }
  }

  /** What remains after a message, and whether its results were the last ones awaited. */
  lemma {:induction false} UserStepsRemain(u: UserState, blocks: seq<Block>, deferred: Option<OpenAIMessage>)
    requires u.cleared <==> deferred.Some? && u.remaining == {}
    ensures var v := UserSteps(u, blocks, deferred);
            && v.remaining == u.remaining - Answered(blocks)
            && (v.cleared <==> deferred.Some? && v.remaining == {})
    decreases |blocks|
  {
    if blocks != [] {
      AnsweredCons(blocks);
      StepLeft(u, blocks[0], deferred);
      UserStepsRemain(UserStep(u, blocks[0], deferred), blocks[1..], deferred);
    }
  }

  /** Result `n` is the one at which the last awaited id is answered. */
  predicate Empties(blocks: seq<Block>, remaining: set<string>, n: nat) {
    n < |blocks| && remaining - Answered(blocks[..n]) != {} && remaining - Answered(blocks[..n + 1]) == {}
  }

  /** Once no id remains, every further result is followed by another copy. */
  function Repeated(blocks: seq<Block>, injected: seq<Item>): seq<Item> {
    if blocks == [] then []
    else UserItem(blocks[0]) + (if blocks[0].ToolResultB? then injected else []) + Repeated(blocks[1..], injected)
  }

  lemma {:induction false} NoneRemain(blocks: seq<Block>, injected: seq<Item>)
    ensures Woven(blocks, {}, injected) == Repeated(blocks, injected)
    ensures Injections(blocks, {}) == Results(blocks)
    decreases |blocks|
  {
    if blocks != [] {
      assert blocks[0].ToolResultB? ==> {} - {blocks[0].id} == {};
      NoneRemain(blocks[1..], injected);
    }
  }

  lemma {:induction false} NoResultNoCopy(blocks: seq<Block>, injected: seq<Item>)
    requires Results(blocks) == 0
    ensures Repeated(blocks, injected) == UserItems(blocks)
    decreases |blocks|
  {
    if blocks != [] {
      NoResultNoCopy(blocks[1..], injected);
      assert UserItem(blocks[0]) + [] == UserItem(blocks[0]);
    }
  }

  lemma EmptiesTail(blocks: seq<Block>, remaining: set<string>, n: nat)
    requires 0 < n && Empties(blocks, remaining, n)
    ensures Empties(blocks[1..], Left(remaining, blocks[0]), n - 1)
    ensures Left(remaining, blocks[0]) != {}
  {
    assert blocks[..n][0] == blocks[0] && blocks[..n][1..] == blocks[1..][..n - 1];
    assert blocks[..n + 1][0] == blocks[0] && blocks[..n + 1][1..] == blocks[1..][..n];
    AnsweredCons(blocks[..n]);
    AnsweredCons(blocks[..n + 1]);
    var b := blocks[0];
    assert remaining - Answered(blocks[..n]) == Left(remaining, b) - Answered(blocks[1..][..n - 1]);
    assert remaining - Answered(blocks[..n + 1]) == Left(remaining, b) - Answered(blocks[1..][..n]);
  }

  lemma EmptiesHere(blocks: seq<Block>, remaining: set<string>)
    requires Empties(blocks, remaining, 0)
    ensures blocks[0].ToolResultB? && Left(remaining, blocks[0]) == {}
  {
    assert blocks[..0] == [] && blocks[..1] == [blocks[0]];
    AnsweredCons([blocks[0]]);
    assert [blocks[0]][1..] == [] && Answered([]) == {};
  }

  lemma WovenHere(blocks: seq<Block>, remaining: set<string>, injected: seq<Item>)
    requires Empties(blocks, remaining, 0)
    ensures Woven(blocks, remaining, injected) == UserItems(blocks[..1]) + injected + Repeated(blocks[1..], injected)
    ensures Injections(blocks, remaining) == 1 + Results(blocks[1..])
  {
    var b, rest := blocks[0], blocks[1..];
    EmptiesHere(blocks, remaining);
    NoneRemain(rest, injected);
    assert blocks[..1] == [b] && [b][1..] == [];
    assert UserItems([]) == [] && UserItem(b) + [] == UserItem(b);
  }

  /** The held-back text comes right after the result that answers the last awaited id, and again after
      every later result of that message. */
  lemma {:induction false} WovenAt(blocks: seq<Block>, remaining: set<string>, injected: seq<Item>, n: nat)
    requires Empties(blocks, remaining, n)
    ensures Woven(blocks, remaining, injected) ==
            UserItems(blocks[..n + 1]) + injected + Repeated(blocks[n + 1..], injected)
    ensures Injections(blocks, remaining) == 1 + Results(blocks[n + 1..])
    decreases n, 1
  {
    if n == 0 {
      WovenHere(blocks, remaining, injected);
    } else {
      WovenLater(blocks, remaining, injected, n);
    }
  }

  lemma {:induction false} WovenLater(blocks: seq<Block>, remaining: set<string>, injected: seq<Item>, n: nat)
    requires n > 0 && Empties(blocks, remaining, n)
    ensures Woven(blocks, remaining, injected) ==
            UserItems(blocks[..n + 1]) + injected + Repeated(blocks[n + 1..], injected)
    ensures Injections(blocks, remaining) == 1 + Results(blocks[n + 1..])
    decreases n, 0
  {
    var rest := blocks[1..];
    EmptiesTail(blocks, remaining, n);
    WovenAt(rest, Left(remaining, blocks[0]), injected, n - 1);
    assert rest[n..] == blocks[n + 1..];
    WovenHead(blocks, remaining, injected);
    UserItemsHead(blocks, n + 1);
    FourConcat(UserItem(blocks[0]), UserItems(rest[..n]), injected, Repeated(rest[n..], injected));
  }

  lemma UserItemsHead(blocks: seq<Block>, n: nat)
    requires 0 < n <= |blocks|
    ensures UserItems(blocks[..n]) == UserItem(blocks[0]) + UserItems(blocks[1..][..n - 1])
  {
    assert blocks[..n][0] == blocks[0] && blocks[..n][1..] == blocks[1..][..n - 1];
  }

  lemma WovenHead(blocks: seq<Block>, remaining: set<string>, injected: seq<Item>)
    requires blocks != [] && Left(remaining, blocks[0]) != {}
    ensures Woven(blocks, remaining, injected) ==
            UserItem(blocks[0]) + Woven(blocks[1..], Left(remaining, blocks[0]), injected)
    ensures Injections(blocks, remaining) == Injections(blocks[1..], Left(remaining, blocks[0]))
  {
    assert UserItem(blocks[0]) + [] == UserItem(blocks[0]);
  }

  /** While ids remain, nothing is injected. */
  lemma {:induction false} WovenNowhere(blocks: seq<Block>, remaining: set<string>, injected: seq<Item>)
    requires remaining - Answered(blocks) != {}
    ensures Woven(blocks, remaining, injected) == UserItems(blocks) && Injections(blocks, remaining) == 0
    decreases |blocks|
  {
    if blocks != [] {
      AnsweredCons(blocks);
      var left := Left(remaining, blocks[0]);
      assert remaining - Answered(blocks) == left - Answered(blocks[1..]);
      var none: set<string> := {};
      assert none - Answered(blocks[1..]) == none;
      WovenHead(blocks, remaining, injected);
      WovenNowhere(blocks[1..], left, injected);
    }
  }

  lemma {:induction false} EmptiesSomewhere(blocks: seq<Block>, remaining: set<string>) returns (n: nat)
    requires remaining != {} && remaining - Answered(blocks) == {}
    ensures Empties(blocks, remaining, n)
    decreases |blocks|
  {
    n := 0;
    assert Answered([]) == {} && remaining - {} == remaining;
    if blocks != [] {
      AnsweredCons(blocks);
      var b, rest := blocks[0], blocks[1..];
      var left := Left(remaining, b);
      assert remaining - Answered(blocks) == left - Answered(rest);
      if left == {} {
        assert blocks[..0] == [];
        assert blocks[..1] == [b] && [b][1..] == [];
        AnsweredCons([b]);
      } else {
        var m := EmptiesSomewhere(rest, left);
        n := m + 1;
        assert blocks[..n][0] == b && blocks[..n][1..] == rest[..m];
        assert blocks[..n + 1][0] == b && blocks[..n + 1][1..] == rest[..m + 1];
        AnsweredCons(blocks[..n]);
        AnsweredCons(blocks[..n + 1]);
        assert remaining - Answered(blocks[..n]) == left - Answered(rest[..m]);
        assert remaining - Answered(blocks[..n + 1]) == left - Answered(rest[..m + 1]);
      }
    }
  }

  /** Every result answers an id that is still awaited. */
  predicate AnswersAwaited(blocks: seq<Block>, remaining: set<string>)
    decreases |blocks|
  {
    blocks == [] || ((blocks[0].ToolResultB? ==> blocks[0].id in remaining) &&
                     AnswersAwaited(blocks[1..], Left(remaining, blocks[0])))
  }

  /** Then the text is injected at most once. */
  lemma {:induction false} AwaitedOnce(blocks: seq<Block>, remaining: set<string>)
    requires AnswersAwaited(blocks, remaining)
    ensures Injections(blocks, remaining) <= 1
    ensures remaining == {} ==> Injections(blocks, remaining) == 0
    decreases |blocks|
  {
    if blocks != [] {
      AwaitedOnce(blocks[1..], Left(remaining, blocks[0]));
    }
  }

  // ----- assistant messages -----

  lemma PartsUnroll(blocks: seq<Block>, mode: Replay)
    requires blocks != []
    ensures AssistantParts(blocks, mode) == PartsOf(blocks[0], mode) + AssistantParts(blocks[1..], mode)
  {
  }

  lemma {:induction false} PartsConcat(a: seq<Block>, b: seq<Block>, mode: Replay)
    ensures AssistantParts(a + b, mode) == AssistantParts(a, mode) + AssistantParts(b, mode)
    decreases |a|
  {
    if a == [] {
      assert a + b == b;
      assert [] + AssistantParts(b, mode) == AssistantParts(b, mode);
    } else {
      assert (a + b)[0] == a[0] && (a + b)[1..] == a[1..] + b;
      PartsUnroll(a + b, mode);
      PartsUnroll(a, mode);
      PartsConcat(a[1..], b, mode);
      ConcatAssoc(PartsOf(a[0], mode), AssistantParts(a[1..], mode), AssistantParts(b, mode));
    }
  }

  lemma {:induction false} ToolUsesSayNothing(blocks: seq<Block>, mode: Replay)
    ensures AssistantParts(NoToolUses(blocks), mode) == AssistantParts(blocks, mode)
    decreases |blocks|
  {
    if blocks != [] {
      var rest := blocks[1..];
      ToolUsesSayNothing(rest, mode);
      if blocks[0].ToolUseB? {
        assert [] + NoToolUses(rest) == NoToolUses(rest);
        assert [] + AssistantParts(rest, mode) == AssistantParts(rest, mode);
      } else {
        assert ([blocks[0]] + NoToolUses(rest))[1..] == NoToolUses(rest);
      }
    }
  }

  /** Splitting at the first tool call keeps every text, in order. */
  lemma SplitKeepsParts(blocks: seq<Block>, i: nat, mode: Replay)
    requires i < |blocks| && blocks[i].ToolUseB?
    ensures AssistantParts(blocks[..i], mode) + AssistantParts(DeferredBlocks(blocks, i), mode) == AssistantParts(blocks, mode)
  {
    var after := blocks[i + 1..];
    ToolUsesSayNothing(after, mode);
    assert blocks == blocks[..i] + ([blocks[i]] + after);
    PartsConcat(blocks[..i], [blocks[i]] + after, mode);
    assert ([blocks[i]] + after)[1..] == after;
  }

  lemma SaysConcat(a: seq<string>, b: seq<string>)
    ensures Says(a + b) == Says(a) + Says(b)
  {
  }

  lemma CallsConcat(a: seq<Call>, b: seq<Call>)
    ensures Calls(a + b) == Calls(a) + Calls(b)
  {
  }

  /** An assistant message's texts and calls, whatever their order in it. */
  lemma {:induction false} AssistantItemsAre(blocks: seq<Block>, mode: Replay)
    ensures multiset(AssistantItems(blocks, mode)) ==
            multiset(Says(AssistantParts(blocks, mode))) + multiset(Calls(ToolCalls(blocks)))
    decreases |blocks|
  {
    TextItemsAre(blocks, mode);
    CallItemsAre(blocks);
    ItemsByKind(blocks, mode);
  }

  /** The texts of an assistant message, in order, and its calls, in order. */
  function TextItems(blocks: seq<Block>, mode: Replay): seq<Item> {
    if blocks == [] then []
    else (if blocks[0].ToolUseB? then [] else AssistantItem(blocks[0], mode)) + TextItems(blocks[1..], mode)
  }

  function CallItems(blocks: seq<Block>): seq<Item> {
    if blocks == [] then [] else (if blocks[0].ToolUseB? then [Called(blocks[0].call)] else []) + CallItems(blocks[1..])
  }

  lemma {:induction false} ItemsByKind(blocks: seq<Block>, mode: Replay)
    ensures multiset(AssistantItems(blocks, mode)) == multiset(TextItems(blocks, mode)) + multiset(CallItems(blocks))
    decreases |blocks|
  {
    if blocks != [] {
      ItemsByKind(blocks[1..], mode);
    }
  }

  lemma {:induction false} TextItemsAre(blocks: seq<Block>, mode: Replay)
    ensures TextItems(blocks, mode) == Says(AssistantParts(blocks, mode))
    decreases |blocks|
  {
    if blocks != [] {
      TextItemsAre(blocks[1..], mode);
      SaysConcat(PartsOf(blocks[0], mode), AssistantParts(blocks[1..], mode));
      if !blocks[0].ToolUseB? {
        PartsSay(blocks[0], mode);
      } else {
        assert Says([]) == [];
      }
    }
  }

  lemma {:induction false} CallItemsAre(blocks: seq<Block>)
    ensures CallItems(blocks) == Calls(ToolCalls(blocks))
    decreases |blocks|
  {
    if blocks != [] {
      CallItemsAre(blocks[1..]);
      CallsConcat(if blocks[0].ToolUseB? then [blocks[0].call] else [], ToolCalls(blocks[1..]));
      assert blocks[0].ToolUseB? ==> Calls([blocks[0].call]) == [Called(blocks[0].call)];
      assert Calls([]) == [];
    }
  }

  lemma {:induction false} JoinSnoc(sep: string, parts: seq<string>, part: string)
    ensures Text.Join(sep, parts + [part]) == if parts == [] then part else Text.Join(sep, parts) + sep + part
    decreases |parts|
  {
    if |parts| > 1 {
      assert (parts + [part])[1..] == parts[1..] + [part];
      JoinSnoc(sep, parts[1..], part);
      ConcatAssoc(parts[0] + sep, Text.Join(sep, parts[1..]), sep + part);
      ConcatAssoc(Text.Join(sep, parts[1..]), sep, part);
      ConcatAssoc(parts[0] + sep + Text.Join(sep, parts[1..]), sep, part);
    } else {
      assert parts + [part] == if parts == [] then [part] else [parts[0], part];
    }
  }

  /** A user's texts stand on lines of their own, an assistant's in paragraphs, and a tool result as it is. */
  lemma ContentIsJoined(texts: seq<string>, text: string, reasoning: string, id: string)
    requires texts != []
    ensures ContentOf(UserOut([text])) == text && ContentOf(AssistantString([text], reasoning)) == text
    ensures ContentOf(UserOut(texts + [text])) == ContentOf(UserOut(texts)) + "\n" + text
    ensures ContentOf(AssistantString(texts + [text], reasoning)) == ContentOf(AssistantString(texts, reasoning)) + "\n\n" + text
    ensures ContentOf(ToolOut(id, text)) == text
  {
    JoinSnoc("\n", texts, text);
    JoinSnoc("\n\n", texts, text);
  }

  /** A converted message's content shows its texts, joined, except that an empty one becomes a space,
      and a single space before tool calls is lost. */
  lemma ContentShowsParts(parts: seq<string>, calls: seq<Call>, reasoning: string)
    ensures var content := ContentOf(AssistantOut(parts, calls, reasoning));
            && (content == Text.Join("\n\n", parts) <==>
                if calls == [] then Text.Join("\n\n", parts) != "" else parts != [" "])
            && (calls != [] && parts == [" "] ==> content == "")
  {
    if |parts| > 1 {
      assert Text.Join("\n\n", parts) == parts[0] + "\n\n" + Text.Join("\n\n", parts[1..]);
      assert |Text.Join("\n\n", parts)| >= 2;
    }
  }

  // ----- nothing is lost -----

  function Times(m: multiset<Item>, n: nat): multiset<Item> {
    if n == 0 then multiset{} else m + Times(m, n - 1)
  }

  function PendingItems(c: Converted, mode: Replay): seq<Item> {
    if c.pending.None? then [] else OutItem(DeferredMessage(c.pending.value, mode))
  }

  /** How many more times than once a message repeats the held-back text. */
  function Copies(c: Converted, m: Message): nat {
    if m.role.User? && m.content.Blocks? && c.pending.Some? && c.pending.value.remaining != {} then
      var n := Injections(m.content.blocks, c.pending.value.remaining);
      if n > 1 then n - 1 else 0
    else 0
  }

  /** All repetitions. */
  function Extras(c: Converted, messages: seq<Message>, mode: Replay): multiset<Item>
    decreases |messages|
  {
    if messages == [] then multiset{}
    else Times(multiset(PendingItems(c, mode)), Copies(c, messages[0])) + Extras(AddMessage(c, messages[0], mode), messages[1..], mode)
  }

  /** What is in the result or held back. */
  function Held(c: Converted, mode: Replay): multiset<Item> {
    multiset(OutItems(c.out)) + multiset(PendingItems(c, mode))
  }

  lemma Shuffle(a: multiset<Item>, b: multiset<Item>, c: multiset<Item>, d: multiset<Item>)
    ensures a + b + (c + d) == (a + c) + (b + d)
  {
  }

  lemma TimesMore(injected: seq<Item>, n: nat, here: bool)
    ensures Times(multiset(injected), n + if here then 1 else 0) ==
            multiset(if here then injected else []) + Times(multiset(injected), n)
  {
  }

  lemma CountStep(a: seq<Item>, now: seq<Item>, rest: seq<Item>, own: multiset<Item>, times: multiset<Item>)
    requires multiset(rest) == own + times
    ensures multiset(a + now + rest) == (multiset(a) + own) + (multiset(now) + times)
  {
    Shuffle(multiset(a), multiset(now), own, times);
  }

  lemma WovenUnroll(blocks: seq<Block>, remaining: set<string>, injected: seq<Item>)
    requires blocks != []
    ensures var b, left := blocks[0], Left(remaining, blocks[0]);
            var here := b.ToolResultB? && left == {};
            && Woven(blocks, remaining, injected) ==
               UserItem(b) + (if here then injected else []) + Woven(blocks[1..], left, injected)
            && Injections(blocks, remaining) == Injections(blocks[1..], left) + (if here then 1 else 0)
            && multiset(UserItems(blocks)) == multiset(UserItem(b)) + multiset(UserItems(blocks[1..]))
  {
  }

  lemma {:induction false} WovenCounts(blocks: seq<Block>, remaining: set<string>, injected: seq<Item>)
    ensures multiset(Woven(blocks, remaining, injected)) ==
            multiset(UserItems(blocks)) + Times(multiset(injected), Injections(blocks, remaining))
    decreases |blocks|, 1
  {
    if blocks == [] {
      assert multiset(Woven(blocks, remaining, injected)) == multiset{};
    } else {
      WovenCountsStep(blocks, remaining, injected);
    }
  }

  lemma {:induction false} WovenCountsStep(blocks: seq<Block>, remaining: set<string>, injected: seq<Item>)
    requires blocks != []
    ensures multiset(Woven(blocks, remaining, injected)) ==
            multiset(UserItems(blocks)) + Times(multiset(injected), Injections(blocks, remaining))
    decreases |blocks|, 0
  {
    var b, rest, left := blocks[0], blocks[1..], Left(remaining, blocks[0]);
    var here := b.ToolResultB? && left == {};
    WovenCounts(rest, left, injected);
    WovenUnroll(blocks, remaining, injected);
    TimesMore(injected, Injections(rest, left), here);
    CountStep(UserItem(b), if here then injected else [], Woven(rest, left, injected), multiset(UserItems(rest)),
              Times(multiset(injected), Injections(rest, left)));
  }

  lemma FlushHolds(c: Converted, mode: Replay)
    ensures Held(FlushPending(c, mode), mode) == Held(c, mode)
    ensures FlushPending(c, mode).pending.None?
    ensures multiset(OutItems(FlushPending(c, mode).out)) == Held(c, mode)
  {
    if c.pending.Some? {
      OutSnoc(c.out, DeferredMessage(c.pending.value, mode));
    }
  }

  lemma AddAssistantHolds(c: Converted, blocks: seq<Block>, reasoning: string, mode: Replay)
    requires c.pending.None?
    ensures Held(AddAssistant(c, blocks, reasoning, mode), mode) == Held(c, mode) + multiset(AssistantItems(blocks, mode))
  {
    AssistantItemsAre(blocks, mode);
    match FirstTool(blocks)
    case None =>
      NoCalls(blocks);
      OutSnoc(c.out, ConvertAssistant(blocks, reasoning, mode));
    case Some(i) =>
      AddSplitHolds(c, blocks, reasoning, mode, i);
  }

  lemma SplitItems(c: Converted, blocks: seq<Block>, reasoning: string, mode: Replay, i: nat)
    requires c.pending.None? && FirstTool(blocks) == Some(i)
    ensures var d := AddAssistant(c, blocks, reasoning, mode);
            && OutItems(d.out) == OutItems(c.out) + (Says(AssistantParts(blocks[..i], mode)) + Calls(ToolCalls(blocks)))
            && PendingItems(d, mode) == Says(AssistantParts(DeferredBlocks(blocks, i), mode))
  {
    OutSnoc(c.out, AssistantOut(AssistantParts(blocks[..i], mode), ToolCalls(blocks),
                                ReplayedReasoning(blocks[..i], reasoning, mode)));
    assert Calls([]) == [] && Says([]) == [];
    var says := Says(AssistantParts(DeferredBlocks(blocks, i), mode));
    assert says + [] == says;
  }

  lemma AddSplitHolds(c: Converted, blocks: seq<Block>, reasoning: string, mode: Replay, i: nat)
    requires c.pending.None? && FirstTool(blocks) == Some(i)
    ensures Held(AddAssistant(c, blocks, reasoning, mode), mode) ==
            Held(c, mode) + (multiset(Says(AssistantParts(blocks, mode))) + multiset(Calls(ToolCalls(blocks))))
  {
    SplitItems(c, blocks, reasoning, mode, i);
    SplitKeepsParts(blocks, i, mode);
    SaysConcat(AssistantParts(blocks[..i], mode), AssistantParts(DeferredBlocks(blocks, i), mode));
  }

  lemma {:induction false} NoCalls(blocks: seq<Block>)
    requires forall k :: 0 <= k < |blocks| ==> !blocks[k].ToolUseB?
    ensures ToolCalls(blocks) == []
  {
    if blocks != [] {
      NoCalls(blocks[1..]);
    }
  }

  lemma ConvertUserItems(blocks: seq<Block>, remaining: set<string>, deferred: Option<OpenAIMessage>)
    ensures OutItems(ConvertUser(blocks, remaining, deferred).out) == Expected(blocks, remaining, deferred)
  {
    UserStepsTake(UserState([], [], remaining, false), blocks, deferred);
    assert Taken(UserState([], [], remaining, false)) == [] by {
      assert Asks([]) == [] && OutItems([]) == [];
    }
    assert [] + Expected(blocks, remaining, deferred) == Expected(blocks, remaining, deferred);
  }

  lemma AddPlainUserHolds(c: Converted, blocks: seq<Block>, mode: Replay)
    requires c.pending.None?
    ensures Held(c.(out := c.out + ConvertUser(blocks, {}, None).out), mode) == Held(c, mode) + multiset(UserItems(blocks))
  {
    ConvertUserItems(blocks, {}, None);
    OutConcat(c.out, ConvertUser(blocks, {}, None).out);
  }

  /** Something is injected exactly when the message answers the last awaited id. */
  lemma InjectionCount(blocks: seq<Block>, remaining: set<string>)
    requires remaining != {}
    ensures Injections(blocks, remaining) >= 1 <==> remaining - Answered(blocks) == {}
  {
    if remaining - Answered(blocks) == {} {
      var n := EmptiesSomewhere(blocks, remaining);
      WovenAt(blocks, remaining, [], n);
    } else {
      WovenNowhere(blocks, remaining, []);
    }
  }

  lemma InjectedSum(out: multiset<Item>, own: multiset<Item>, d: multiset<Item>, n: nat, cleared: bool)
    requires n >= 1 <==> cleared
    ensures out + (own + Times(d, n)) + (if cleared then multiset{} else d) ==
            out + d + own + Times(d, if n > 1 then n - 1 else 0)
  {
    if cleared {
      assert Times(d, n) == d + Times(d, n - 1);
    }
  }

  lemma InjectedItems(c: Converted, blocks: seq<Block>, mode: Replay)
    requires c.pending.Some? && c.pending.value.remaining != {}
    ensures var p := c.pending.value;
            var u := AddUser(c, blocks, mode);
            var n := Injections(blocks, p.remaining);
            && multiset(OutItems(u.out)) ==
               multiset(OutItems(c.out)) + (multiset(UserItems(blocks)) + Times(multiset(PendingItems(c, mode)), n))
            && (n >= 1 <==> u.pending.None?)
            && (u.pending.Some? ==> PendingItems(u, mode) == PendingItems(c, mode))
  {
    var p := c.pending.value;
    var deferred := DeferredMessage(p, mode);
    ConvertUserItems(blocks, p.remaining, Some(deferred));
    OutConcat(c.out, ConvertUser(blocks, p.remaining, Some(deferred)).out);
    WovenCounts(blocks, p.remaining, OutItem(deferred));
    UserStepsRemain(UserState([], [], p.remaining, false), blocks, Some(deferred));
    InjectionCount(blocks, p.remaining);
  }

  lemma AddInjectedHolds(c: Converted, blocks: seq<Block>, reasoning: string, mode: Replay)
    requires c.pending.Some? && c.pending.value.remaining != {}
    ensures Held(AddUser(c, blocks, mode), mode) ==
            Held(c, mode) + multiset(UserItems(blocks))
            + Times(multiset(PendingItems(c, mode)), Copies(c, Message(User, Blocks(blocks), reasoning)))
  {
    InjectedItems(c, blocks, mode);
    InjectedSum(multiset(OutItems(c.out)), multiset(UserItems(blocks)), multiset(PendingItems(c, mode)),
                Injections(blocks, c.pending.value.remaining), AddUser(c, blocks, mode).pending.None?);
  }

  lemma AddOneHolds(c: Converted, m: OpenAIMessage, mode: Replay)
    ensures Held(c.(out := c.out + [m]), mode) == Held(c, mode) + multiset(OutItem(m))
  {
    OutSnoc(c.out, m);
  }

  lemma AddAssistantBlocksHolds(c: Converted, m: Message, mode: Replay)
    requires m.role.Assistant? && m.content.Blocks?
    ensures Held(AddMessage(c, m, mode), mode) == Held(c, mode) + multiset(InItem(m, mode))
  {
    FlushHolds(c, mode);
    var flushed := FlushPending(c, mode);
    AddAssistantHolds(flushed, m.content.blocks, m.reasoning, mode);
    assert AddMessage(c, m, mode) == AddAssistant(flushed, m.content.blocks, m.reasoning, mode);
    assert InItem(m, mode) == AssistantItems(m.content.blocks, mode);
  }

  lemma AddUserBlocksHolds(c: Converted, m: Message, mode: Replay)
    requires m.role.User? && m.content.Blocks? && (c.pending.Some? ==> c.pending.value.remaining == {})
    ensures Held(AddMessage(c, m, mode), mode) == Held(c, mode) + multiset(InItem(m, mode))
  {
    FlushHolds(c, mode);
    AddPlainUserHolds(FlushPending(c, mode), m.content.blocks, mode);
  }

  lemma AddUserStringHolds(c: Converted, m: Message, mode: Replay)
    requires m.role.User? && m.content.Str?
    ensures Held(AddMessage(c, m, mode), mode) == Held(c, mode) + multiset(InItem(m, mode))
  {
    FlushHolds(c, mode);
    AddOneHolds(FlushPending(c, mode), UserOut([m.content.s]), mode);
    assert Asks([m.content.s]) == [UserText(m.content.s)];
  }

  lemma AddAssistantStringHolds(c: Converted, m: Message, mode: Replay)
    requires m.role.Assistant? && m.content.Str?
    ensures Held(AddMessage(c, m, mode), mode) == Held(c, mode) + multiset(InItem(m, mode))
  {
    var parts := StringParts(m.content.s, m.reasoning, mode);
    AddOneHolds(c, AssistantString(parts, if mode.ReasoningContent? then m.reasoning else ""), mode);
    StringSays(m.content.s, m.reasoning, mode);
  }

  /** What a message adds when nothing is injected into it. */
  lemma AddPlainHolds(c: Converted, m: Message, mode: Replay)
    requires m.role.User? && m.content.Blocks? && c.pending.Some? ==> c.pending.value.remaining == {}
    ensures Held(AddMessage(c, m, mode), mode) == Held(c, mode) + multiset(InItem(m, mode))
  {
    if m.role.Assistant? && m.content.Blocks? {
      AddAssistantBlocksHolds(c, m, mode);
    } else if m.role.User? && m.content.Blocks? {
      AddUserBlocksHolds(c, m, mode);
    } else if m.role.User? {
      AddUserStringHolds(c, m, mode);
    } else {
      AddAssistantStringHolds(c, m, mode);
    }
  }

  /** Each message adds exactly its own items, and the repetitions. */
  lemma AddMessageHolds(c: Converted, m: Message, mode: Replay)
    ensures Held(AddMessage(c, m, mode), mode) ==
            Held(c, mode) + multiset(InItem(m, mode)) + Times(multiset(PendingItems(c, mode)), Copies(c, m))
  {
    if m.role.User? && m.content.Blocks? && c.pending.Some? && c.pending.value.remaining != {} {
      AddInjectedHolds(c, m.content.blocks, m.reasoning, mode);
    } else {
      AddPlainHolds(c, m, mode);
      assert Copies(c, m) == 0;
    }
  }

  lemma {:induction false} AddMessagesHolds(c: Converted, messages: seq<Message>, mode: Replay)
    ensures Held(AddMessages(c, messages, mode), mode) ==
            Held(c, mode) + multiset(InItems(messages, mode)) + Extras(c, messages, mode)
    decreases |messages|
  {
    if messages != [] {
      AddMessageHolds(c, messages[0], mode);
      AddMessagesHolds(AddMessage(c, messages[0], mode), messages[1..], mode);
    }
  }

  /** No message repeats the held-back text, or what it repeats is empty. */
  predicate NoneRepeated(c: Converted, messages: seq<Message>, mode: Replay)
    decreases |messages|
  {
    messages == [] || ((Copies(c, messages[0]) == 0 || PendingItems(c, mode) == []) &&
                       NoneRepeated(AddMessage(c, messages[0], mode), messages[1..], mode))
  }

  lemma {:induction false} NoExtras(c: Converted, messages: seq<Message>, mode: Replay)
    ensures Extras(c, messages, mode) == multiset{} <==> NoneRepeated(c, messages, mode)
    decreases |messages|
  {
    if messages != [] {
      NoExtras(AddMessage(c, messages[0], mode), messages[1..], mode);
      TimesNothing(PendingItems(c, mode), Copies(c, messages[0]));
      var now, later := Times(multiset(PendingItems(c, mode)), Copies(c, messages[0])), Extras(AddMessage(c, messages[0], mode), messages[1..], mode);
      SumNothing(now, later);
    }
  }

  lemma SumNothing(a: multiset<Item>, b: multiset<Item>)
    ensures a + b == multiset{} <==> a == multiset{} && b == multiset{}
  {
    assert |a + b| == |a| + |b|;
  }

  lemma {:induction false} TimesNothing(items: seq<Item>, n: nat)
    ensures Times(multiset(items), n) == multiset{} <==> n == 0 || items == []
  {
    if n > 0 {
      TimesNothing(items, n - 1);
      SumNothing(multiset(items), Times(multiset(items), n - 1));
      assert |multiset(items)| == |items|;
    }
  }

  /** Converting a history keeps every assistant text, tool call, user text and tool result, as many
      times as it is written, and beyond that only repeats held-back text; it repeats none exactly when
      no message has a result after the one that answers the last awaited id. */
  lemma ConversionConserves(messages: seq<Message>, mode: Replay)
    requires !Refused(messages)
    ensures var start := Converted([], None);
            var items := multiset(OutItems(ConvertMessages(messages, mode).value));
            && items == multiset(InItems(messages, mode)) + Extras(start, messages, mode)
            && (items == multiset(InItems(messages, mode)) <==> NoneRepeated(start, messages, mode))
  {
    var start := Converted([], None);
    AddMessagesHolds(start, messages, mode);
    FlushHolds(AddMessages(start, messages, mode), mode);
    NoExtras(start, messages, mode);
    assert Held(start, mode) == multiset{};
    var a, b := multiset(InItems(messages, mode)), Extras(start, messages, mode);
    assert |a + b| == |a| + |b|;
    assert |b| == 0 ==> b == multiset{};
  }

  /** Every result answers an id still awaited when it is met. */
  predicate WellAnswered(c: Converted, messages: seq<Message>, mode: Replay)
    decreases |messages|
  {
    messages == [] ||
    (&& (messages[0].role.User? && messages[0].content.Blocks? && c.pending.Some? && c.pending.value.remaining != {} ==>
           AnswersAwaited(messages[0].content.blocks, c.pending.value.remaining))
     && WellAnswered(AddMessage(c, messages[0], mode), messages[1..], mode))
  }

  /** When each result answers a distinct awaited id, everything appears exactly once. */
  lemma {:induction false} AnsweredOnceConserves(c: Converted, messages: seq<Message>, mode: Replay)
    requires WellAnswered(c, messages, mode)
    ensures NoneRepeated(c, messages, mode)
    decreases |messages|
  {
    if messages != [] {
      var m := messages[0];
      if m.role.User? && m.content.Blocks? && c.pending.Some? && c.pending.value.remaining != {} {
        AwaitedOnce(m.content.blocks, c.pending.value.remaining);
      }
      AnsweredOnceConserves(AddMessage(c, m, mode), messages[1..], mode);
    }
  }

  // ----- where the held-back text goes -----

  /** Held-back text comes right after the result that answers the last awaited id, among the message's
      own items in their order; every later result of that message is followed by it again. */
  lemma InjectionLands(c: Converted, blocks: seq<Block>, mode: Replay, n: nat)
    requires c.pending.Some? && c.pending.value.remaining != {} && Empties(blocks, c.pending.value.remaining, n)
    ensures OutItems(AddUser(c, blocks, mode).out) ==
            OutItems(c.out) + (UserItems(blocks[..n + 1]) + PendingItems(c, mode) + Repeated(blocks[n + 1..], PendingItems(c, mode)))
    ensures Results(blocks[n + 1..]) == 0 ==> Repeated(blocks[n + 1..], PendingItems(c, mode)) == UserItems(blocks[n + 1..])
  {
    var p := c.pending.value;
    var deferred := Some(DeferredMessage(p, mode));
    ConvertUserItems(blocks, p.remaining, deferred);
    OutConcat(c.out, ConvertUser(blocks, p.remaining, deferred).out);
    WovenAt(blocks, p.remaining, PendingItems(c, mode), n);
    if Results(blocks[n + 1..]) == 0 {
      NoResultNoCopy(blocks[n + 1..], PendingItems(c, mode));
    }
  }

  /** Until then nothing is injected, and the ids answered so far are no longer awaited. */
  lemma InjectionWaits(c: Converted, blocks: seq<Block>, mode: Replay)
    requires c.pending.Some? && c.pending.value.remaining - Answered(blocks) != {}
    ensures var d := AddUser(c, blocks, mode);
            && OutItems(d.out) == OutItems(c.out) + UserItems(blocks)
            && d.pending == Some(c.pending.value.(remaining := c.pending.value.remaining - Answered(blocks)))
  {
    var p := c.pending.value;
    var deferred := Some(DeferredMessage(p, mode));
    assert p.remaining != {};
    ConvertUserItems(blocks, p.remaining, deferred);
    OutConcat(c.out, ConvertUser(blocks, p.remaining, deferred).out);
    WovenNowhere(blocks, p.remaining, PendingItems(c, mode));
    UserStepsRemain(UserState([], [], p.remaining, false), blocks, deferred);
  }

  // ----- a result too many -----

  /** A tool call with text after it. */
  function CallThenText(id: string, text: string): Message {
    Message(Assistant, Blocks([ToolUseB(Call(id, "Read", "{}")), TextB(text)]), "")
  }

  /** Two results in one message, the first for the call. */
  function TwoResults(id: string, other: string): Message {
    Message(User, Blocks([ToolResultB(id, "1"), ToolResultB(other, "2")]), "")
  }

  lemma CallThenTextPends(id: string, text: string, mode: Replay)
    requires Text.Strip(id) != ""
    ensures AddMessage(Converted([], None), CallThenText(id, text), mode).pending == Some(Pending({id}, [TextB(text)], ""))
  {
    var call := Call(id, "Read", "{}");
    var blocks := CallThenText(id, text).content.blocks;
    assert blocks[1..] == [TextB(text)] && [TextB(text)][1..] == [];
    assert FirstTool(blocks) == Some(0);
    assert NoToolUses([TextB(text)]) == [TextB(text)];
    assert ToolCalls([TextB(text)]) == [] && ToolCalls(blocks) == [call];
    assert CallIds([call]) == {id};
  }

  lemma TwoResultsInject(id: string, other: string)
    ensures Injections(TwoResults(id, other).content.blocks, {id}) == 2
  {
    var blocks := TwoResults(id, other).content.blocks;
    assert blocks[1..] == [ToolResultB(other, "2")] && [ToolResultB(other, "2")][1..] == [];
    assert {id} - {id} == {};
    NoneRemain(blocks[1..], []);
  }

  /** A second result in the message that answers the last call: the text after the call comes twice. */
  lemma ExtraResultRepeats(id: string, other: string, text: string, mode: Replay)
    requires Text.Strip(id) != ""
    ensures var messages := [CallThenText(id, text), TwoResults(id, other)];
            !Refused(messages) &&
            multiset(OutItems(ConvertMessages(messages, mode).value)) != multiset(InItems(messages, mode))
  {
    var messages := [CallThenText(id, text), TwoResults(id, other)];
    var c := AddMessage(Converted([], None), messages[0], mode);
    CallThenTextPends(id, text, mode);
    TwoResultsInject(id, other);
    assert messages[1..] == [TwoResults(id, other)];
    assert id in c.pending.value.remaining;
    assert Copies(c, TwoResults(id, other)) == 1;
    assert AssistantParts([TextB(text)], mode) == [text] by {
      assert [TextB(text)][1..] == [];
    }
    assert PendingItems(c, mode)[0] == AssistantText(text);
    ConversionConserves(messages, mode);
  }
}
