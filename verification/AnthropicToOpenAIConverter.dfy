/** The converter's loops (core/anthropic/conversion.py), proved equal to the conversion functions. */
module AnthropicToOpenAIConverter {
  import opened Conversion
  import opened OrderedDict
  import Text

  lemma {:induction false} ThinkingConcat(a: seq<Block>, b: seq<Block>)
    ensures ThinkingParts(a + b) == ThinkingParts(a) + ThinkingParts(b)
    decreases |a|
  {
    if a == [] {
      assert a + b == b;
    } else {
      assert (a + b)[0] == a[0] && (a + b)[1..] == a[1..] + b;
      ThinkingConcat(a[1..], b);
    }
  }

  lemma PartsOfNext(content: seq<Block>, n: nat, mode: Replay)
    requires n < |content|
    ensures AssistantParts(content[..n + 1], mode) == AssistantParts(content[..n], mode) + PartsOf(content[n], mode)
    ensures ThinkingParts(content[..n + 1]) ==
            ThinkingParts(content[..n]) + if content[n].ThinkingB? then [content[n].thinking] else []
  {
    var b := content[n];
    assert content[..n + 1] == content[..n] + [b] && [b][1..] == [];
    PartsConcat(content[..n], [b], mode);
    ThinkingConcat(content[..n], [b]);
    assert AssistantParts([b], mode) == PartsOf(b, mode) + [];
    assert ThinkingParts([b]) == (if b.ThinkingB? then [b.thinking] else []) + [];
  }

  /** `_convert_assistant_message`; its callers pass it no tool calls. */
  method ConvertAssistantMessage(content: seq<Block>, reasoning: string, mode: Replay) returns (m: OpenAIMessage)
    requires forall k :: 0 <= k < |content| ==> !content[k].ToolUseB?
    ensures m == ConvertAssistant(content, reasoning, mode)
  {
    var contentParts: seq<string>, thinkingParts: seq<string> := [], [];
    for n := 0 to |content|
      invariant contentParts == AssistantParts(content[..n], mode)
      invariant mode.ReasoningContent? && reasoning == "" ==> thinkingParts == ThinkingParts(content[..n])
    {
      PartsOfNext(content, n, mode);
      match content[n]
      case TextB(text) =>
        contentParts := contentParts + [text];
      case ThinkingB(thinking) =>
        if mode.ThinkTags? {
          contentParts := contentParts + [ThinkTagContent(thinking)];
        } else if mode.ReasoningContent? && reasoning == "" {
          thinkingParts := thinkingParts + [thinking];
        }
      case _ =>
    }
    assert content[..|content|] == content;
    var replayed := "";
    if mode.ReasoningContent? {
      replayed := if reasoning != "" then reasoning else Text.Join("\n", thinkingParts);
    }
    return AssistantOut(contentParts, [], replayed);
  }

  predicate HasImage(blocks: seq<Block>) {
    exists k :: 0 <= k < |blocks| && blocks[k].ImageB?
  }

  /** `_convert_user_message_with_injection`, and without a message to inject `_convert_user_message`;
      `None` is an `OpenAIConversionError`. */
  method ConvertUserMessage(content: seq<Block>, awaited: set<string>, deferred: Option<OpenAIMessage>)
    returns (r: Option<UserState>)
    ensures r == if HasImage(content) then None else Some(ConvertUser(content, awaited, deferred))
  {
    var result, textParts, remaining, cleared := [], [], awaited, false;
    for n := 0 to |content|
      invariant forall k :: 0 <= k < n ==> !content[k].ImageB?
      invariant ConvertUser(content, awaited, deferred) ==
                UserSteps(UserState(result, textParts, remaining, cleared), content[n..], deferred)
    {
      assert content[n..][0] == content[n] && content[n..][1..] == content[n + 1..];
      match content[n]
      case TextB(text) =>
        textParts := textParts + [text];
      case ImageB =>
        return None;
      case ToolResultB(id, serialized) =>
        if textParts != [] {
          result, textParts := result + [UserOut(textParts)], [];
        }
        result := result + [ToolOut(id, serialized)];
        remaining := remaining - {id};
        if deferred.Some? && remaining == {} {
          result := result + [deferred.value];
          cleared := true;
        }
      case _ =>
    }
    if textParts != [] {
      result, textParts := result + [UserOut(textParts)], [];
    }
    return Some(UserState(result, textParts, remaining, cleared));
  }

  /** A message conversion refuses. */
  predicate RefusedMessage(m: Message) {
    m.content.Blocks? && exists i :: 0 <= i < |m.content.blocks| && Forbidden(m.role, m.content.blocks[i])
  }

  lemma RefusedByMessage(messages: seq<Message>)
    ensures Refused(messages) <==> exists k :: 0 <= k < |messages| && RefusedMessage(messages[k])
  {
    if Refused(messages) {
      var k, i :| 0 <= k < |messages| && messages[k].content.Blocks? && 0 <= i < |messages[k].content.blocks| &&
                  Forbidden(messages[k].role, messages[k].content.blocks[i]);
      assert RefusedMessage(messages[k]);
    }
  }

  /** The assistant branch of the loop. */
  method ConvertAssistantBlocks(content: seq<Block>, reasoning: string, mode: Replay, c: Converted) returns (d: Converted)
    requires !RefusedMessage(Message(Assistant, Blocks(content), reasoning))
    ensures d == AddAssistant(c, content, reasoning, mode)
  {
    var first := FirstTool(content);
    if first.None? {
      var m := ConvertAssistantMessage(content, reasoning, mode);
      return c.(out := c.out + [m]);
    }
    var i := first.value;
    var calls := ToolCalls(content);
    var pre := ConvertAssistantMessage(content[..i], reasoning, mode);
    var out := c.out + [pre.(calls := calls)];
    var deferred := DeferredBlocks(content, i);
    if deferred != [] {
      return Converted(out, Some(Pending(CallIds(calls), deferred, reasoning)));
    }
    return c.(out := out);
  }

  method EmitPending(c: Converted, mode: Replay) returns (d: Converted)
    ensures d == FlushPending(c, mode)
  {
    d := c;
    if c.pending.Some? {
      d := Converted(c.out + [DeferredMessage(c.pending.value, mode)], None);
    }
  }

  /** `convert_messages`. */
  method Convert(messages: seq<Message>, mode: Replay) returns (r: Option<seq<OpenAIMessage>>)
    ensures r == ConvertMessages(messages, mode)
  {
    RefusedByMessage(messages);
    var c := Converted([], None);
    for n := 0 to |messages|
      invariant forall k :: 0 <= k < n ==> !RefusedMessage(messages[k])
      invariant AddMessages(Converted([], None), messages, mode) == AddMessages(c, messages[n..], mode)
    {
      assert messages[n..][0] == messages[n] && messages[n..][1..] == messages[n + 1..];
      var next := ConvertOne(messages[n], mode, c);
      if next.None? {
        return None;
      }
      c := next.value;
    }
    c := EmitPending(c, mode);
    return Some(c.out);
  }

  /** One turn of the loop. */
  method ConvertOne(m: Message, mode: Replay, c: Converted) returns (r: Option<Converted>)
    ensures r == if RefusedMessage(m) then None else Some(AddMessage(c, m, mode))
  {
    match m
    case Message(Assistant, Blocks(content), reasoning) =>
      var flushed := EmitPending(c, mode);
      if exists i :: 0 <= i < |content| && Forbidden(Assistant, content[i]) {
        return None;
      }
      var d := ConvertAssistantBlocks(content, reasoning, mode, flushed);
      return Some(d);
    case Message(Assistant, Str(s), reasoning) =>
      return Some(c.(out := c.out + [AssistantString(StringParts(s, reasoning, mode), if mode.ReasoningContent? then reasoning else "")]));
    case Message(User, Str(s), _) =>
      var flushed := EmitPending(c, mode);
      return Some(flushed.(out := flushed.out + [UserOut([s])]));
    case Message(User, Blocks(content), _) =>
      assert HasImage(content) <==> RefusedMessage(m);
      if c.pending.None? || c.pending.value.remaining == {} {
        var flushed := EmitPending(c, mode);
        var plain := ConvertUserMessage(content, {}, None);
        return if plain.None? then None else Some(flushed.(out := flushed.out + plain.value.out));
      }
      var p := c.pending.value;
      var injected := ConvertUserMessage(content, p.remaining, Some(DeferredMessage(p, mode)));
      if injected.None? {
        return None;
      }
      var u := injected.value;
      return Some(Converted(c.out + u.out, if u.cleared then None else Some(p.(remaining := u.remaining))));
  }
}
