/** The builder object itself (core/anthropic/sse.py): its fields, updated in place, always follow
    the block-state functions. */
module SseBuilder {
  import opened OrderedDict
  import opened StreamContract
  import opened JsonTexts
  import opened BlockState
  import opened ToolCalls

  /** `SSEBuilder` with its `ContentBlockManager`. */
  class SSEBuilder {
    var nextIndex: nat
    var thinkingIndex: int
    var textIndex: int
    var thinkingStarted: bool
    var textStarted: bool
    var toolStates: Dict<int, ToolCallState>
    var accumulatedText: string
    var accumulatedReasoning: string

    ghost function State(): Blocks
      reads this
    {
      Blocks(nextIndex, thinkingIndex, textIndex, thinkingStarted, textStarted, toolStates,
             accumulatedText, accumulatedReasoning)
    }

    constructor ()
      ensures State() == NewBlocks
    {
      nextIndex, thinkingIndex, textIndex := 0, -1, -1;
      thinkingStarted, textStarted := false, false;
      toolStates := Dict([], map[]);
      accumulatedText, accumulatedReasoning := "", "";
    }

    method AllocateIndex() returns (index: nat)
      modifies this
      ensures index == old(nextIndex) && State() == old(State()).(nextIndex := index + 1)
    {
      index := nextIndex;
      nextIndex := nextIndex + 1;
    }

    // ----- text and thinking -----

    method StartThinkingBlock() returns (event: Event)
      modifies this
      ensures Out(State(), [event]) == StartThinking(old(State()))
    {
      thinkingIndex := AllocateIndex();
      thinkingStarted := true;
      event := BlockStart(thinkingIndex, ThinkingBlock(""));
    }

    method EmitThinkingDelta(content: string) returns (event: Event)
      modifies this
      ensures Out(State(), [event]) == EmitThinking(old(State()), content)
    {
      accumulatedReasoning := accumulatedReasoning + content;
      event := BlockDelta(thinkingIndex, ThinkingDelta(content));
    }

    method StopThinkingBlock() returns (event: Event)
      modifies this
      ensures Out(State(), [event]) == StopThinking(old(State()))
    {
      thinkingStarted := false;
      event := BlockStop(thinkingIndex);
    }

    method StartTextBlock() returns (event: Event)
      modifies this
      ensures Out(State(), [event]) == StartText(old(State()))
    {
      textIndex := AllocateIndex();
      textStarted := true;
      event := BlockStart(textIndex, TextBlock(""));
    }

    method EmitTextDelta(content: string) returns (event: Event)
      modifies this
      ensures Out(State(), [event]) == EmitText(old(State()), content)
    {
      accumulatedText := accumulatedText + content;
      event := BlockDelta(textIndex, TextDelta(content));
    }

    method StopTextBlock() returns (event: Event)
      modifies this
      ensures Out(State(), [event]) == StopText(old(State()))
    {
      textStarted := false;
      event := BlockStop(textIndex);
    }

    method EnsureThinkingBlock() returns (events: seq<Event>)
      modifies this
      ensures Out(State(), events) == EnsureThinking(old(State()))
    {
      events := [];
      if textStarted {
        var stop := StopTextBlock();
        events := events + [stop];
      }
      if !thinkingStarted {
        var start := StartThinkingBlock();
        events := events + [start];
      }
    }

    method EnsureTextBlock() returns (events: seq<Event>)
      modifies this
      ensures Out(State(), events) == EnsureText(old(State()))
    {
      events := [];
      if thinkingStarted {
        var stop := StopThinkingBlock();
        events := events + [stop];
      }
      if !textStarted {
        var start := StartTextBlock();
        events := events + [start];
      }
    }

    /** The transport's two-step: make sure the block is open, then send the text. */
    method Say(content: string) returns (events: seq<Event>)
      modifies this
      ensures Out(State(), events) == SayText(old(State()), content)
    {
      events := EnsureTextBlock();
      var delta := EmitTextDelta(content);
      events := events + [delta];
    }

    method Think(content: string) returns (events: seq<Event>)
      modifies this
      ensures Out(State(), events) == SayThinking(old(State()), content)
    {
      events := EnsureThinkingBlock();
      var delta := EmitThinkingDelta(content);
      events := events + [delta];
    }

    method CloseContentBlocks() returns (events: seq<Event>)
      modifies this
      ensures Out(State(), events) == CloseContent(old(State()))
    {
      events := [];
      if thinkingStarted {
        var stop := StopThinkingBlock();
        events := events + [stop];
      }
      if textStarted {
        var stop := StopTextBlock();
        events := events + [stop];
      }
    }

    method CloseAllBlocks() returns (events: seq<Event>)
      modifies this
      ensures Out(State(), events) == CloseAll(old(State()))
    {
      events := CloseContentBlocks();
      ghost var content := events;
      for i := 0 to |toolStates.keys|
        invariant State() == CloseContent(old(State())).b
        invariant content + ToolStops(toolStates, toolStates.keys) == events + ToolStops(toolStates, toolStates.keys[i..])
      {
        var t := toolStates.keys[i];
        if t in toolStates.at && toolStates.at[t].started {
          events := events + [BlockStop(toolStates.at[t].blockIndex)];
        }
      }
    }

    method EmitErrorBlock(message: string) returns (events: seq<Event>)
      modifies this
      ensures Out(State(), events) == EmitError(old(State()), message)
    {
      var index := AllocateIndex();
      events := [BlockStart(index, TextBlock("")), BlockDelta(index, TextDelta(message)), BlockStop(index)];
    }

    /** `_iter_heuristic_tool_use_sse`. */
    method EmitHeuristicTool(json: Json, tool: HeuristicTool) returns (events: seq<Event>)
      modifies this
      ensures Out(State(), events) == EmitHeuristic(json, old(State()), tool)
    {
      var input := tool.input;
      if tool.name == "Task" && json.parse(input).Object? {
        input := json.foreground(input);
      }
      events := CloseContentBlocks();
      var index := AllocateIndex();
      events := events + [BlockStart(index, ToolUseBlock(tool.id, tool.name, "{}")),
                          BlockDelta(index, InputJsonDelta(input)), BlockStop(index)];
    }

    // ----- tools -----

    method SetStreamToolId(t: int, id: Option<string>)
      modifies this
      ensures State() == if id.Some? && id.value != ""
                         then SetTool(old(State()), t, ToolAt(old(State()), t).(toolId := id.value)) else old(State())
    {
      if id.None? || id.value == "" {
        return;
      }
      var state := if t in toolStates.at then toolStates.at[t] else NewTool;
      toolStates := toolStates.Put(t, state.(toolId := id.value));
    }

    method RegisterToolName(t: int, name: string)
      modifies this
      ensures State() == SetTool(old(State()), t, ToolAt(old(State()), t).(name := MergeName(ToolAt(old(State()), t).name, name)))
    {
      if t !in toolStates.at {
        toolStates := toolStates.Put(t, NewTool.(name := name));
        return;
      }
      var state := toolStates.at[t];
      if state.name == "" || state.name <= name {
        state := state.(name := name);
      } else if !(name <= state.name) {
        state := state.(name := state.name + name);
      }
      toolStates := toolStates.Put(t, state);
    }

    method StartToolBlock(t: int, toolId: string, name: string) returns (event: Event)
      modifies this
      ensures Out(State(), [event]) == StartTool(old(State()), t, toolId, name)
    {
      var index := AllocateIndex();
      if t in toolStates.at {
        toolStates := toolStates.Put(t, toolStates.at[t].(blockIndex := index, toolId := toolId, started := true));
      } else {
        toolStates := toolStates.Put(t, NewTool.(blockIndex := index, toolId := toolId, name := name, started := true));
      }
      event := BlockStart(index, ToolUseBlock(toolId, name, "{}"));
    }

    method EmitToolDelta(t: int, partialJson: string) returns (event: Event)
      requires t in toolStates.at
      modifies this
      ensures Out(State(), [event]) == EmitTool(old(State()), t, partialJson)
    {
      var state := toolStates.at[t];
      toolStates := toolStates.Put(t, state.(contents := state.contents + partialJson));
      event := BlockDelta(state.blockIndex, InputJsonDelta(partialJson));
    }

    method BufferTaskArgs(json: Json, t: int, args: string) returns (parsed: Option<string>, raised: bool)
      requires t in toolStates.at
      modifies this
      ensures var state := old(toolStates).at[t];
              var buffer := state.taskArgBuffer + args;
              if state.taskArgsEmitted then State() == old(State()) && parsed == None && !raised
              else if json.parse(buffer).Object?
              then State() == SetTool(old(State()), t, state.(taskArgBuffer := "", taskArgsEmitted := true)) &&
                   parsed == Some(json.foreground(buffer)) && !raised
              else State() == SetTool(old(State()), t, state.(taskArgBuffer := buffer)) &&
                   parsed == None && raised == json.parse(buffer).NotObject?
    {
      var state := toolStates.at[t];
      if state.taskArgsEmitted {
        return None, false;
      }
      var buffer := state.taskArgBuffer + args;
      match json.parse(buffer)
      case NotJson =>
        toolStates := toolStates.Put(t, state.(taskArgBuffer := buffer));
        parsed, raised := None, false;
      case NotObject =>
        toolStates := toolStates.Put(t, state.(taskArgBuffer := buffer));
        parsed, raised := None, true;
      case Object =>
        toolStates := toolStates.Put(t, state.(taskArgBuffer := "", taskArgsEmitted := true));
        parsed, raised := Some(json.foreground(buffer)), false;
    }

    method FlushTaskArgBuffers(json: Json) returns (results: seq<(int, string)>, raised: bool)
      modifies this
      ensures Drained(State(), if raised then DrainTasks(json, old(State()), old(toolStates).keys).results else results, raised)
              == DrainTasks(json, old(State()), old(toolStates).keys)
    {
      results := [];
      var order := toolStates.keys;
      ghost var all := DrainTasks(json, State(), order);
      for i := 0 to |order|
        invariant var rest := DrainTasks(json, State(), order[i..]);
                  all == rest.(results := results + rest.results)
      {
        var t := order[i];
        if t in toolStates.at && toolStates.at[t].taskArgBuffer != "" && !toolStates.at[t].taskArgsEmitted {
          var state := toolStates.at[t];
          if json.parse(state.taskArgBuffer).NotObject? {
            return results, true;
          }
          var text := "{}";
          if json.parse(state.taskArgBuffer).Object? {
            text := json.foreground(state.taskArgBuffer);
          }
          toolStates := toolStates.Put(t, state.(taskArgBuffer := "", taskArgsEmitted := true));
          results := results + [(t, text)];
        }
      }
      return results, false;
    }
  }
}
