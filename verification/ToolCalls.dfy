/** Assembling streamed OpenAI tool calls into tool_use blocks
    (providers/openai_compat.py, `_process_tool_call` and the flush helpers). */
module ToolCalls {
  import opened OrderedDict
  import opened StreamContract
  import opened BlockState
  import opened JsonTexts
  import Text

  /** One streamed tool-call delta; `freshId` is the id drawn should none have arrived.
      `MissingFunction` is a delta without its function record, which raises. */
  datatype ToolCall =
    | ToolCall(index: Option<int>, id: Option<string>, name: Option<string>, arguments: string, freshId: string)
    | MissingFunction

  /** The builder together with `tool_argument_alias_buffers`. */
  datatype Session = Session(b: Blocks, aliasBuffers: Dict<int, string>)

  const NewSession := Session(NewBlocks, Dict([], map[]))

  /** The state after some code ran, the events it yielded, and whether it raised. */
  datatype Turn = Turn(s: Session, events: seq<Event>, raised: bool)

  // ----- the code -----

  function ToolAt(b: Blocks, t: int): ToolCallState {
    if t in b.tools.at then b.tools.at[t] else NewTool
  }

  /** `register_tool_name` on a known tool: extend, or keep what already says more. */
  function MergeName(prev: string, name: string): (r: string)
    ensures name <= r || r == prev || r == prev + name
  {
    if prev == "" || prev <= name then name else if name <= prev then prev else prev + name
  }

  function ResolveIndex(b: Blocks, tc: ToolCall): int
    requires tc.ToolCall?
  {
    match tc.index
    case None => 0
    case Some(i) => if i < 0 then |b.tools.keys| else i
  }

  /** The id and the name fragment are recorded first. */
  function Note(b: Blocks, t: int, tc: ToolCall): Blocks
    requires tc.ToolCall?
  {
    var b1 := if tc.id.Some? && tc.id.value != "" then SetTool(b, t, ToolAt(b, t).(toolId := tc.id.value)) else b;
    if tc.name.Some?
    then SetTool(b1, t, ToolAt(b1, t).(name := MergeName(ToolAt(b1, t).name, tc.name.value)))
    else b1
  }

  /** `_emit_tool_arg_delta`. */
  function EmitArg(json: Json, s: Session, t: int, args: string): Turn
    requires t in s.b.tools.at
  {
    var state := s.b.tools.at[t];
    if args == "" then Turn(s, [], false)
    else if state.name == "Task" then EmitTaskArg(json, s, t, args)
    else if json.aliased(state.name) then EmitAliasedArg(json, s, t, args)
    else
      var out := EmitTool(s.b, t, args);
      Turn(s.(b := out.b), out.events, false)
  }

  /** Task arguments are held back until they parse; `buffer_task_args` raises on a non-object. */
  function EmitTaskArg(json: Json, s: Session, t: int, args: string): Turn
    requires t in s.b.tools.at
  {
    var state := s.b.tools.at[t];
    var buffer := state.taskArgBuffer + args;
    if state.taskArgsEmitted then Turn(s, [], false)
    else if json.parse(buffer).Object? then
      var out := EmitTool(SetTool(s.b, t, state.(taskArgBuffer := "", taskArgsEmitted := true)), t, json.foreground(buffer));
      Turn(s.(b := out.b), out.events, false)
    else
      Turn(s.(b := SetTool(s.b, t, state.(taskArgBuffer := buffer))), [], json.parse(buffer).NotObject?)
  }

  function EmitAliasedArg(json: Json, s: Session, t: int, args: string): Turn
    requires t in s.b.tools.at
  {
    var name := s.b.tools.at[t].name;
    var buffer := (if t in s.aliasBuffers.at then s.aliasBuffers.at[t] else "") + args;
    match json.Restored(name, buffer)
    case None => Turn(s.(aliasBuffers := s.aliasBuffers.Put(t, buffer)), [], false)
    case Some(restored) =>
      var out := EmitTool(s.b, t, restored);
      Turn(Session(out.b, s.aliasBuffers.Remove(t)), out.events, false)
  }

  /** The block starts once the name is known, and the arguments that came earlier follow. */
  function Begin(json: Json, s: Session, t: int, freshId: string): Turn
    requires t in s.b.tools.at
  {
    var state := s.b.tools.at[t];
    var out := StartTool(SetTool(s.b, t, state.(preStartArgs := "")), t,
                         if state.toolId != "" then state.toolId else freshId, Text.Strip(state.name));
    var turn := EmitArg(json, s.(b := out.b), t, state.preStartArgs);
    turn.(events := out.events + turn.events)
  }

  /** Arguments of a tool whose block has not started wait for its name. */
  function TakeArguments(json: Json, s: Session, t: int, args: string): Turn {
    if args == "" then Turn(s, [], false)
    else if Live(s.b, t) then EmitArg(json, s, t, args)
    else
      var state := ToolAt(s.b, t);
      Turn(s.(b := SetTool(s.b, t, state.(preStartArgs := state.preStartArgs + args))), [], false)
  }

  /** `_process_tool_call`. */
  function ProcessToolCall(json: Json, s: Session, tc: ToolCall): Turn {
    if tc.MissingFunction? then Turn(s, [], true)
    else
      var t := ResolveIndex(s.b, tc);
      var noted := s.(b := Note(s.b, t, tc));
      if !Live(noted.b, t) && HasInk(ToolAt(noted.b, t).name) then
        assert HasInk(NewTool.name) == false;
        var begun := Begin(json, noted, t, tc.freshId);
        if begun.raised then begun
        else
          var rest := TakeArguments(json, begun.s, t, tc.arguments);
          rest.(events := begun.events + rest.events)
      else TakeArguments(json, noted, t, tc.arguments)
  }

  function ProcessToolCalls(json: Json, s: Session, calls: seq<ToolCall>): Turn
    decreases |calls|
  {
    if calls == [] then Turn(s, [], false)
    else
      var first := ProcessToolCall(json, s, calls[0]);
      if first.raised then first
      else
        var rest := ProcessToolCalls(json, first.s, calls[1..]);
        rest.(events := first.events + rest.events)
  }

  /** `_flush_tool_argument_alias_buffers` over the buffer keys `order`. */
  function FlushAliases(json: Json, s: Session, order: seq<int>): (turn: Turn)
    ensures !turn.raised
    decreases |order|
  {
    if order == [] then Turn(s, [], false)
    else
      var t := order[0];
      var first := FlushAlias(json, s, t);
      var rest := FlushAliases(json, first.s, order[1..]);
      rest.(events := first.events + rest.events)
  }

  function FlushAlias(json: Json, s: Session, t: int): Turn {
    var buffer := if t in s.aliasBuffers.at then s.aliasBuffers.at[t] else "";
    if buffer == "" then Turn(s.(aliasBuffers := s.aliasBuffers.Remove(t)), [], false)
    else if t !in s.b.tools.at || s.b.tools.at[t].name == "Task" || !json.aliased(s.b.tools.at[t].name) then
      Turn(s, [], false)
    else
      var restored := json.Restored(s.b.tools.at[t].name, buffer);
      var out := EmitTool(s.b, t, if restored.Some? then restored.value else buffer);
      Turn(Session(out.b, s.aliasBuffers.Remove(t)), out.events, false)
  }

  /** What `flush_task_arg_buffers` returns: the arguments to send, per tool. */
  datatype Drained = Drained(b: Blocks, results: seq<(int, string)>, raised: bool)

  /** `flush_task_arg_buffers` over the tools `order`; a non-object would raise past its handler. */
  function DrainTasks(json: Json, b: Blocks, order: seq<int>): Drained
    decreases |order|
  {
    if order == [] then Drained(b, [], false)
    else
      var t := order[0];
      var state := ToolAt(b, t);
      if t !in b.tools.at || state.taskArgBuffer == "" || state.taskArgsEmitted then DrainTasks(json, b, order[1..])
      else if json.parse(state.taskArgBuffer).NotObject? then Drained(b, [], true)
      else
        var out := if json.parse(state.taskArgBuffer).Object? then json.foreground(state.taskArgBuffer) else "{}";
        var rest := DrainTasks(json, SetTool(b, t, state.(taskArgBuffer := "", taskArgsEmitted := true)), order[1..]);
        rest.(results := [(t, out)] + rest.results)
  }

  /** One argument delta for each result. */
  function EmitResults(b: Blocks, results: seq<(int, string)>): Out
    requires forall r :: r in results ==> r.0 in b.tools.at
    decreases |results|
  {
    if results == [] then Out(b, [])
    else
      var first := EmitTool(b, results[0].0, results[0].1);
      Then(first, EmitResults(first.b, results[1..]))
  }

  lemma DrainedKeys(json: Json, b: Blocks, order: seq<int>)
    ensures var d := DrainTasks(json, b, order);
            && d.b.tools.at.Keys == b.tools.at.Keys
            && forall r :: r in d.results ==> r.0 in b.tools.at
    decreases |order|
  {
  }

  /** `_flush_task_arg_buffers`. */
  function FlushTasks(json: Json, s: Session): Turn {
    var drained := DrainTasks(json, s.b, s.b.tools.keys);
    DrainedKeys(json, s.b, s.b.tools.keys);
    if drained.raised then Turn(s.(b := drained.b), [], true)
    else
      var out := EmitResults(drained.b, drained.results);
      Turn(s.(b := out.b), out.events, false)
  }

  // ----- what it keeps -----

  /** Buffered arguments, Task or aliased, belong to started tools, and never yet parse. */
  ghost predicate Pending(json: Json, s: Session) {
    && s.aliasBuffers.Valid()
    && (forall t :: t in s.aliasBuffers.at ==> Live(s.b, t) && json.parse(s.aliasBuffers.at[t]).NotJson?)
    && (forall t :: t in s.b.tools.at && s.b.tools.at[t].taskArgBuffer != "" ==>
          Live(s.b, t) && json.parse(s.b.tools.at[t].taskArgBuffer).NotJson?)
  }

  ghost predicate Sound(json: Json, s: Session, es: seq<Event>) {
    Good(s.b, es) && Pending(json, s)
  }

  /** The events of a turn agree with the state it leaves, even one cut short by an exception. */
  ghost predicate SoundTurn(json: Json, es: seq<Event>, turn: Turn) {
    Good(turn.s.b, es + turn.events) && (!turn.raised ==> Pending(json, turn.s))
  }

  /** Rewriting a tool's texts yields no event. */
  lemma SetToolGood(b: Blocks, es: seq<Event>, t: int, state: ToolCallState)
    requires Good(b, es) && ToolTidy(state) && state.contents == ToolAt(b, t).contents
    requires state.started == ToolAt(b, t).started && state.blockIndex == ToolAt(b, t).blockIndex
    ensures Good(SetTool(b, t, state), es)
  {
    PutTracks(b, Run(Fresh, es), t, state);
    PutRecords(b, es, t, state);
    PutTidy(b, t, state);
  }

  lemma NoteSound(json: Json, s: Session, es: seq<Event>, t: int, tc: ToolCall)
    requires Sound(json, s, es) && tc.ToolCall?
    ensures Sound(json, s.(b := Note(s.b, t, tc)), es)
    ensures Live(Note(s.b, t, tc), t) == Live(s.b, t)
  {
    var b1 := if tc.id.Some? && tc.id.value != "" then SetTool(s.b, t, ToolAt(s.b, t).(toolId := tc.id.value)) else s.b;
    if tc.id.Some? && tc.id.value != "" {
      RewriteSound(json, s, es, t, b1.tools.at[t]);
    }
    if tc.name.Some? {
      RewriteSound(json, s.(b := b1), es, t, Note(s.b, t, tc).tools.at[t]);
    }
  }

  /** Changing nothing but the id, the name and the waiting arguments of a tool is sound. */
  lemma RewriteSound(json: Json, s: Session, es: seq<Event>, t: int, state: ToolCallState)
    requires Sound(json, s, es) && ToolTidy(state)
    requires state.(toolId := "", name := "", preStartArgs := "") ==
             ToolAt(s.b, t).(toolId := "", name := "", preStartArgs := "")
    ensures Sound(json, s.(b := SetTool(s.b, t, state)), es)
  {
    assert t in s.b.tools.at ==> ToolTidy(s.b.tools.at[t]);
    SetToolGood(s.b, es, t, state);
    RewritePending(json, s, t, state);
  }

  lemma RewritePending(json: Json, s: Session, t: int, state: ToolCallState)
    requires Pending(json, s)
    requires state.started == ToolAt(s.b, t).started
    requires state.taskArgBuffer == "" || state.taskArgBuffer == ToolAt(s.b, t).taskArgBuffer ||
             (state.started && json.parse(state.taskArgBuffer).NotJson?)
    ensures Pending(json, s.(b := SetTool(s.b, t, state)))
  {
    var b' := SetTool(s.b, t, state);
    assert forall u :: Live(b', u) <==> Live(s.b, u);
  }

  lemma EmitPending(json: Json, s: Session, t: int, text: string)
    requires Pending(json, s) && Live(s.b, t)
    ensures Pending(json, s.(b := EmitTool(s.b, t, text).b))
  {
    RewritePending(json, s, t, s.b.tools.at[t].(contents := s.b.tools.at[t].contents + text));
  }

  lemma EmitTaskArgSound(json: Json, s: Session, es: seq<Event>, t: int, args: string)
    requires Sound(json, s, es) && Live(s.b, t)
    ensures SoundTurn(json, es, EmitTaskArg(json, s, t, args))
    ensures Live(EmitTaskArg(json, s, t, args).s.b, t)
  {
    var state := s.b.tools.at[t];
    var buffer := state.taskArgBuffer + args;
    assert es + [] == es;
    assert ToolTidy(state);
    if !state.taskArgsEmitted {
      if json.parse(buffer).Object? {
        var sent := state.(taskArgBuffer := "", taskArgsEmitted := true);
        SetToolGood(s.b, es, t, sent);
        RewritePending(json, s, t, sent);
        var s1 := s.(b := SetTool(s.b, t, sent));
        EmitToolGood(s1.b, es, t, json.foreground(buffer));
        EmitPending(json, s1, t, json.foreground(buffer));
      } else {
        var held := state.(taskArgBuffer := buffer);
        SetToolGood(s.b, es, t, held);
        if json.parse(buffer).NotJson? {
          RewritePending(json, s, t, held);
        }
      }
    }
  }

  lemma EmitAliasedArgSound(json: Json, s: Session, es: seq<Event>, t: int, args: string)
    requires Sound(json, s, es) && Live(s.b, t)
    ensures SoundTurn(json, es, EmitAliasedArg(json, s, t, args))
    ensures Live(EmitAliasedArg(json, s, t, args).s.b, t)
  {
    var buffer := (if t in s.aliasBuffers.at then s.aliasBuffers.at[t] else "") + args;
    assert es + [] == es;
    match json.Restored(s.b.tools.at[t].name, buffer)
    case None =>
    case Some(restored) =>
      EmitToolGood(s.b, es, t, restored);
      EmitPending(json, s, t, restored);
  }

  lemma EmitArgSound(json: Json, s: Session, es: seq<Event>, t: int, args: string)
    requires Sound(json, s, es) && Live(s.b, t)
    ensures SoundTurn(json, es, EmitArg(json, s, t, args))
    ensures Live(EmitArg(json, s, t, args).s.b, t)
  {
    assert es + [] == es;
    if args == "" {
    } else if s.b.tools.at[t].name == "Task" {
      EmitTaskArgSound(json, s, es, t, args);
    } else if json.aliased(s.b.tools.at[t].name) {
      EmitAliasedArgSound(json, s, es, t, args);
    } else {
      EmitToolGood(s.b, es, t, args);
      EmitPending(json, s, t, args);
    }
  }

  lemma BeginSound(json: Json, s: Session, es: seq<Event>, t: int, freshId: string)
    requires Sound(json, s, es) && t in s.b.tools.at && !Live(s.b, t)
    ensures SoundTurn(json, es, Begin(json, s, t, freshId))
    ensures Live(Begin(json, s, t, freshId).s.b, t)
  {
    var state := s.b.tools.at[t];
    var s1 := s.(b := SetTool(s.b, t, state.(preStartArgs := "")));
    assert ToolTidy(state);
    RewriteSound(json, s, es, t, state.(preStartArgs := ""));
    var id := if state.toolId != "" then state.toolId else freshId;
    var out := StartTool(s1.b, t, id, Text.Strip(state.name));
    StartToolGood(s1.b, es, t, id, Text.Strip(state.name));
    StartPending(json, s1, t, id, Text.Strip(state.name));
    EmitArgSound(json, s.(b := out.b), es + out.events, t, state.preStartArgs);
    ConcatAssoc(es, out.events, EmitArg(json, s.(b := out.b), t, state.preStartArgs).events);
  }

  lemma StartPending(json: Json, s: Session, t: int, id: string, name: string)
    requires Pending(json, s) && t in s.b.tools.at
    ensures Pending(json, s.(b := StartTool(s.b, t, id, name).b))
  {
    var b' := StartTool(s.b, t, id, name).b;
    assert forall u :: Live(s.b, u) ==> Live(b', u);
  }

  lemma TakeArgumentsSound(json: Json, s: Session, es: seq<Event>, t: int, args: string)
    requires Sound(json, s, es)
    ensures SoundTurn(json, es, TakeArguments(json, s, t, args))
  {
    assert es + [] == es;
    if args != "" {
      if Live(s.b, t) {
        EmitArgSound(json, s, es, t, args);
      } else {
        var state := ToolAt(s.b, t);
        assert ToolTidy(state);
        RewriteSound(json, s, es, t, state.(preStartArgs := state.preStartArgs + args));
      }
    }
  }

  lemma ProcessToolCallSound(json: Json, s: Session, es: seq<Event>, tc: ToolCall)
    requires Sound(json, s, es)
    ensures SoundTurn(json, es, ProcessToolCall(json, s, tc))
  {
    if tc.MissingFunction? {
      assert es + [] == es;
    } else {
      var t := ResolveIndex(s.b, tc);
      var noted := s.(b := Note(s.b, t, tc));
      NoteSound(json, s, es, t, tc);
      if !Live(noted.b, t) && HasInk(ToolAt(noted.b, t).name) {
        assert t in noted.b.tools.at;
        var begun := Begin(json, noted, t, tc.freshId);
        BeginSound(json, noted, es, t, tc.freshId);
        if !begun.raised {
          TakeArgumentsSound(json, begun.s, es + begun.events, t, tc.arguments);
          ConcatAssoc(es, begun.events, TakeArguments(json, begun.s, t, tc.arguments).events);
        }
      } else {
        TakeArgumentsSound(json, noted, es, t, tc.arguments);
      }
    }
  }

  /** Whatever the tool-call deltas, deltas go only to open tool blocks, every block gets a fresh
      index, and buffered arguments belong to started tools. */
  lemma {:induction false} ProcessToolCallsSound(json: Json, s: Session, es: seq<Event>, calls: seq<ToolCall>)
    requires Sound(json, s, es)
    ensures SoundTurn(json, es, ProcessToolCalls(json, s, calls))
    decreases |calls|
  {
    if calls == [] {
      assert es + [] == es;
    } else {
      var first := ProcessToolCall(json, s, calls[0]);
      ProcessToolCallSound(json, s, es, calls[0]);
      if !first.raised {
        ProcessToolCallsSound(json, first.s, es + first.events, calls[1..]);
        ConcatAssoc(es, first.events, ProcessToolCalls(json, first.s, calls[1..]).events);
      }
    }
  }

  // ----- the flushes at the end of the stream -----

  lemma FlushAliasSound(json: Json, s: Session, es: seq<Event>, t: int)
    requires Sound(json, s, es)
    ensures Sound(json, FlushAlias(json, s, t).s, es + FlushAlias(json, s, t).events)
  {
    assert es + [] == es;
    var buffer := if t in s.aliasBuffers.at then s.aliasBuffers.at[t] else "";
    if buffer != "" && t in s.b.tools.at && s.b.tools.at[t].name != "Task" && json.aliased(s.b.tools.at[t].name) {
      EmitToolGood(s.b, es, t, buffer);
      EmitPending(json, s, t, buffer);
    }
  }

  lemma {:induction false} FlushAliasesSound(json: Json, s: Session, es: seq<Event>, order: seq<int>)
    requires Sound(json, s, es)
    ensures Sound(json, FlushAliases(json, s, order).s, es + FlushAliases(json, s, order).events)
    decreases |order|
  {
    if order == [] {
      assert es + [] == es;
    } else {
      var first := FlushAlias(json, s, order[0]);
      FlushAliasSound(json, s, es, order[0]);
      FlushAliasesSound(json, first.s, es + first.events, order[1..]);
      ConcatAssoc(es, first.events, FlushAliases(json, first.s, order[1..]).events);
    }
  }

  /** A Task buffer left at the end never parses, so the flush never raises and always sends `{}`. */
  lemma {:induction false} DrainSound(json: Json, s: Session, es: seq<Event>, order: seq<int>)
    requires Sound(json, s, es)
    ensures var d := DrainTasks(json, s.b, order);
            && !d.raised && Sound(json, s.(b := d.b), es)
            && forall r :: r in d.results ==> Live(d.b, r.0) && r.1 == "{}"
    decreases |order|
  {
    if order != [] {
      var t := order[0];
      var state := ToolAt(s.b, t);
      if t !in s.b.tools.at || state.taskArgBuffer == "" || state.taskArgsEmitted {
        DrainSound(json, s, es, order[1..]);
      } else {
        var sent := state.(taskArgBuffer := "", taskArgsEmitted := true);
        assert ToolTidy(state);
        SetToolGood(s.b, es, t, sent);
        RewritePending(json, s, t, sent);
        DrainSound(json, s.(b := SetTool(s.b, t, sent)), es, order[1..]);
        DrainKeepsLive(json, SetTool(s.b, t, sent), order[1..], t);
      }
    }
  }

  lemma {:induction false} DrainKeepsLive(json: Json, b: Blocks, order: seq<int>, t: int)
    requires Live(b, t)
    ensures Live(DrainTasks(json, b, order).b, t)
    decreases |order|
  {
    if order != [] {
      var u := order[0];
      var state := ToolAt(b, u);
      if u !in b.tools.at || state.taskArgBuffer == "" || state.taskArgsEmitted {
        DrainKeepsLive(json, b, order[1..], t);
      } else if !json.parse(state.taskArgBuffer).NotObject? {
        DrainKeepsLive(json, SetTool(b, u, state.(taskArgBuffer := "", taskArgsEmitted := true)), order[1..], t);
      }
    }
  }

  lemma {:induction false} EmitResultsSound(json: Json, s: Session, es: seq<Event>, results: seq<(int, string)>)
    requires Sound(json, s, es)
    requires forall r :: r in results ==> Live(s.b, r.0)
    ensures Sound(json, s.(b := EmitResults(s.b, results).b), es + EmitResults(s.b, results).events)
    decreases |results|
  {
    if results == [] {
      assert es + [] == es;
    } else {
      var first := EmitTool(s.b, results[0].0, results[0].1);
      EmitToolGood(s.b, es, results[0].0, results[0].1);
      EmitPending(json, s, results[0].0, results[0].1);
      assert forall u :: Live(s.b, u) ==> Live(first.b, u);
      EmitResultsSound(json, s.(b := first.b), es + first.events, results[1..]);
      ConcatAssoc(es, first.events, EmitResults(first.b, results[1..]).events);
    }
  }

  lemma FlushTasksSound(json: Json, s: Session, es: seq<Event>)
    requires Sound(json, s, es)
    ensures !FlushTasks(json, s).raised
    ensures Sound(json, FlushTasks(json, s).s, es + FlushTasks(json, s).events)
  {
    var drained := DrainTasks(json, s.b, s.b.tools.keys);
    DrainSound(json, s, es, s.b.tools.keys);
    EmitResultsSound(json, s.(b := drained.b), es, drained.results);
  }

  // ----- a call for one tool leaves the others alone -----

  predicate PlainName(json: Json, name: string) {
    name != "Task" && !json.aliased(name)
  }

  function AliasBuffer(s: Session, t: int): string {
    if t in s.aliasBuffers.at then s.aliasBuffers.at[t] else ""
  }

  lemma EmitAliasedArgTouchesOnly(json: Json, s: Session, u: int, args: string, t: int)
    requires u in s.b.tools.at && u != t
    ensures ToolAt(EmitAliasedArg(json, s, u, args).s.b, t) == ToolAt(s.b, t)
    ensures AliasBuffer(EmitAliasedArg(json, s, u, args).s, t) == AliasBuffer(s, t)
    ensures u in EmitAliasedArg(json, s, u, args).s.b.tools.at
  {
  }

  lemma EmitArgTouchesOnly(json: Json, s: Session, u: int, args: string, t: int)
    requires u in s.b.tools.at && u != t
    ensures ToolAt(EmitArg(json, s, u, args).s.b, t) == ToolAt(s.b, t)
    ensures AliasBuffer(EmitArg(json, s, u, args).s, t) == AliasBuffer(s, t)
    ensures u in EmitArg(json, s, u, args).s.b.tools.at
  {
    if args != "" && s.b.tools.at[u].name != "Task" && json.aliased(s.b.tools.at[u].name) {
      EmitAliasedArgTouchesOnly(json, s, u, args, t);
    }
  }

  lemma BeginTouchesOnly(json: Json, s: Session, u: int, freshId: string, t: int)
    requires u in s.b.tools.at && u != t
    ensures ToolAt(Begin(json, s, u, freshId).s.b, t) == ToolAt(s.b, t)
    ensures AliasBuffer(Begin(json, s, u, freshId).s, t) == AliasBuffer(s, t)
  {
    var state := s.b.tools.at[u];
    var out := StartTool(SetTool(s.b, u, state.(preStartArgs := "")), u,
                         if state.toolId != "" then state.toolId else freshId, Text.Strip(state.name));
    EmitArgTouchesOnly(json, s.(b := out.b), u, state.preStartArgs, t);
  }

  lemma TakeTouchesOnly(json: Json, s: Session, u: int, args: string, t: int)
    requires u != t
    ensures ToolAt(TakeArguments(json, s, u, args).s.b, t) == ToolAt(s.b, t)
    ensures AliasBuffer(TakeArguments(json, s, u, args).s, t) == AliasBuffer(s, t)
  {
    if args != "" && Live(s.b, u) {
      EmitArgTouchesOnly(json, s, u, args, t);
    }
  }

  /** A call for one tool leaves the others alone. */
  lemma CallTouchesOnly(json: Json, s: Session, tc: ToolCall, t: int)
    requires tc.ToolCall? ==> ResolveIndex(s.b, tc) != t
    ensures ToolAt(ProcessToolCall(json, s, tc).s.b, t) == ToolAt(s.b, t)
    ensures AliasBuffer(ProcessToolCall(json, s, tc).s, t) == AliasBuffer(s, t)
  {
    if tc.ToolCall? {
      var u := ResolveIndex(s.b, tc);
      var noted := s.(b := Note(s.b, u, tc));
      assert ToolAt(noted.b, t) == ToolAt(s.b, t);
      if !Live(noted.b, u) && HasInk(ToolAt(noted.b, u).name) {
        assert u in noted.b.tools.at;
        var begun := Begin(json, noted, u, tc.freshId);
        BeginTouchesOnly(json, noted, u, tc.freshId, t);
        TakeTouchesOnly(json, begun.s, u, tc.arguments, t);
      } else {
        TakeTouchesOnly(json, noted, u, tc.arguments, t);
      }
    }
  }

  lemma NewSound(json: Json)
    ensures Sound(json, NewSession, [])
  {
    NewGood();
  }
}
