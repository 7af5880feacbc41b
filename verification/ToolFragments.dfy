/** One tool of a stream by itself: the deltas addressed to it, the name they register, and what they
    make the client see (providers/openai_compat.py, `_process_tool_call`). Other tools do not matter. */
module ToolFragments {
  import opened OrderedDict
  import opened StreamContract
  import opened BlockState
  import opened JsonTexts
  import opened ToolCalls
  import Text

  /** What one delta says of its tool. */
  datatype Fragment = Fragment(id: Option<string>, name: Option<string>, arguments: string, freshId: string)

  function Said(tc: ToolCall): Fragment
    requires tc.ToolCall?
  {
    Fragment(tc.id, tc.name, tc.arguments, tc.freshId)
  }

  // ----- the name -----

  /** The name registered after the fragments. */
  function Named(frags: seq<Fragment>): string {
    if frags == [] then ""
    else
      var before, last := Named(frags[..|frags| - 1]), frags[|frags| - 1];
      if last.name.Some? then MergeName(before, last.name.value) else before
  }

  /** The name registered when the block starts, which is as soon as it shows. */
  function FirstName(frags: seq<Fragment>): string {
    if frags == [] then ""
    else if HasInk(Named(frags[..|frags| - 1])) then FirstName(frags[..|frags| - 1])
    else Named(frags)
  }

  /** The last id sent that is not empty. */
  function LastId(frags: seq<Fragment>): string {
    if frags == [] then ""
    else
      var last := frags[|frags| - 1];
      if last.id.Some? && last.id.value != "" then last.id.value else LastId(frags[..|frags| - 1])
  }

  /** The id the block starts with: the last one sent by then, or else a fresh one. */
  function BlockId(frags: seq<Fragment>): string {
    if frags == [] then ""
    else if HasInk(Named(frags[..|frags| - 1])) then BlockId(frags[..|frags| - 1])
    else if LastId(frags) != "" then LastId(frags)
    else frags[|frags| - 1].freshId
  }

  /** No fragment after the start of the block makes the name longer. */
  ghost predicate Steady(frags: seq<Fragment>) {
    forall k :: 0 <= k < |frags| ==> SteadyAt(frags, k)
  }

  /** Fragment `k` comes before the block, has no name, or repeats the first name from its start. */
  predicate SteadyAt(frags: seq<Fragment>, k: int)
    requires 0 <= k < |frags|
  {
    HasInk(Named(frags[..k])) && frags[k].name.Some? ==> frags[k].name.value <= FirstName(frags)
  }

  lemma InkStays(s: string, more: string)
    requires HasInk(s) && s <= more
    ensures HasInk(more)
  {
    var i :| 0 <= i < |s| && !IsSpace(s[i]);
    assert more[i] == s[i];
  }

  lemma {:induction false} NamedGrows(frags: seq<Fragment>, k: nat)
    requires k <= |frags|
    ensures Named(frags[..k]) <= Named(frags)
    ensures HasInk(Named(frags[..k])) ==> HasInk(Named(frags))
    decreases |frags|
  {
    if k < |frags| {
      var init := frags[..|frags| - 1];
      NamedGrows(init, k);
      assert init[..k] == frags[..k];
      if HasInk(Named(frags[..k])) {
        InkStays(Named(frags[..k]), Named(frags));
      }
    } else {
      assert frags[..k] == frags;
    }
  }

  lemma {:induction false} FirstNameIsShort(frags: seq<Fragment>)
    ensures FirstName(frags) <= Named(frags)
    ensures HasInk(FirstName(frags)) == HasInk(Named(frags))
    decreases |frags|
  {
    if frags != [] {
      var init := frags[..|frags| - 1];
      FirstNameIsShort(init);
      NamedGrows(frags, |init|);
    }
  }

  lemma SteadyBefore(frags: seq<Fragment>, init: seq<Fragment>, k: int)
    requires frags != [] && init == frags[..|frags| - 1] && HasInk(Named(init)) && 0 <= k < |init|
    ensures SteadyAt(frags, k) <==> SteadyAt(init, k)
  {
    assert init[..k] == frags[..k] && FirstName(frags) == FirstName(init);
  }

  lemma SteadyStep(frags: seq<Fragment>, init: seq<Fragment>, last: Fragment)
    requires frags != [] && init == frags[..|frags| - 1] && last == frags[|frags| - 1] && HasInk(Named(init))
    ensures Steady(frags) <==> Steady(init) && (last.name.Some? ==> last.name.value <= FirstName(frags))
  {
    forall k | 0 <= k < |init| ensures SteadyAt(frags, k) <==> SteadyAt(init, k) {
      SteadyBefore(frags, init, k);
    }
    assert SteadyAt(frags, |init|) <==> (last.name.Some? ==> last.name.value <= FirstName(frags));
  }

  lemma {:induction false} SteadyMeansSame(frags: seq<Fragment>)
    requires HasInk(Named(frags))
    ensures Named(frags) == FirstName(frags) <==> Steady(frags)
    decreases |frags|
  {
    var n := |frags| - 1;
    var init := frags[..n];
    if HasInk(Named(init)) {
      SteadyMeansSame(init);
      FirstNameIsShort(init);
      NamedGrows(frags, n);
      SteadyStep(frags, init, frags[n]);
    } else {
      forall k | 0 <= k < |frags| ensures SteadyAt(frags, k) {
        assert frags[..k] == init[..k];
        NamedGrows(init, k);
      }
    }
  }

  /** The name shown is the name registered exactly when the block started with a name without outer
      white space and no later fragment made it longer. */
  lemma ShownIsRegistered(frags: seq<Fragment>)
    requires HasInk(Named(frags))
    ensures Text.Strip(FirstName(frags)) == Named(frags) <==> Text.NoOuterSpace(FirstName(frags)) && Steady(frags)
  {
    Text.StripShort(FirstName(frags));
    FirstNameIsShort(frags);
    SteadyMeansSame(frags);
  }

  /** The name fragments, joined. */
  function JoinedName(frags: seq<Fragment>): string {
    if frags == [] then ""
    else
      var last := frags[|frags| - 1];
      JoinedName(frags[..|frags| - 1]) + if last.name.Some? then last.name.value else ""
  }

  /** A name that comes in pieces, none of them the start of what came before, nor begun by it, is their
      join. */
  lemma {:induction false} PiecesJoin(frags: seq<Fragment>)
    requires forall k :: 0 < k < |frags| && frags[k].name.Some? ==>
               JoinedName(frags[..k]) == "" || (!(JoinedName(frags[..k]) <= frags[k].name.value) && !(frags[k].name.value <= JoinedName(frags[..k])))
    ensures Named(frags) == JoinedName(frags)
    decreases |frags|
  {
    if frags != [] {
      var init := frags[..|frags| - 1];
      assert forall k :: 0 <= k <= |init| ==> init[..k] == frags[..k];
      PiecesJoin(init);
    }
  }

  /** A name that is repeated from its start, as far as it is known, is the last that was sent. */
  lemma {:induction false} RepeatsGrow(frags: seq<Fragment>)
    requires forall k :: 0 <= k < |frags| ==> frags[k].name.Some?
    requires forall j, k :: 0 <= j <= k < |frags| ==> frags[j].name.value <= frags[k].name.value
    ensures frags != [] ==> Named(frags) == frags[|frags| - 1].name.value
    decreases |frags|
  {
    if |frags| > 1 {
      RepeatsGrow(frags[..|frags| - 1]);
    }
  }

  // ----- the arguments -----

  function Args(frags: seq<Fragment>): string {
    if frags == [] then "" else Args(frags[..|frags| - 1]) + frags[|frags| - 1].arguments
  }

  /** What the client has been shown of one tool's arguments, and what is held back of them. */
  datatype Strand = Strand(shown: string, taskBuffer: string, taskSent: bool, aliasBuffer: string)

  const NewStrand := Strand("", "", false, "")

  /** Arguments that come while the tool goes by `name`: those of a Task wait until they parse and are
      sent once, in the foreground; aliased ones wait until they parse; others are passed on. */
  function Take(json: Json, x: Strand, name: string, args: string): Strand {
    if args == "" || (name == "Task" && x.taskSent) then x
    else if name == "Task" then
      var buffer := x.taskBuffer + args;
      if json.parse(buffer).Object? then Strand(x.shown + json.foreground(buffer), "", true, x.aliasBuffer)
      else x.(taskBuffer := buffer)
    else if json.aliased(name) then
      match json.Restored(name, x.aliasBuffer + args)
      case None => x.(aliasBuffer := x.aliasBuffer + args)
      case Some(restored) => x.(shown := x.shown + restored, aliasBuffer := "")
    else x.(shown := x.shown + args)
  }

  predicate Raises(json: Json, x: Strand, name: string, args: string) {
    args != "" && name == "Task" && !x.taskSent && json.parse(x.taskBuffer + args).NotObject?
  }

  /** What a tool's fragments make of its arguments; those before its name follow at the start. */
  function Assembled(json: Json, frags: seq<Fragment>): Strand {
    if frags == [] || !HasInk(Named(frags)) then NewStrand
    else
      var init, name, last := frags[..|frags| - 1], Named(frags), frags[|frags| - 1];
      if HasInk(Named(init)) then Take(json, Assembled(json, init), name, last.arguments)
      else
        var begun := Take(json, NewStrand, name, Args(init));
        if Raises(json, NewStrand, name, Args(init)) then begun else Take(json, begun, name, last.arguments)
  }

  // ----- the stream makes just that of it, whatever else it carries -----

  /** The client has been shown a tool block of this name at index `i`. */
  ghost predicate StartedAs(es: seq<Event>, i: int, name: string) {
    exists id :: BlockStart(i, ToolUseBlock(id, name, "{}")) in es
  }

  /** How the block of a tool starts. */
  function FirstBlock(frags: seq<Fragment>): ContentBlock {
    ToolUseBlock(BlockId(frags), Text.Strip(FirstName(frags)), "{}")
  }

  function StrandOf(s: Session, t: int): Strand {
    var state := ToolAt(s.b, t);
    Strand(state.contents, state.taskArgBuffer, state.taskArgsEmitted, AliasBuffer(s, t))
  }

  /** After the fragments `frags` for tool `t`, and whatever else, the session and the events shown have
      of it what its fragments make of it. */
  ghost predicate Follows(json: Json, s: Session, es: seq<Event>, frags: seq<Fragment>, t: int) {
    var state := ToolAt(s.b, t);
    && state.name == Named(frags)
    && state.started == HasInk(Named(frags))
    && state.preStartArgs == (if state.started then "" else Args(frags))
    && StrandOf(s, t) == Assembled(json, frags)
    && (!state.started ==> state.toolId == LastId(frags))
    && (state.started ==> BlockStart(state.blockIndex, FirstBlock(frags)) in es)
  }

  lemma MoreShown(es: seq<Event>, more: seq<Event>, i: int, name: string)
    requires StartedAs(es, i, name) || StartedAs(more, i, name)
    ensures StartedAs(es + more, i, name)
  {
    var id :| BlockStart(i, ToolUseBlock(id, name, "{}")) in es || BlockStart(i, ToolUseBlock(id, name, "{}")) in more;
    assert BlockStart(i, ToolUseBlock(id, name, "{}")) in es + more;
  }

  /** The turn does to tool `t` what taking the arguments does. */
  ghost predicate Takes(json: Json, s: Session, t: int, args: string, turn: Turn)
    requires t in s.b.tools.at
  {
    var state, state' := s.b.tools.at[t], ToolAt(turn.s.b, t);
    && StrandOf(turn.s, t) == Take(json, StrandOf(s, t), state.name, args)
    && turn.raised == Raises(json, StrandOf(s, t), state.name, args)
    && t in turn.s.b.tools.at
    && state' == state.(contents := state'.contents, taskArgBuffer := state'.taskArgBuffer, taskArgsEmitted := state'.taskArgsEmitted)
  }

  lemma EmitTaskArgTakes(json: Json, s: Session, t: int, args: string)
    requires t in s.b.tools.at && args != "" && s.b.tools.at[t].name == "Task"
    ensures Takes(json, s, t, args, EmitTaskArg(json, s, t, args))
  {
  }

  lemma EmitAliasedArgTakes(json: Json, s: Session, t: int, args: string)
    requires t in s.b.tools.at && args != "" && s.b.tools.at[t].name != "Task" && json.aliased(s.b.tools.at[t].name)
    ensures Takes(json, s, t, args, EmitAliasedArg(json, s, t, args))
  {
  }

  lemma EmitArgTakes(json: Json, s: Session, t: int, args: string)
    requires t in s.b.tools.at
    ensures Takes(json, s, t, args, EmitArg(json, s, t, args))
  {
    if args == "" {
    } else if s.b.tools.at[t].name == "Task" {
      EmitTaskArgTakes(json, s, t, args);
    } else if json.aliased(s.b.tools.at[t].name) {
      EmitAliasedArgTakes(json, s, t, args);
    }
  }

  lemma FragmentSnoc(frags: seq<Fragment>, f: Fragment)
    ensures Named(frags + [f]) == if f.name.Some? then MergeName(Named(frags), f.name.value) else Named(frags)
    ensures LastId(frags + [f]) == if f.id.Some? && f.id.value != "" then f.id.value else LastId(frags)
  {
    assert (frags + [f])[..|frags|] == frags;
  }

  lemma NoteNames(s: Session, frags: seq<Fragment>, tc: ToolCall, t: int)
    requires tc.ToolCall? && ToolAt(s.b, t).name == Named(frags)
    ensures var state, noted := ToolAt(s.b, t), ToolAt(Note(s.b, t, tc), t);
            && noted.name == Named(frags + [Said(tc)])
            && (state.toolId == LastId(frags) ==> noted.toolId == LastId(frags + [Said(tc)]))
            && noted.(toolId := state.toolId, name := state.name) == state
            && StrandOf(s.(b := Note(s.b, t, tc)), t) == StrandOf(s, t)
  {
    FragmentSnoc(frags, Said(tc));
  }

  lemma BeginTakes(json: Json, s: Session, t: int, freshId: string)
    requires t in s.b.tools.at
    ensures var turn := Begin(json, s, t, freshId);
            var state, state' := s.b.tools.at[t], ToolAt(turn.s.b, t);
            && StrandOf(turn.s, t) == Take(json, StrandOf(s, t), state.name, state.preStartArgs)
            && turn.raised == Raises(json, StrandOf(s, t), state.name, state.preStartArgs)
            && state'.started && state'.name == state.name && state'.preStartArgs == ""
            && Live(turn.s.b, t)
            && BlockStart(state'.blockIndex,
                          ToolUseBlock(if state.toolId != "" then state.toolId else freshId, Text.Strip(state.name), "{}"))
               in turn.events
  {
    var state := s.b.tools.at[t];
    var id := if state.toolId != "" then state.toolId else freshId;
    var out := StartTool(SetTool(s.b, t, state.(preStartArgs := "")), t, id, Text.Strip(state.name));
    var s1 := s.(b := out.b);
    EmitArgTakes(json, s1, t, state.preStartArgs);
    assert StrandOf(s1, t) == StrandOf(s, t);
    assert BlockStart(s.b.nextIndex, ToolUseBlock(id, Text.Strip(state.name), "{}")) in out.events;
  }

  lemma TakeArgumentsTakes(json: Json, s: Session, t: int, args: string)
    ensures var turn := TakeArguments(json, s, t, args);
            var state, state' := ToolAt(s.b, t), ToolAt(turn.s.b, t);
            if Live(s.b, t) then
              && StrandOf(turn.s, t) == Take(json, StrandOf(s, t), state.name, args)
              && turn.raised == Raises(json, StrandOf(s, t), state.name, args)
              && state'.started && state'.name == state.name && state'.preStartArgs == state.preStartArgs
              && state'.blockIndex == state.blockIndex
            else
              StrandOf(turn.s, t) == StrandOf(s, t) && state' == state.(preStartArgs := state.preStartArgs + args) && !turn.raised
  {
    if Live(s.b, t) {
      EmitArgTakes(json, s, t, args);
      assert Take(json, StrandOf(s, t), s.b.tools.at[t].name, "") == StrandOf(s, t);
    } else {
      assert ToolAt(s.b, t).preStartArgs + "" == ToolAt(s.b, t).preStartArgs;
    }
  }

  /** A delta for tool `t`. */
  lemma OwnCallFollows(json: Json, s: Session, es: seq<Event>, frags: seq<Fragment>, tc: ToolCall, t: int)
    requires Follows(json, s, es, frags, t) && tc.ToolCall? && ResolveIndex(s.b, tc) == t
    ensures var turn := ProcessToolCall(json, s, tc);
            Follows(json, turn.s, es + turn.events, frags + [Said(tc)], t)
  {
    var more := frags + [Said(tc)];
    var noted := s.(b := Note(s.b, t, tc));
    var turn := ProcessToolCall(json, s, tc);
    assert more[..|more| - 1] == frags;
    NoteNames(s, frags, tc, t);
    NamedGrows(more, |frags|);
    if !Live(noted.b, t) && HasInk(Named(more)) {
      assert t in noted.b.tools.at;
      var begun := Begin(json, noted, t, tc.freshId);
      BeginTakes(json, noted, t, tc.freshId);
      TakeArgumentsTakes(json, begun.s, t, tc.arguments);
      if !begun.raised {
        var rest := TakeArguments(json, begun.s, t, tc.arguments);
        ConcatAssoc(es, begun.events, rest.events);
      }
    } else {
      TakeArgumentsTakes(json, noted, t, tc.arguments);
    }
  }

  /** A delta for another tool, or one that cannot be read. */
  lemma OtherCallFollows(json: Json, s: Session, es: seq<Event>, frags: seq<Fragment>, tc: ToolCall, t: int)
    requires Follows(json, s, es, frags, t) && (tc.ToolCall? ==> ResolveIndex(s.b, tc) != t)
    ensures var turn := ProcessToolCall(json, s, tc); Follows(json, turn.s, es + turn.events, frags, t)
  {
    CallTouchesOnly(json, s, tc, t);
  }

  /** The fragments addressed to tool `t`, in order, up to an exception. */
  function Addressed(json: Json, s: Session, calls: seq<ToolCall>, t: int): seq<Fragment>
    decreases |calls|
  {
    if calls == [] || calls[0].MissingFunction? then []
    else
      var first := ProcessToolCall(json, s, calls[0]);
      (if ResolveIndex(s.b, calls[0]) == t then [Said(calls[0])] else [])
      + (if first.raised then [] else Addressed(json, first.s, calls[1..], t))
  }

  lemma CallFollows(json: Json, s: Session, es: seq<Event>, frags: seq<Fragment>, tc: ToolCall, t: int)
    requires Follows(json, s, es, frags, t)
    ensures var turn := ProcessToolCall(json, s, tc);
            var own := if tc.ToolCall? && ResolveIndex(s.b, tc) == t then [Said(tc)] else [];
            Follows(json, turn.s, es + turn.events, frags + own, t)
  {
    if tc.ToolCall? && ResolveIndex(s.b, tc) == t {
      OwnCallFollows(json, s, es, frags, tc, t);
    } else {
      OtherCallFollows(json, s, es, frags, tc, t);
      ConcatEmpty(frags);
    }
  }

  /** Tools do not disturb each other: whatever calls are interleaved, and even if one raises, a tool is
      called what its own fragments say, shown under the name it first had, and sent and held back of its
      arguments what its own fragments make of them. */
  lemma {:induction false} CallsFollow(json: Json, s: Session, es: seq<Event>, frags: seq<Fragment>, calls: seq<ToolCall>, t: int)
    requires Follows(json, s, es, frags, t)
    ensures var turn := ProcessToolCalls(json, s, calls);
            Follows(json, turn.s, es + turn.events, frags + Addressed(json, s, calls, t), t)
    decreases |calls|
  {
    if calls == [] {
      ConcatEmpty(es);
      ConcatEmpty(frags);
    } else {
      var first := ProcessToolCall(json, s, calls[0]);
      var own := if calls[0].ToolCall? && ResolveIndex(s.b, calls[0]) == t
                 then [Said(calls[0])] else [];
      CallFollows(json, s, es, frags, calls[0], t);
      ConcatEmpty(own);
      if !first.raised {
        CallsFollow(json, first.s, es + first.events, frags + own, calls[1..], t);
        ConcatAssoc(es, first.events, ProcessToolCalls(json, first.s, calls[1..]).events);
        ConcatAssoc(frags, own, Addressed(json, first.s, calls[1..], t));
      }
    }
  }

  /** A call raises only over Task arguments that are no object. */
  lemma CallRaises(json: Json, s: Session, tc: ToolCall)
    requires tc.ToolCall? && ProcessToolCall(json, s, tc).raised
    ensures json.parse(StrandOf(ProcessToolCall(json, s, tc).s, ResolveIndex(s.b, tc)).taskBuffer).NotObject?
  {
    var t := ResolveIndex(s.b, tc);
    var noted := s.(b := Note(s.b, t, tc));
    if !Live(noted.b, t) && HasInk(ToolAt(noted.b, t).name) {
      BeginTakes(json, noted, t, tc.freshId);
      TakeArgumentsTakes(json, Begin(json, noted, t, tc.freshId).s, t, tc.arguments);
    } else {
      TakeArgumentsTakes(json, noted, t, tc.arguments);
    }
  }

  lemma NewFollows(json: Json, t: int)
    ensures Follows(json, NewSession, [], [], t)
  {
  }

  // ----- what the fragments make of the arguments -----

  /** A tool that, once it has a name, is never a Task nor aliased. */
  ghost predicate Plain(json: Json, frags: seq<Fragment>) {
    forall k :: 0 <= k <= |frags| && HasInk(Named(frags[..k])) ==> PlainName(json, Named(frags[..k]))
  }

  /** Its arguments are passed on: none is lost, changed or moved. */
  lemma {:induction false} PlainIsPassedOn(json: Json, frags: seq<Fragment>)
    requires Plain(json, frags)
    ensures HasInk(Named(frags)) ==> Assembled(json, frags) == NewStrand.(shown := Args(frags))
    decreases |frags|
  {
    if frags != [] {
      var init := frags[..|frags| - 1];
      forall k | 0 <= k <= |init| ensures init[..k] == frags[..k] {
      }
      assert frags[..|frags|] == frags;
      PlainIsPassedOn(json, init);
      assert "" + Args(init) == Args(init);
      if HasInk(Named(frags)) {
        assert PlainName(json, Named(frags));
      }
    }
  }

  /** A tool that, once it has a name, goes by aliased names, of which none is Task. */
  ghost predicate Aliased(json: Json, frags: seq<Fragment>) {
    forall k :: 0 <= k <= |frags| && HasInk(Named(frags[..k])) ==> Named(frags[..k]) != "Task" && json.aliased(Named(frags[..k]))
  }

  /** Its arguments do not parse before the last fragment is there. */
  ghost predicate ParsesLast(json: Json, frags: seq<Fragment>) {
    forall k :: 0 <= k < |frags| ==> json.parse(Args(frags[..k])).NotJson?
  }

  /** Aliased arguments are held back until they parse, and then sent once, whole, with the aliases undone. */
  lemma {:induction false} AliasedIsRestored(json: Json, frags: seq<Fragment>)
    requires Aliased(json, frags) && ParsesLast(json, frags) && HasInk(Named(frags)) && json.parse("").NotJson?
    ensures var x, args := Assembled(json, frags), Args(frags);
            match json.parse(args)
            case NotJson => x == NewStrand.(aliasBuffer := args)
            case NotObject => x == NewStrand.(shown := args)
            case Object => x == NewStrand.(shown := json.restore(Named(frags), args))
    decreases |frags|
  {
    var n := |frags| - 1;
    var init, last := frags[..n], frags[n];
    assert forall k :: 0 <= k <= n ==> init[..k] == frags[..k];
    assert frags[..n + 1] == frags && init[..n] == init;
    assert json.parse(Args(init)).NotJson?;
    ConcatEmpty(Args(init));
    if HasInk(Named(init)) {
      AliasedIsRestored(json, init);
    }
    AliasedLast(json, Args(init), Named(frags), last.arguments);
  }

  lemma AliasedLast(json: Json, held: string, name: string, args: string)
    requires json.aliased(name) && name != "Task" && json.parse(held).NotJson?
    ensures Take(json, NewStrand, name, held) == NewStrand.(aliasBuffer := held)
    ensures var x := Take(json, NewStrand.(aliasBuffer := held), name, args);
            match json.parse(held + args)
            case NotJson => x == NewStrand.(aliasBuffer := held + args)
            case NotObject => x == NewStrand.(shown := held + args)
            case Object => x == NewStrand.(shown := json.restore(name, held + args))
  {
    ConcatEmpty(held);
    ConcatEmpty(held + args);
    if json.parse(held + args).Object? {
      ConcatEmpty(json.restore(name, held + args));
    }
  }
}
