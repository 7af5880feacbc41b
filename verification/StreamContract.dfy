/** The client-facing event stream and the contract it must meet
    (core/anthropic/stream_contracts.py). */
module StreamContract {
  import opened OrderedDict

  datatype ContentBlock =
    | TextBlock(text: string)
    | ThinkingBlock(thinking: string)
    | ToolUseBlock(id: string, name: string, input: string)
    | RedactedThinkingBlock
    | ServerToolBlock                        // server_tool_use and the two web tool results
    | OtherBlock(mentionsThinking: bool)     // any other type; does its name contain "thinking"?

  datatype Delta =
    | TextDelta(text: string)
    | ThinkingDelta(thinking: string)
    | SignatureDelta(signature: string)
    | InputJsonDelta(partialJson: string)
    | OtherDelta(mentionsThinking: bool)

  datatype StopReason = EndTurn | MaxTokens | ToolUse | OtherReason(reason: string)

  datatype Event =
    | MessageStart
    | BlockStart(index: int, block: ContentBlock)
    | BlockDelta(index: int, delta: Delta)
    | BlockStop(index: int)
    | MessageDelta(stopReason: Option<StopReason>)
    | MessageStop
    | ErrorEvent(message: string)
    | Malformed                              // a content_block_* event without an integer index or payload object
    | OtherEvent(name: string)

  /** What the checker stores for an open block: the deltas it may receive. */
  datatype Storage = TextStream | ThinkingStream | ToolStream | NoDeltas

  /** `str.isspace` for one character. */
  predicate IsSpace(c: char) {
    var n := c as int;
    || 9 <= n <= 13 || 28 <= n <= 32 || n == 133 || n == 160 || n == 0x1680 || 0x2000 <= n <= 0x200a
    || n == 0x2028 || n == 0x2029 || n == 0x202f || n == 0x205f || n == 0x3000
  }

  /** `str(text).strip()` is non-empty. */
  predicate HasInk(s: string) {
    exists i :: 0 <= i < |s| && !IsSpace(s[i])
  }

  predicate AllowedStart(block: ContentBlock) {
    !block.OtherBlock?
  }

  function StorageOf(block: ContentBlock): Storage {
    match block
    case TextBlock(text) => if HasInk(text) then NoDeltas else TextStream
    case ThinkingBlock(_) => ThinkingStream
    case ToolUseBlock(_, _, _) => ToolStream
    case _ => NoDeltas
  }

  predicate Accepts(storage: Storage, delta: Delta) {
    match storage
    case TextStream => delta.TextDelta?
    case ThinkingStream => delta.ThinkingDelta? || delta.SignatureDelta?
    case ToolStream => delta.InputJsonDelta?
    case NoDeltas => false
  }

  /** The checker's loop state. */
  datatype Check = Check(open: map<int, Storage>, seen: set<int>, ok: bool)

  const Fresh: Check := Check(map[], {}, true)

  function Step(c: Check, e: Event): Check {
    match e
    case BlockStart(index, block) =>
      Check(c.open[index := StorageOf(block)], c.seen + {index},
            c.ok && AllowedStart(block) && index !in c.open && index !in c.seen)
    case BlockDelta(index, delta) =>
      c.(ok := c.ok && index in c.open && Accepts(c.open[index], delta))
    case BlockStop(index) =>
      Check(c.open - {index}, c.seen, c.ok && index in c.open)
    case Malformed => c.(ok := false)
    case _ => c
  }

  function Run(c: Check, es: seq<Event>): Check {
    if es == [] then c else Step(Run(c, es[..|es| - 1]), es[|es| - 1])
  }

  lemma {:induction false} RunConcat(c: Check, a: seq<Event>, b: seq<Event>)
    ensures Run(c, a + b) == Run(Run(c, a), b)
  {
    if b == [] {
      assert a + b == a;
    } else {
      var n := |b| - 1;
      assert (a + b)[..|a + b| - 1] == a + b[..n];
      RunConcat(c, a, b[..n]);
    }
  }

  lemma RunOne(c: Check, e: Event)
    ensures Run(c, [e]) == Step(c, e)
  {
    assert [e][..0] == [];
    assert Run(c, [e][..0]) == c;
  }

  lemma RunSnoc(c: Check, a: seq<Event>, e: Event)
    ensures Run(c, a + [e]) == Step(Run(c, a), e)
  {
    RunConcat(c, a, [e]);
    RunOne(Run(c, a), e);
  }

  /** A failed assertion stays failed. */
  lemma {:induction false} OkPrefix(c: Check, a: seq<Event>, b: seq<Event>)
    requires Run(c, a + b).ok
    ensures Run(c, a).ok
  {
    if b == [] {
      assert a + b == a;
    } else {
      assert (a + b)[..|a + b| - 1] == a + b[..|b| - 1];
      OkPrefix(c, a, b[..|b| - 1]);
    }
  }

  lemma Doomed(es: seq<Event>, n: nat)
    requires n <= |es|
    ensures Run(Fresh, es).ok ==> Run(Fresh, es[..n]).ok
  {
    assert es == es[..n] + es[n..];
    if Run(Fresh, es).ok {
      OkPrefix(Fresh, es[..n], es[n..]);
    }
  }

  /** A message_start first and nowhere else, a message_stop last and nowhere else. */
  predicate Framed(out: seq<Event>) {
    && |out| >= 2 && out[0] == MessageStart && out[|out| - 1] == MessageStop
    && (forall i :: 0 < i < |out| ==> out[i] != MessageStart)
    && (forall i :: 0 <= i < |out| - 1 ==> out[i] != MessageStop)
  }

  // ----- the contract, stated by positions in the stream -----

  predicate StartsAt(es: seq<Event>, p: int, index: int) {
    0 <= p < |es| && es[p].BlockStart? && es[p].index == index
  }

  predicate StopsAt(es: seq<Event>, p: int, index: int) {
    0 <= p < |es| && es[p].BlockStop? && es[p].index == index
  }

  /** The block `index`, started at `p`, has not been stopped before position `q`. */
  predicate LiveFrom(es: seq<Event>, p: int, q: int, index: int) {
    p < q && StartsAt(es, p, index) && forall r :: p < r < q ==> !StopsAt(es, r, index)
  }

  /** Block `index` is open just before position `q`. */
  ghost predicate OpenBefore(es: seq<Event>, q: int, index: int) {
    exists p :: LiveFrom(es, p, q, index)
  }

  /** Every block starts once, with an allowed type, and takes deltas of its own type and its stop
      only while open. */
  ghost predicate BlockDiscipline(es: seq<Event>) {
    && (forall q :: 0 <= q < |es| ==> !es[q].Malformed?)
    && (forall q :: 0 <= q < |es| && es[q].BlockStart? ==> AllowedStart(es[q].block))
    && (forall p, q :: 0 <= p < q < |es| && es[p].BlockStart? && es[q].BlockStart? ==> es[p].index != es[q].index)
    && (forall q :: 0 <= q < |es| && es[q].BlockDelta? ==>
          exists p :: LiveFrom(es, p, q, es[q].index) && Accepts(StorageOf(es[p].block), es[q].delta))
    && (forall q :: 0 <= q < |es| && es[q].BlockStop? ==> OpenBefore(es, q, es[q].index))
  }

  /** `assert_anthropic_stream_contract(events, allow_error=...)` accepts. */
  ghost predicate Contract(es: seq<Event>, allowError: bool) {
    && es != []
    && MessageStart in es
    && es[|es| - 1] == MessageStop
    && (!allowError ==> forall q :: 0 <= q < |es| ==> !es[q].ErrorEvent?)
    && BlockDiscipline(es)
    && (forall index :: !OpenBefore(es, |es|, index))
    && (exists q :: 0 <= q < |es| && es[q].BlockStart?)
  }

  // ----- the checker's loop decides exactly that -----

  /** The loop state describes the events read so far. */
  ghost predicate Describes(c: Check, es: seq<Event>) {
    && (forall i :: i in c.seen <==> exists p :: StartsAt(es, p, i))
    && (c.ok <==> BlockDiscipline(es))
    && (c.ok ==>
          && (forall i :: i in c.open <==> OpenBefore(es, |es|, i))
          && (forall p, i :: LiveFrom(es, p, |es|, i) ==> i in c.open && c.open[i] == StorageOf(es[p].block)))
  }

  lemma LiveSnoc(es: seq<Event>, e: Event, p: int, q: int, i: int)
    requires q <= |es|
    ensures LiveFrom(es + [e], p, q, i) <==> LiveFrom(es, p, q, i)
  {
    assert forall r :: 0 <= r < |es| ==> (es + [e])[r] == es[r];
    if LiveFrom(es + [e], p, q, i) {
      assert forall r :: p < r < q ==> !StopsAt(es + [e], r, i);
      assert forall r :: p < r < q && StopsAt(es, r, i) ==> StopsAt(es + [e], r, i);
    }
    if LiveFrom(es, p, q, i) {
      assert forall r :: p < r < q && StopsAt(es + [e], r, i) ==> StopsAt(es, r, i);
    }
  }

  lemma LiveExtends(es: seq<Event>, e: Event, p: int, i: int)
    ensures LiveFrom(es + [e], p, |es| + 1, i) <==>
            (LiveFrom(es, p, |es|, i) && !(e.BlockStop? && e.index == i)) ||
            (p == |es| && e.BlockStart? && e.index == i)
  {
    var t := es + [e];
    assert t[|es|] == e;
    assert forall r :: 0 <= r < |es| ==> t[r] == es[r];
    if LiveFrom(t, p, |es| + 1, i) && p < |es| {
      assert !StopsAt(t, |es|, i);
      assert forall r :: p < r < |es| && StopsAt(es, r, i) ==> StopsAt(t, r, i);
    }
    if LiveFrom(es, p, |es|, i) && !(e.BlockStop? && e.index == i) {
      assert forall r :: p < r < |es| + 1 && StopsAt(t, r, i) ==> r < |es| && StopsAt(es, r, i);
    }
  }

  lemma OpenExtends(es: seq<Event>, e: Event, i: int)
    ensures OpenBefore(es + [e], |es| + 1, i) <==>
            (OpenBefore(es, |es|, i) && !(e.BlockStop? && e.index == i)) || (e.BlockStart? && e.index == i)
  {
    if OpenBefore(es + [e], |es| + 1, i) {
      var p :| LiveFrom(es + [e], p, |es| + 1, i);
      LiveExtends(es, e, p, i);
    }
    if OpenBefore(es, |es|, i) && !(e.BlockStop? && e.index == i) {
      var p :| LiveFrom(es, p, |es|, i);
      LiveExtends(es, e, p, i);
    }
    if e.BlockStart? && e.index == i {
      LiveExtends(es, e, |es|, i);
    }
  }

  /** Event `e` may follow `es`. */
  ghost predicate Fits(es: seq<Event>, e: Event) {
    && !e.Malformed?
    && (e.BlockStart? ==> AllowedStart(e.block) && !exists p :: StartsAt(es, p, e.index))
    && (e.BlockDelta? ==> exists p :: LiveFrom(es, p, |es|, e.index) && Accepts(StorageOf(es[p].block), e.delta))
    && (e.BlockStop? ==> OpenBefore(es, |es|, e.index))
  }

  lemma DisciplineExtends(es: seq<Event>, e: Event)
    ensures BlockDiscipline(es + [e]) <==> BlockDiscipline(es) && Fits(es, e)
  {
    var t := es + [e];
    var n := |es|;
    assert t[n] == e;
    assert forall r :: 0 <= r < n ==> t[r] == es[r];
    forall p, q, i | q <= n ensures LiveFrom(t, p, q, i) <==> LiveFrom(es, p, q, i) {
      LiveSnoc(es, e, p, q, i);
    }
    if BlockDiscipline(t) {
      DisciplineShrinks(es, e);
      if e.BlockStart? {
        assert forall p :: 0 <= p < n && t[p].BlockStart? ==> t[p].index != t[n].index;
      }
      if e.BlockDelta? {
        var p :| LiveFrom(t, p, n, t[n].index) && Accepts(StorageOf(t[p].block), t[n].delta);
        assert LiveFrom(es, p, n, e.index);
      }
      if e.BlockStop? {
        var p :| LiveFrom(t, p, n, t[n].index);
        assert LiveFrom(es, p, n, e.index);
      }
    } else if BlockDiscipline(es) && Fits(es, e) {
      DisciplineGrows(es, e);
    }
  }

  lemma DisciplineShrinks(es: seq<Event>, e: Event)
    requires BlockDiscipline(es + [e])
    ensures BlockDiscipline(es)
  {
    var t := es + [e];
    assert forall r :: 0 <= r < |es| ==> t[r] == es[r];
    forall q | 0 <= q < |es| && es[q].BlockDelta?
      ensures exists p :: LiveFrom(es, p, q, es[q].index) && Accepts(StorageOf(es[p].block), es[q].delta)
    {
      var p :| LiveFrom(t, p, q, t[q].index) && Accepts(StorageOf(t[p].block), t[q].delta);
      LiveSnoc(es, e, p, q, es[q].index);
    }
    forall q | 0 <= q < |es| && es[q].BlockStop? ensures OpenBefore(es, q, es[q].index) {
      assert OpenBefore(t, q, t[q].index);
      var p :| LiveFrom(t, p, q, t[q].index);
      LiveSnoc(es, e, p, q, es[q].index);
    }
  }

  lemma DisciplineGrows(es: seq<Event>, e: Event)
    requires BlockDiscipline(es)
    requires Fits(es, e)
    ensures BlockDiscipline(es + [e])
  {
    var t := es + [e];
    var n := |es|;
    assert t[n] == e;
    assert forall r :: 0 <= r < n ==> t[r] == es[r];
    forall q | 0 <= q < |t| && t[q].BlockDelta?
      ensures exists p :: LiveFrom(t, p, q, t[q].index) && Accepts(StorageOf(t[p].block), t[q].delta)
    {
      var p :| LiveFrom(es, p, q, t[q].index) && Accepts(StorageOf(es[p].block), t[q].delta);
      LiveSnoc(es, e, p, q, t[q].index);
    }
    forall q | 0 <= q < |t| && t[q].BlockStop? ensures OpenBefore(t, q, t[q].index) {
      assert OpenBefore(es, q, t[q].index);
      var p :| LiveFrom(es, p, q, t[q].index);
      LiveSnoc(es, e, p, q, t[q].index);
    }
    forall p, q | 0 <= p < q < |t| && t[p].BlockStart? && t[q].BlockStart? ensures t[p].index != t[q].index {
      assert StartsAt(es, p, t[p].index);
    }
  }

  lemma StartsExtend(es: seq<Event>, e: Event, i: int)
    ensures (exists p :: StartsAt(es + [e], p, i)) <==> (exists p :: StartsAt(es, p, i)) || (e.BlockStart? && e.index == i)
  {
    var t := es + [e];
    if exists p :: StartsAt(t, p, i) {
      var p :| StartsAt(t, p, i);
      assert StartsAt(es, p, i) || (e.BlockStart? && e.index == i);
    }
    if exists p :: StartsAt(es, p, i) {
      var p :| StartsAt(es, p, i);
      assert StartsAt(t, p, i);
    }
    if e.BlockStart? && e.index == i {
      assert StartsAt(t, |es|, i);
    }
  }

  lemma StepDescribes(c: Check, es: seq<Event>, e: Event)
    requires Describes(c, es)
    ensures Describes(Step(c, e), es + [e])
  {
    var t := es + [e];
    var d := Step(c, e);
    assert t[|es|] == e;
    assert forall r :: 0 <= r < |es| ==> t[r] == es[r];
    DisciplineExtends(es, e);
    forall i ensures i in d.seen <==> exists p :: StartsAt(t, p, i) {
      StartsExtend(es, e, i);
    }
    if c.ok && e.BlockStart? && OpenBefore(es, |es|, e.index) {
      var p :| LiveFrom(es, p, |es|, e.index);
      assert StartsAt(es, p, e.index);
    }
    if c.ok && e.BlockDelta? && e.index in c.open {
      assert OpenBefore(es, |es|, e.index);
      var p :| LiveFrom(es, p, |es|, e.index);
    }
    if d.ok {
      assert c.ok;
      forall i ensures i in d.open <==> OpenBefore(t, |t|, i) {
        OpenExtends(es, e, i);
      }
      forall p, i | LiveFrom(t, p, |t|, i) ensures i in d.open && d.open[i] == StorageOf(t[p].block) {
        LiveExtends(es, e, p, i);
        if p < |es| {
          assert LiveFrom(es, p, |es|, i);
          assert StartsAt(es, p, i);
        }
      }
    }
  }

  lemma {:induction false} RunDescribes(es: seq<Event>)
    ensures Describes(Run(Fresh, es), es)
  {
    if es == [] {
      assert forall q, i :: !LiveFrom(es, q, 0, i);
    } else {
      var n := |es| - 1;
      RunDescribes(es[..n]);
      StepDescribes(Run(Fresh, es[..n]), es[..n], es[n]);
      assert es[..n] + [es[n]] == es;
    }
  }

  lemma SomeMember(s: set<int>)
    ensures s != {} <==> exists i :: i in s
  {
    if forall i :: i !in s {
      assert s == {};
    }
  }

  lemma NothingLive(c: Check, es: seq<Event>)
    requires c.ok && Describes(c, es)
    ensures c.open == map[] <==> forall i :: !OpenBefore(es, |es|, i)
  {
    SomeMember(c.open.Keys);
  }

  lemma SomethingSeen(c: Check, es: seq<Event>)
    requires Describes(c, es)
    ensures c.seen != {} <==> exists q :: 0 <= q < |es| && es[q].BlockStart?
  {
    SomeMember(c.seen);
    if i :| i in c.seen {
      var p :| StartsAt(es, p, i);
      assert es[p].BlockStart?;
    }
    if q :| 0 <= q < |es| && es[q].BlockStart? {
      assert StartsAt(es, q, es[q].index);
      assert es[q].index in c.seen;
    }
  }

  /** The contract in terms of the loop's final state. */
  lemma ContractByRun(es: seq<Event>, allowError: bool)
    ensures Contract(es, allowError) <==>
            && es != [] && MessageStart in es && es[|es| - 1] == MessageStop
            && (!allowError ==> forall q :: 0 <= q < |es| ==> !es[q].ErrorEvent?)
            && Run(Fresh, es).ok && Run(Fresh, es).open == map[] && Run(Fresh, es).seen != {}
  {
    RunDescribes(es);
    SomethingSeen(Run(Fresh, es), es);
    if Run(Fresh, es).ok {
      NothingLive(Run(Fresh, es), es);
    }
  }

  /** `assert_anthropic_stream_contract`: one pass over the events. */
  method AssertStreamContract(events: seq<Event>, allowError: bool) returns (accepted: bool)
    ensures accepted <==> Contract(events, allowError)
  {
    ContractByRun(events, allowError);
    if events == [] || MessageStart !in events || events[|events| - 1] != MessageStop {
      return false;
    }
    var openBlocks: map<int, Storage> := map[];
    var seenBlocks: set<int> := {};
    for n := 0 to |events|
      invariant Run(Fresh, events[..n]) == Check(openBlocks, seenBlocks, true)
      invariant !allowError ==> forall q :: 0 <= q < n ==> !events[q].ErrorEvent?
    {
      var e := events[n];
      assert events[..n + 1] == events[..n] + [e];
      RunSnoc(Fresh, events[..n], e);
      Doomed(events, n + 1);
      if e.ErrorEvent? && !allowError {
        return false;
      }
      match e
      case Malformed =>
        return false;
      case BlockStart(index, block) =>
        if !AllowedStart(block) || index in openBlocks || index in seenBlocks {
          return false;
        }
        openBlocks := openBlocks[index := StorageOf(block)];
        seenBlocks := seenBlocks + {index};
      case BlockDelta(index, delta) =>
        if index !in openBlocks || !Accepts(openBlocks[index], delta) {
          return false;
        }
      case BlockStop(index) =>
        if index !in openBlocks {
          return false;
        }
        openBlocks := openBlocks - {index};
      case _ =>
    }
    assert events[..|events|] == events;
    return openBlocks == map[] && seenBlocks != {};
  }
}
