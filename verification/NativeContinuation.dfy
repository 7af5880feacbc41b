/** Where the continuation of a cut native stream appears in what the client reads
    (core/anthropic/emitted_sse_tracker.py, `append_text_suffix` and `append_thinking_suffix`). */
module NativeContinuation {
  import opened BlockState
  import opened EmittedTracker
  import opened JsonTexts
  import opened NativeContent
  import opened NativeRecovery
  import opened OrderedDict
  import opened StreamContract
  import opened StreamRecovery

  // ----- what the client reads -----

  /** What an event shows in block `i` of a kind. */
  function KindText(e: Event, i: int, kind: BlockKind): string {
    match e
    case BlockStart(j, TextBlock(text)) => if kind.TextKind? && i == j then text else ""
    case BlockStart(j, ThinkingBlock(thinking)) => if kind.ThinkingKind? && i == j then thinking else ""
    case BlockDelta(j, TextDelta(text)) => if kind.TextKind? && i == j then text else ""
    case BlockDelta(j, ThinkingDelta(thinking)) => if kind.ThinkingKind? && i == j then thinking else ""
    case _ => ""
  }

  function BlockText(es: seq<Event>, i: int, kind: BlockKind): string {
    if es == [] then "" else BlockText(es[..|es| - 1], i, kind) + KindText(es[|es| - 1], i, kind)
  }

  function JoinBlocks(es: seq<Event>, order: seq<int>, kind: BlockKind): string
    decreases |order|
  {
    if order == [] then "" else BlockText(es, order[0], kind) + JoinBlocks(es, order[1..], kind)
  }

  /** The text, or the thinking, of a message: its blocks one after another, as they were started. */
  function ClientText(es: seq<Event>, kind: BlockKind): string {
    JoinBlocks(es, StartIndices(es), kind)
  }

  lemma BlockTextSnoc(es: seq<Event>, e: Event, i: int, kind: BlockKind)
    ensures BlockText(es + [e], i, kind) == BlockText(es, i, kind) + KindText(e, i, kind)
  {
    assert (es + [e])[..|es|] == es;
  }

  lemma StartsSnoc(es: seq<Event>, e: Event)
    ensures StartIndices(es + [e]) == if e.BlockStart? then StartIndices(es) + [e.index] else StartIndices(es)
  {
    assert (es + [e])[..|es|] == es;
    assert StartIndices(es) + [] == StartIndices(es);
  }

  lemma {:induction false} JoinSame(a: seq<Event>, b: seq<Event>, order: seq<int>, kind: BlockKind)
    requires forall i :: i in order ==> BlockText(a, i, kind) == BlockText(b, i, kind)
    ensures JoinBlocks(a, order, kind) == JoinBlocks(b, order, kind)
    decreases |order|
  {
    if order != [] {
      assert order[0] in order && forall i :: i in order[1..] ==> i in order;
      JoinSame(a, b, order[1..], kind);
    }
  }

  lemma {:induction false} JoinConcat(es: seq<Event>, a: seq<int>, b: seq<int>, kind: BlockKind)
    ensures JoinBlocks(es, a + b, kind) == JoinBlocks(es, a, kind) + JoinBlocks(es, b, kind)
    decreases |a|
  {
    if a == [] {
      assert a + b == b;
    } else {
      assert (a + b)[1..] == a[1..] + b;
      JoinConcat(es, a[1..], b, kind);
    }
  }

  lemma JoinOne(es: seq<Event>, i: int, kind: BlockKind)
    ensures JoinBlocks(es, [i], kind) == BlockText(es, i, kind)
  {
    assert [i][1..] == [];
    assert JoinBlocks(es, [], kind) == "";
  }

  /** Events that show nothing of a kind and start no block leave the client's text alone. */
  lemma ShowsNone(es: seq<Event>, e: Event, kind: BlockKind)
    requires !e.BlockStart? && forall i :: KindText(e, i, kind) == ""
    ensures ClientText(es + [e], kind) == ClientText(es, kind)
  {
    StartsSnoc(es, e);
    forall i ensures BlockText(es + [e], i, kind) == BlockText(es, i, kind) {
      BlockTextSnoc(es, e, i, kind);
    }
    JoinSame(es + [e], es, StartIndices(es), kind);
  }

  lemma {:induction false} ShowNone(es: seq<Event>, more: seq<Event>, kind: BlockKind)
    requires forall k :: 0 <= k < |more| ==> !more[k].BlockStart? && !more[k].BlockDelta?
    ensures ClientText(es + more, kind) == ClientText(es, kind)
    decreases |more|
  {
    if more == [] {
      assert es + more == es;
    } else {
      var init, last := more[..|more| - 1], more[|more| - 1];
      ShowNone(es, init, kind);
      ShowsNone(es + init, last, kind);
      assert es + init + [last] == es + more;
    }
  }

  /** The members of a sequence after the first `i`. */
  function After(order: seq<int>, i: int): seq<int> {
    if order == [] then [] else if order[0] == i then order[1..] else After(order[1..], i)
  }

  function UpTo(order: seq<int>, i: int): seq<int> {
    if order == [] then [] else if order[0] == i then [i] else [order[0]] + UpTo(order[1..], i)
  }

  lemma {:induction false} SplitAt(order: seq<int>, i: int)
    requires i in order && Distinct(order)
    ensures var before := UpTo(order, i);
            before + After(order, i) == order && i !in After(order, i)
            && before != [] && before[|before| - 1] == i && i !in before[..|before| - 1]
    decreases |order|
  {
    assert order == [order[0]] + order[1..];
    if order[0] != i {
      assert Distinct(order[1..]);
      SplitAt(order[1..], i);
    } else {
      assert forall k :: 1 <= k < |order| ==> order[k] != i;
    }
  }

  lemma {:induction false} AfterGrows(order: seq<int>, i: int, x: int)
    requires i in order
    ensures After(order + [x], i) == After(order, i) + [x]
    decreases |order|
  {
    assert (order + [x])[1..] == order[1..] + [x];
    if order[0] != i {
      AfterGrows(order[1..], i, x);
    }
  }

  // ----- the tracker knows what the client reads -----

  function TrackedText(t: Tracker, i: int, kind: BlockKind): string {
    if i in t.blocks.at && t.blocks.at[i].kind == kind then t.blocks.at[i].content else ""
  }

  predicate Continuable(kind: BlockKind) {
    kind.TextKind? || kind.ThinkingKind?
  }

  lemma ObserveKeys(t: Tracker, c: Check, e: Event)
    requires Knows(t, c) && Step(c, e).ok
    ensures Observe(t, e).blocks.keys == if e.BlockStart? then t.blocks.keys + [e.index] else t.blocks.keys
  {
  }

  lemma ObserveDeltaText(t: Tracker, c: Check, index: int, delta: Delta, i: int, kind: BlockKind)
    requires Knows(t, c) && Step(c, BlockDelta(index, delta)).ok && Continuable(kind)
    ensures TrackedText(Observe(t, BlockDelta(index, delta)), i, kind) ==
            TrackedText(t, i, kind) + KindText(BlockDelta(index, delta), i, kind)
  {
    var b := t.blocks.at[index];
    assert KindFits(b.kind, c.open[index]);
    assert b.content + "" == b.content;
  }

  lemma ObserveText(t: Tracker, c: Check, e: Event, i: int, kind: BlockKind)
    requires Knows(t, c) && Step(c, e).ok && Continuable(kind)
    ensures TrackedText(Observe(t, e), i, kind) == TrackedText(t, i, kind) + KindText(e, i, kind)
  {
    var text := TrackedText(t, i, kind);
    assert text + "" == text;
    if e.BlockDelta? {
      ObserveDeltaText(t, c, e.index, e.delta, i, kind);
    } else if e.BlockStart? {
      assert e.index !in t.blocks.at;
      assert i == e.index ==> text == "";
    }
  }

  /** The tracked blocks are in the order they started. */
  lemma {:induction false} TrackShowsOrder(es: seq<Event>)
    requires Run(Fresh, es).ok
    ensures Track(es).blocks.keys == StartIndices(es) && Distinct(StartIndices(es))
    ensures forall i :: i in StartIndices(es) ==> i <= Track(es).maxIndex
    decreases |es|
  {
    TrackKnows(es);
    if es != [] {
      var init, last := es[..|es| - 1], es[|es| - 1];
      TrackShowsOrder(init);
      TrackKnows(init);
      ObserveKeys(Track(init), Run(Fresh, init), last);
      StartsSnoc(init, last);
      assert init + [last] == es;
    }
  }

  /** The tracked blocks hold what the client was shown. */
  lemma {:induction false} TrackShowsText(es: seq<Event>, i: int, kind: BlockKind)
    requires Run(Fresh, es).ok && Continuable(kind)
    ensures TrackedText(Track(es), i, kind) == BlockText(es, i, kind)
    decreases |es|
  {
    if es != [] {
      var init, last := es[..|es| - 1], es[|es| - 1];
      TrackShowsText(init, i, kind);
      TrackKnows(init);
      assert Step(Run(Fresh, init), last).ok;
      ObserveText(Track(init), Run(Fresh, init), last, i, kind);
    }
  }

  lemma {:induction false} EmittedIsJoined(es: seq<Event>, order: seq<int>, kind: BlockKind)
    requires Run(Fresh, es).ok && Continuable(kind)
    ensures EmittedOf(Track(es).blocks, order, kind) == JoinBlocks(es, order, kind)
    decreases |order|
  {
    if order != [] {
      TrackShowsText(es, order[0], kind);
      EmittedIsJoined(es, order[1..], kind);
    }
  }

  /** `emitted_text` and `emitted_thinking` are what the client reads. */
  lemma EmittedIsClientText(es: seq<Event>, kind: BlockKind)
    requires Run(Fresh, es).ok && Continuable(kind)
    ensures EmittedOf(Track(es).blocks, Track(es).blocks.keys, kind) == ClientText(es, kind)
  {
    TrackShowsOrder(es);
    EmittedIsJoined(es, StartIndices(es), kind);
  }

  // ----- where one suffix lands -----

  /** What the client reads after the block that a continuation of this kind would go to. */
  function LaterText(es: seq<Event>, kind: BlockKind): string {
    match LastOpen(Track(es).blocks, Track(es).stack, kind)
    case Some(i) => JoinBlocks(es, After(StartIndices(es), i), kind)
    case None => ""
  }

  predicate Ends(s: string, tail: string) {
    |tail| <= |s| && s[|s| - |tail|..] == tail
  }

  /** The text with a suffix put in before its last part. */
  function Inserted(text: string, later: string, suffix: string): string
    requires Ends(text, later)
  {
    text[..|text| - |later|] + suffix + later
  }

  lemma InsertedIn(before: string, later: string, suffix: string)
    ensures Ends(before + later, later) && Inserted(before + later, later, suffix) == before + suffix + later
  {
    assert (before + later)[|before|..] == later && (before + later)[..|before|] == before;
  }

  /** From `a` to `b`, only block `i` shows more. */
  ghost predicate GrowsAt(a: seq<Event>, b: seq<Event>, i: int, kind: BlockKind, suffix: string) {
    && BlockText(b, i, kind) == BlockText(a, i, kind) + suffix
    && forall k :: k != i ==> BlockText(b, k, kind) == BlockText(a, k, kind)
  }

  lemma JoinGrows(a: seq<Event>, b: seq<Event>, head: seq<int>, i: int, tail: seq<int>, kind: BlockKind, suffix: string)
    requires GrowsAt(a, b, i, kind, suffix) && i !in head && i !in tail
    ensures JoinBlocks(b, head + [i] + tail, kind) == JoinBlocks(a, head + [i], kind) + suffix + JoinBlocks(a, tail, kind)
  {
    JoinSame(a, b, head, kind);
    JoinSame(a, b, tail, kind);
    JoinConcat(b, head + [i], tail, kind);
    JoinConcat(b, head, [i], kind);
    JoinConcat(a, head, [i], kind);
    JoinOne(a, i, kind);
    JoinOne(b, i, kind);
    ConcatAssoc(JoinBlocks(a, head, kind), BlockText(a, i, kind), suffix);
  }

  lemma DeltaGrows(es: seq<Event>, i: int, kind: BlockKind, suffix: string)
    requires Continuable(kind)
    ensures GrowsAt(es, es + [BlockDelta(i, SuffixDelta(kind, suffix))], i, kind, suffix)
  {
    var e := BlockDelta(i, SuffixDelta(kind, suffix));
    forall k ensures BlockText(es + [e], k, kind) == BlockText(es, k, kind) + if k == i then suffix else "" {
      BlockTextSnoc(es, e, k, kind);
    }
  }

  lemma DeltaLands(es: seq<Event>, i: int, kind: BlockKind, suffix: string)
    requires Continuable(kind) && i in StartIndices(es) && Distinct(StartIndices(es))
    ensures var order := StartIndices(es);
            && ClientText(es, kind) == JoinBlocks(es, UpTo(order, i), kind) + JoinBlocks(es, After(order, i), kind)
            && ClientText(es + [BlockDelta(i, SuffixDelta(kind, suffix))], kind) ==
               JoinBlocks(es, UpTo(order, i), kind) + suffix + JoinBlocks(es, After(order, i), kind)
  {
    var order, e := StartIndices(es), BlockDelta(i, SuffixDelta(kind, suffix));
    var before, after := UpTo(order, i), After(order, i);
    var head := before[..|before| - 1];
    SplitAt(order, i);
    assert before == head + [i];
    StartsSnoc(es, e);
    DeltaGrows(es, i, kind, suffix);
    JoinConcat(es, before, after, kind);
    JoinGrows(es, es + [e], head, i, after, kind, suffix);
  }

  lemma SilentSnoc(es: seq<Event>, e: Event, i: int, kind: BlockKind)
    requires KindText(e, i, kind) == ""
    ensures BlockText(es + [e], i, kind) == BlockText(es, i, kind)
  {
    BlockTextSnoc(es, e, i, kind);
    ConcatEmpty(BlockText(es, i, kind));
  }

  lemma StartGrows(es: seq<Event>, i: int, kind: BlockKind)
    requires Continuable(kind)
    ensures forall k :: BlockText(es + [BlockStart(i, EmptyBlock(kind))], k, kind) == BlockText(es, k, kind)
  {
    var e := BlockStart(i, EmptyBlock(kind));
    forall k ensures BlockText(es + [e], k, kind) == BlockText(es, k, kind) {
      SilentSnoc(es, e, k, kind);
    }
  }

  lemma FreshLands(es: seq<Event>, i: int, kind: BlockKind, suffix: string)
    requires Continuable(kind) && i !in StartIndices(es) && BlockText(es, i, kind) == ""
    ensures ClientText(es + [BlockStart(i, EmptyBlock(kind)), BlockDelta(i, SuffixDelta(kind, suffix))], kind) ==
            ClientText(es, kind) + suffix
  {
    var start, delta := BlockStart(i, EmptyBlock(kind)), BlockDelta(i, SuffixDelta(kind, suffix));
    var one, all, order := es + [start], es + [start] + [delta], StartIndices(es);
    assert es + [start, delta] == all;
    StartsSnoc(es, start);
    StartsSnoc(one, delta);
    StartGrows(es, i, kind);
    DeltaGrows(one, i, kind, suffix);
    JoinConcat(all, order, [i], kind);
    JoinSame(all, es, order, kind);
    JoinOne(all, i, kind);
    assert "" + suffix == suffix;
  }

  lemma LandsInOpen(es: seq<Event>, i: int, kind: BlockKind, suffix: string)
    requires Run(Fresh, es).ok && Continuable(kind) && LastOpen(Track(es).blocks, Track(es).stack, kind) == Some(i)
    ensures Ends(ClientText(es, kind), LaterText(es, kind))
    ensures ClientText(es + [BlockDelta(i, SuffixDelta(kind, suffix))], kind) ==
            Inserted(ClientText(es, kind), LaterText(es, kind), suffix)
  {
    TrackKnows(es);
    TrackShowsOrder(es);
    DeltaLands(es, i, kind, suffix);
    InsertedIn(JoinBlocks(es, UpTo(StartIndices(es), i), kind), LaterText(es, kind), suffix);
  }

  lemma FreshIsSilent(es: seq<Event>, kind: BlockKind)
    requires Run(Fresh, es).ok && Continuable(kind)
    ensures BlockText(es, Track(es).maxIndex + 1, kind) == ""
  {
    TrackKnows(es);
    TrackShowsText(es, Track(es).maxIndex + 1, kind);
  }

  lemma LandsInFresh(es: seq<Event>, kind: BlockKind, suffix: string)
    requires Run(Fresh, es).ok && Continuable(kind) && LastOpen(Track(es).blocks, Track(es).stack, kind) == None
    ensures var i := Track(es).maxIndex + 1;
            ClientText(es + [BlockStart(i, EmptyBlock(kind)), BlockDelta(i, SuffixDelta(kind, suffix))], kind) ==
            ClientText(es, kind) + suffix
  {
    TrackShowsOrder(es);
    FreshIsSilent(es, kind);
    FreshLands(es, Track(es).maxIndex + 1, kind, suffix);
  }

  /** The suffix goes right after what its block showed: before the text of the blocks of its kind that
      were started after that block, and at the very end when a new block is started for it. */
  lemma SuffixLands(es: seq<Event>, kind: BlockKind, suffix: string)
    requires Run(Fresh, es).ok && Continuable(kind)
    ensures Ends(ClientText(es, kind), LaterText(es, kind))
    ensures ClientText(es + AppendSuffix(Track(es), kind, suffix).events, kind) ==
            Inserted(ClientText(es, kind), LaterText(es, kind), suffix)
  {
    var text, later := ClientText(es, kind), LaterText(es, kind);
    var last := LastOpen(Track(es).blocks, Track(es).stack, kind);
    if last.Some? {
      LandsInOpen(es, last.value, kind, suffix);
    } else {
      AppendedLands(text, suffix);
    }
    if suffix == "" {
      NothingInserted(es, text, later);
    } else if last.None? {
      LandsInFresh(es, kind, suffix);
    }
  }

  lemma NothingInserted(es: seq<Event>, text: string, later: string)
    requires Ends(text, later)
    ensures es + [] == es && Inserted(text, later, "") == text
  {
  }

  lemma AppendedLands(text: string, suffix: string)
    ensures Ends(text, "") && Inserted(text, "", suffix) == text + suffix
  {
  }

  // ----- when it continues the text -----

  /** The suffix continues the text exactly when it may trade places with the later text. */
  lemma InsertedContinues(text: string, later: string, suffix: string)
    requires Ends(text, later)
    ensures Inserted(text, later, suffix) == text + suffix <==> suffix + later == later + suffix
  {
    var before := text[..|text| - |later|];
    assert text == before + later;
    ConcatAssoc(before, suffix, later);
    ConcatAssoc(before, later, suffix);
    var a, b := before + (suffix + later), before + (later + suffix);
    assert a[|before|..] == suffix + later && b[|before|..] == later + suffix;
  }

  /** Whatever the suffix is, it continues what the client reads, exactly when no block of its kind
      started after the continued one shows anything. */
  lemma ContinuationLands(es: seq<Event>, kind: BlockKind)
    requires Run(Fresh, es).ok && Continuable(kind)
    ensures (forall suffix :: ClientText(es + AppendSuffix(Track(es), kind, suffix).events, kind) == ClientText(es, kind) + suffix)
            <==> LaterText(es, kind) == ""
  {
    var later := LaterText(es, kind);
    forall suffix
      ensures ClientText(es + AppendSuffix(Track(es), kind, suffix).events, kind) == ClientText(es, kind) + suffix <==>
              suffix + later == later + suffix
    {
      SuffixLands(es, kind, suffix);
      InsertedContinues(ClientText(es, kind), later, suffix);
    }
    if later == "" {
      forall suffix: string ensures suffix + later == later + suffix {
        assert suffix + "" == suffix && "" + suffix == suffix;
      }
    } else {
      var other := if later[0] == 'a' then "b" else "a";
      assert (other + later)[0] == other[0] && (later + other)[0] == later[0];
      assert ClientText(es + AppendSuffix(Track(es), kind, other).events, kind) != ClientText(es, kind) + other;
    }
  }

  // ----- a whole recovery -----

  predicate OtherKinds(kind: BlockKind, other: BlockKind) {
    Continuable(kind) && Continuable(other) && kind != other
  }

  /** An event that shows nothing of a kind. */
  ghost predicate Silent(e: Event, kind: BlockKind) {
    forall i :: KindText(e, i, kind) == ""
  }

  lemma {:induction false} SilentBlocks(es: seq<Event>, more: seq<Event>, kind: BlockKind, k: int)
    requires forall e :: e in more ==> Silent(e, kind)
    ensures BlockText(es + more, k, kind) == BlockText(es, k, kind)
    decreases |more|
  {
    if more == [] {
      assert es + more == es;
    } else {
      var init, last := more[..|more| - 1], more[|more| - 1];
      assert last in more && Silent(last, kind);
      SilentBlocks(es, init, kind, k);
      SilentSnoc(es + init, last, k, kind);
      assert es + init + [last] == es + more;
    }
  }

  lemma StartsTwo(e: Event, f: Event)
    requires e.BlockStart? && !f.BlockStart?
    ensures StartIndices([e, f]) == [e.index]
  {
    assert StartIndices([]) == [];
    StartsSnoc([], e);
    StartsSnoc([e], f);
    assert [] + [e] == [e] && [e] + [f] == [e, f] && [] + [e.index] == [e.index];
  }

  lemma AppendStarts(t: Tracker, kind: BlockKind, suffix: string)
    ensures var starts := StartIndices(AppendSuffix(t, kind, suffix).events); starts == [] || starts == [t.maxIndex + 1]
  {
    var events := AppendSuffix(t, kind, suffix).events;
    if |events| == 2 {
      StartsTwo(events[0], events[1]);
      assert events == [events[0], events[1]];
    } else if |events| == 1 {
      StartsOne(events[0]);
      assert events == [events[0]];
    }
  }

  lemma AppendSilent(t: Tracker, other: BlockKind, suffix: string, kind: BlockKind)
    requires OtherKinds(kind, other)
    ensures forall e :: e in AppendSuffix(t, other, suffix).events ==> Silent(e, kind)
  {
    forall i: int ensures Silent(BlockStart(i, EmptyBlock(other)), kind) && Silent(BlockDelta(i, SuffixDelta(other, suffix)), kind) {
    }
  }

  lemma SilentJoins(es: seq<Event>, more: seq<Event>, kind: BlockKind, order: seq<int>, starts: seq<int>)
    requires forall e :: e in more ==> Silent(e, kind)
    requires starts == [] || (|starts| == 1 && BlockText(es, starts[0], kind) == "")
    ensures JoinBlocks(es + more, order + starts, kind) == JoinBlocks(es, order, kind)
  {
    forall k ensures BlockText(es + more, k, kind) == BlockText(es, k, kind) {
      SilentBlocks(es, more, kind, k);
    }
    JoinSame(es + more, es, order, kind);
    JoinConcat(es + more, order, starts, kind);
    ConcatEmpty(JoinBlocks(es, order, kind));
    if starts != [] {
      JoinOne(es + more, starts[0], kind);
      assert starts == [starts[0]];
    }
  }

  /** Continuing the thinking leaves the text alone, and the other way round. */
  lemma AppendLeaves(es: seq<Event>, other: BlockKind, suffix: string, kind: BlockKind)
    requires Run(Fresh, es).ok && OtherKinds(kind, other)
    ensures ClientText(es + AppendSuffix(Track(es), other, suffix).events, kind) == ClientText(es, kind)
  {
    var events := AppendSuffix(Track(es), other, suffix).events;
    var starts := StartIndices(events);
    AppendStarts(Track(es), other, suffix);
    AppendSilent(Track(es), other, suffix, kind);
    FreshIsSilent(es, kind);
    StartIndicesConcat(es, events);
    assert starts == [] || (|starts| == 1 && starts[0] == Track(es).maxIndex + 1);
    SilentJoins(es, events, kind, StartIndices(es), starts);
  }

  lemma AfterConcat(order: seq<int>, i: int, starts: seq<int>)
    requires i in order && |starts| <= 1
    ensures After(order + starts, i) == After(order, i) + starts
  {
    if starts == [] {
      assert order + starts == order && After(order, i) + starts == After(order, i);
    } else {
      AfterGrows(order, i, starts[0]);
      assert starts == [starts[0]];
    }
  }

  /** The new thinking changes neither which text block is continued nor what comes after it. */
  lemma ThinkingLeavesLater(es: seq<Event>, thinking: string)
    requires Run(Fresh, es).ok
    ensures LaterText(es + AppendSuffix(Track(es), ThinkingKind, thinking).events, TextKind) == LaterText(es, TextKind)
  {
    var t, told := Track(es), AppendSuffix(Track(es), ThinkingKind, thinking);
    var last := LastOpen(t.blocks, t.stack, TextKind);
    TrackKnows(es);
    AppendIsObserved(es, ThinkingKind, thinking);
    LastOpenSame(t, told.t, thinking);
    if last.Some? {
      LaterSame(es, told.events, last.value, thinking);
    }
  }

  lemma LaterSame(es: seq<Event>, events: seq<Event>, i: int, thinking: string)
    requires Run(Fresh, es).ok && i in Track(es).blocks.at && events == AppendSuffix(Track(es), ThinkingKind, thinking).events
    ensures JoinBlocks(es + events, After(StartIndices(es + events), i), TextKind) ==
            JoinBlocks(es, After(StartIndices(es), i), TextKind)
  {
    TrackKnows(es);
    TrackShowsOrder(es);
    AppendStarts(Track(es), ThinkingKind, thinking);
    AppendSilent(Track(es), ThinkingKind, thinking, TextKind);
    FreshIsSilent(es, TextKind);
    StartIndicesConcat(es, events);
    AfterConcat(StartIndices(es), i, StartIndices(events));
    SilentJoins(es, events, TextKind, After(StartIndices(es), i), StartIndices(events));
  }

  /** A continuation puts each suffix where the last open block of its kind ends. */
  lemma ContinuationInserts(es: seq<Event>, thinking: string, text: string)
    requires Run(Fresh, es).ok
    ensures Ends(ClientText(es, ThinkingKind), LaterText(es, ThinkingKind)) && Ends(ClientText(es, TextKind), LaterText(es, TextKind))
    ensures var all := es + Continuation(Track(es), thinking, text).events;
            && ClientText(all, ThinkingKind) == Inserted(ClientText(es, ThinkingKind), LaterText(es, ThinkingKind), thinking)
            && ClientText(all, TextKind) == Inserted(ClientText(es, TextKind), LaterText(es, TextKind), text)
  {
    var thought := AppendSuffix(Track(es), ThinkingKind, thinking);
    var mid := es + thought.events;
    SuffixLands(es, ThinkingKind, thinking);
    SuffixLands(es, TextKind, text);
    AppendLeaves(es, ThinkingKind, thinking, TextKind);
    AppendIsObserved(es, ThinkingKind, thinking);
    AppendRuns(es, ThinkingKind, thinking);
    ThinkingLeavesLater(es, thinking);
    var said := AppendSuffix(Track(mid), TextKind, text);
    SuffixLands(mid, TextKind, text);
    AppendLeaves(mid, TextKind, text, ThinkingKind);
    ConcatAssoc(es, thought.events, said.events);
  }

  /** A continued native stream: the client reads the text and the thinking it had read with the new
      suffixes, each put in before what the blocks started after the continued one showed. */
  lemma RecoveredTextInserted(json: Json, es: seq<Event>, answers: NativeAnswers)
    requires Run(Fresh, es).ok
    requires var t := Track(es); ToolOrder(t.blocks, t.blocks.keys) == [] && RecoverNative(json, t, answers).Some?
    ensures Ends(ClientText(es, ThinkingKind), LaterText(es, ThinkingKind)) && Ends(ClientText(es, TextKind), LaterText(es, TextKind))
    ensures var all := es + RecoverNative(json, Track(es), answers).value;
            var (text, thinking) := answers.continuation.value;
            && ClientText(all, TextKind) ==
               Inserted(ClientText(es, TextKind), LaterText(es, TextKind), Continued(ClientText(es, TextKind), text))
            && ClientText(all, ThinkingKind) ==
               Inserted(ClientText(es, ThinkingKind), LaterText(es, ThinkingKind), Continued(ClientText(es, ThinkingKind), thinking))
  {
    var t := Track(es);
    EmittedIsClientText(es, TextKind);
    EmittedIsClientText(es, ThinkingKind);
    var text := Continued(PartialText(t), answers.continuation.value.0);
    var thinking := Continued(PartialThinking(t), answers.continuation.value.1);
    var told := Continuation(t, thinking, text);
    var tail := SuccessTail(told.t, EndTurn);
    ContinuationInserts(es, thinking, text);
    TailShowsNoJson(told.t, EndTurn);
    ShowNone(es + told.events, tail, TextKind);
    ShowNone(es + told.events, tail, ThinkingKind);
    ConcatAssoc(es, told.events, tail);
  }
}
