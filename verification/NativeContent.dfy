/** What the native stream repair does to the content: nothing is lost, moved or added, but for the
    thinking blocks it is told to drop (core/anthropic/native_sse_block_policy.py). */
module NativeContent {
  import opened OrderedDict
  import opened StreamContract
  import opened NativePolicy

  /** What the blocks of a set of indices are given: their starts and their deltas, in order. */
  datatype Item = Begun(block: ContentBlock) | Piece(delta: Delta)

  function ItemIn(e: Event, at: set<int>): seq<Item> {
    match e
    case BlockStart(index, block) => if index in at then [Begun(block)] else []
    case BlockDelta(index, delta) => if index in at then [Piece(delta)] else []
    case _ => []
  }

  function Items(es: seq<Event>, at: set<int>): seq<Item> {
    if es == [] then [] else Items(es[..|es| - 1], at) + ItemIn(es[|es| - 1], at)
  }

  function Pieces(items: seq<Item>): seq<Delta> {
    if items == [] then []
    else Pieces(items[..|items| - 1]) + if items[|items| - 1].Piece? then [items[|items| - 1].delta] else []
  }

  /** The indices of the block starts, in order. */
  function StartIndices(es: seq<Event>): seq<int> {
    if es == [] then []
    else StartIndices(es[..|es| - 1]) + if es[|es| - 1].BlockStart? then [es[|es| - 1].index] else []
  }

  lemma {:induction false} StartIndicesConcat(a: seq<Event>, b: seq<Event>)
    ensures StartIndices(a + b) == StartIndices(a) + StartIndices(b)
    decreases |b|
  {
    if b == [] {
      assert a + b == a;
    } else {
      var init := b[..|b| - 1];
      assert (a + b)[..|a + b| - 1] == a + init;
      StartIndicesConcat(a, init);
    }
  }

  lemma {:induction false} ItemsConcat(a: seq<Event>, b: seq<Event>, at: set<int>)
    ensures Items(a + b, at) == Items(a, at) + Items(b, at)
    decreases |b|
  {
    if b == [] {
      assert a + b == a;
    } else {
      var init := b[..|b| - 1];
      assert (a + b)[..|a + b| - 1] == a + init;
      ItemsConcat(a, init, at);
    }
  }

  lemma PiecesSnoc(items: seq<Item>, more: Item)
    ensures Pieces(items + [more]) == Pieces(items) + if more.Piece? then [more.delta] else []
  {
    assert (items + [more])[..|items|] == items;
  }

  predicate OnlyStops(es: seq<Event>) {
    forall k :: 0 <= k < |es| ==> es[k].BlockStop?
  }

  lemma {:induction false} StopsGiveNothing(es: seq<Event>, at: set<int>)
    requires OnlyStops(es)
    ensures Items(es, at) == [] && StartIndices(es) == []
    decreases |es|
  {
    if es != [] {
      StopsGiveNothing(es[..|es| - 1], at);
    }
  }

  // ----- fresh indices, for any upstream -----

  function UpTo(n: nat): seq<int> {
    seq(n, i => i)
  }

  lemma StartsOne(e: Event)
    ensures StartIndices([e]) == if e.BlockStart? then [e.index] else []
  {
    assert [e][..0] == [] && StartIndices([]) == [];
  }

  lemma KeptStarts(p: Policy, thinking: bool, index: int, block: ContentBlock)
    requires !DropsBlock(thinking, block)
    ensures var r := PassStart(p, thinking, index, block);
            r.p.nextIndex == p.nextIndex + 1 && StartIndices(r.out) == [p.nextIndex]
  {
    var closed := CloseOthers(p, index, p.byUpstream.keys);
    CloseOthersCloses(p, index, p.byUpstream.keys);
    assert forall k :: 0 <= k < |closed.out| ==> closed.out[k] in closed.out;
    StopsGiveNothing(closed.out, {});
    StartIndicesConcat(closed.out, [BlockStart(p.nextIndex, block)]);
    StartsOne(BlockStart(p.nextIndex, block));
  }

  lemma DeltaStarts(p: Policy, thinking: bool, index: int, delta: Delta)
    ensures var r := PassDelta(p, thinking, index, delta);
            || (r.p.nextIndex == p.nextIndex && StartIndices(r.out) == [])
            || (r.p.nextIndex == p.nextIndex + 1 && StartIndices(r.out) == [p.nextIndex])
  {
    var r := PassDelta(p, thinking, index, delta);
    if |r.out| == 2 {
      assert r.out == [r.out[0]] + [r.out[1]];
      StartIndicesConcat([r.out[0]], [r.out[1]]);
      StartsOne(r.out[0]);
      StartsOne(r.out[1]);
    } else if |r.out| == 1 {
      assert r.out == [r.out[0]];
      StartsOne(r.out[0]);
    }
  }

  /** The starts an event causes downstream: none, or one at the next index. */
  lemma TransformStarts(p: Policy, thinking: bool, e: Event)
    ensures var r := Transform(p, thinking, e);
            || (r.p.nextIndex == p.nextIndex && StartIndices(r.out) == [])
            || (r.p.nextIndex == p.nextIndex + 1 && StartIndices(r.out) == [p.nextIndex])
  {
    match e
    case BlockStart(index, block) =>
      if !DropsBlock(thinking, block) {
        KeptStarts(p, thinking, index, block);
      }
    case BlockDelta(index, delta) => DeltaStarts(p, thinking, index, delta);
    case BlockStop(index) =>
      var out := PassStop(p, thinking, index).out;
      assert out == [] || out == [out[0]];
      if out != [] {
        StartsOne(out[0]);
      }
    case _ => StartsOne(e);
  }

  lemma UpToStep(n: nat, m: nat, more: seq<int>)
    requires (m == n && more == []) || (m == n + 1 && more == [n])
    ensures UpTo(n) + more == UpTo(m)
  {
  }

  lemma NextIndices(p: Policy, thinking: bool, out: seq<Event>, e: Event)
    requires StartIndices(out) == UpTo(p.nextIndex)
    ensures var r := Transform(p, thinking, e); StartIndices(out + r.out) == UpTo(r.p.nextIndex)
  {
    var r := Transform(p, thinking, e);
    TransformStarts(p, thinking, e);
    StartIndicesConcat(out, r.out);
    UpToStep(p.nextIndex, r.p.nextIndex, StartIndices(r.out));
  }

  /** Whatever the upstream sends, the blocks shown have the indices 0, 1, 2, ..., in that order. */
  lemma {:induction false} FreshIndicesInOrder(thinking: bool, es: seq<Event>)
    ensures StartIndices(Repair(thinking, es).out) == UpTo(Repair(thinking, es).p.nextIndex)
    decreases |es|
  {
    if es != [] {
      var init, last := es[..|es| - 1], es[|es| - 1];
      FreshIndicesInOrder(thinking, init);
      NextIndices(Repair(thinking, init).p, thinking, Repair(thinking, init).out, last);
    }
  }

  // ----- which upstream block a downstream block belongs to -----

  /** The upstream index of each downstream block, in order of downstream index. */
  function Owners(thinking: bool, es: seq<Event>): seq<int> {
    if es == [] then []
    else
      var init, last := es[..|es| - 1], es[|es| - 1];
      Owners(thinking, init) + OwnerOf(Repair(thinking, init).p, thinking, last)
  }

  /** An event that opens a downstream block opens it for the upstream index it names. */
  function OwnerOf(p: Policy, thinking: bool, e: Event): seq<int> {
    if (e.BlockStart? || e.BlockDelta?) && Transform(p, thinking, e).p.nextIndex > p.nextIndex then [e.index] else []
  }

  /** The downstream blocks of upstream block `u`. */
  function BlocksOf(owners: seq<int>, u: int): set<int> {
    set d | 0 <= d < |owners| && owners[d] == u
  }

  predicate InRange(es: seq<Event>, n: nat) {
    forall k :: 0 <= k < |es| && (es[k].BlockStart? || es[k].BlockDelta?) ==> 0 <= es[k].index < n
  }

  /** A new downstream block takes nothing from the past. */
  lemma {:induction false} PastItems(es: seq<Event>, n: nat, at: set<int>, at': set<int>)
    requires InRange(es, n) && forall d :: 0 <= d < n ==> (d in at <==> d in at')
    ensures Items(es, at) == Items(es, at')
    decreases |es|
  {
    if es != [] {
      PastItems(es[..|es| - 1], n, at, at');
    }
  }

  /** A later segment of a block carries on from its start: the same tool, or an empty text. */
  predicate Resumes(original: ContentBlock, later: ContentBlock) {
    match original
    case TextBlock(_) => later == TextBlock("")
    case ThinkingBlock(_) => later == ThinkingBlock("")
    case ToolUseBlock(id, name, input) =>
      later.ToolUseBlock? && later.name == name && later.input == input && if id != "" then later.id == id else "toolu_or_" <= later.id
    case _ => false
  }

  /** Downstream a block shows its own start, then all its deltas in order, broken only by starts that
      resume it. */
  predicate Rejoins(up: seq<Item>, down: seq<Item>) {
    && Pieces(down) == Pieces(up)
    && (up == [] ==> down == [])
    && (up != [] ==> up[0].Begun? && down != [] && down[0] == up[0])
    && (forall j :: 0 < j < |down| && down[j].Begun? ==> up != [] && Resumes(up[0].block, down[j].block))
  }

  /** Every downstream block has an owner, and an upstream block owns its current segment. */
  ghost predicate Places(p: Policy, out: seq<Event>, owners: seq<int>) {
    && |owners| == p.nextIndex && InRange(out, p.nextIndex)
    && (forall u :: u in owners ==> u in p.byUpstream.at)
    && (forall u :: u in p.byUpstream.at ==>
          0 <= p.byUpstream.at[u].down < p.nextIndex && owners[p.byUpstream.at[u].down] == u)
  }

  /** The downstream stream follows upstream block `u`. */
  predicate Follows(p: Policy, u: int, up: seq<Item>, down: seq<Item>) {
    && (u in p.byUpstream.at ==> up != [] && up[0] == Begun(p.byUpstream.at[u].lastStart))
    && (u !in p.dropped ==> Rejoins(up, down))
  }

  lemma {:induction false} NothingIn(es: seq<Event>)
    ensures Items(es, {}) == []
    decreases |es|
  {
    if es != [] {
      NothingIn(es[..|es| - 1]);
    }
  }

  /** A block that has not started has no items. */
  lemma {:induction false} UnseenHasNothing(es: seq<Event>, u: int)
    requires Run(Fresh, es).ok && u !in Run(Fresh, es).seen
    ensures Items(es, {u}) == []
    ensures Run(Fresh, es).open.Keys <= Run(Fresh, es).seen
    decreases |es|
  {
    if es != [] {
      var init, last := es[..|es| - 1], es[|es| - 1];
      assert Run(Fresh, es) == Step(Run(Fresh, init), last);
      UnseenHasNothing(init, u);
    }
  }

  lemma ItemsSnoc(es: seq<Event>, e: Event, at: set<int>)
    ensures Items(es + [e], at) == Items(es, at) + ItemIn(e, at)
  {
    assert (es + [e])[..|es|] == es;
  }

  lemma BlocksOfGrow(owners: seq<int>, x: int, u: int)
    ensures BlocksOf(owners + [x], u) == if u == x then BlocksOf(owners, u) + {|owners|} else BlocksOf(owners, u)
  {
    var more := owners + [x];
    assert forall d :: 0 <= d < |owners| ==> more[d] == owners[d];
    assert more[|owners|] == x;
    forall d ensures d in BlocksOf(more, u) <==> d in BlocksOf(owners, u) || (u == x && d == |owners|) {
    }
  }

  /** A new downstream block of `x` leaves every block's past items as they were. */
  lemma GrownPast(out: seq<Event>, owners: seq<int>, x: int, u: int)
    requires InRange(out, |owners|)
    ensures Items(out, BlocksOf(owners + [x], u)) == Items(out, BlocksOf(owners, u))
  {
    BlocksOfGrow(owners, x, u);
    PastItems(out, |owners|, BlocksOf(owners + [x], u), BlocksOf(owners, u));
  }

  lemma RejoinsPiece(up: seq<Item>, down: seq<Item>, delta: Delta)
    requires Rejoins(up, down) && up != []
    ensures Rejoins(up + [Piece(delta)], down + [Piece(delta)])
  {
    PiecesSnoc(up, Piece(delta));
    PiecesSnoc(down, Piece(delta));
  }

  lemma RejoinsResumed(up: seq<Item>, down: seq<Item>, block: ContentBlock)
    requires Rejoins(up, down) && up != [] && Resumes(up[0].block, block)
    ensures Rejoins(up, down + [Begun(block)])
  {
    PiecesSnoc(down, Begun(block));
  }

  lemma RejoinsBegun(block: ContentBlock)
    ensures Rejoins([Begun(block)], [Begun(block)])
  {
  }

  // ----- one event -----

  /** Closing early changes no segment's place or start. */
  lemma {:induction false} CloseOthersKeeps(p: Policy, current: int, keys: seq<int>, u: int)
    requires u in p.byUpstream.at
    ensures var r := CloseOthers(p, current, keys);
            u in r.p.byUpstream.at && r.p.byUpstream.at[u].(open := false) == p.byUpstream.at[u].(open := false)
    decreases |keys|
  {
    if keys != [] {
      CloseOthersKeeps(p, current, keys[1..], u);
      var v := keys[0];
      if v in p.byUpstream.at {
        CloseOthersKeeps(p.(byUpstream := p.byUpstream.Put(v, p.byUpstream.at[v].(open := false)),
                            pendingStops := p.pendingStops + {v}), current, keys[1..], u);
      }
    }
  }

  lemma ClosedStops(p: Policy, current: int, keys: seq<int>)
    ensures OnlyStops(CloseOthers(p, current, keys).out)
  {
    CloseOthersCloses(p, current, keys);
    var out := CloseOthers(p, current, keys).out;
    assert forall k :: 0 <= k < |out| ==> out[k] in out;
  }

  lemma StartPlaces(p: Policy, thinking: bool, out: seq<Event>, owners: seq<int>, index: int, block: ContentBlock)
    requires Places(p, out, owners) && !DropsBlock(thinking, block)
    ensures var r := PassStart(p, thinking, index, block); Places(r.p, out + r.out, owners + [index])
  {
    var keys := p.byUpstream.keys;
    CloseOthersCloses(p, index, keys);
    ClosedStops(p, index, keys);
    var r := PassStart(p, thinking, index, block);
    forall u | u in r.p.byUpstream.at
      ensures 0 <= r.p.byUpstream.at[u].down < r.p.nextIndex && (owners + [index])[r.p.byUpstream.at[u].down] == u
    {
      if u != index {
        CloseOthersKeeps(p, index, keys, u);
      }
    }
    InRangeConcat(CloseOthers(p, index, keys).out, [BlockStart(p.nextIndex, block)], p.nextIndex + 1);
    InRangeConcat(out, r.out, p.nextIndex + 1);
  }

  lemma InRangeConcat(a: seq<Event>, b: seq<Event>, n: nat)
    requires InRange(a, n) && InRange(b, n)
    ensures InRange(a + b, n)
  {
  }

  lemma DeltaPlaces(p: Policy, thinking: bool, out: seq<Event>, owners: seq<int>, index: int, delta: Delta)
    requires Places(p, out, owners) && index in p.byUpstream.at && !delta.OtherDelta?
    ensures var r := PassDelta(p, thinking, index, delta);
            Places(r.p, out + r.out, owners + OwnerOf(p, thinking, BlockDelta(index, delta)))
  {
    assert owners + [] == owners;
    assert out + [] == out;
  }

  lemma TransformPlaces(p: Policy, thinking: bool, up: Check, down: Check, out: seq<Event>, owners: seq<int>, e: Event)
    requires Simulates(p, thinking, up, down) && Step(up, e).ok && Places(p, out, owners)
    ensures var r := Transform(p, thinking, e); Places(r.p, out + r.out, owners + OwnerOf(p, thinking, e))
  {
    assert owners + [] == owners;
    assert out + [] == out;
    match e
    case BlockStart(index, block) =>
      CloseOthersCloses(p, index, p.byUpstream.keys);
      if !DropsBlock(thinking, block) {
        StartPlaces(p, thinking, out, owners, index, block);
      }
    case BlockDelta(index, delta) =>
      assert Carried(p, thinking, index, up.open[index], down.open);
      if index !in p.dropped {
        DeltaPlaces(p, thinking, out, owners, index, delta);
      }
    case BlockStop(index) =>
    case _ =>
  }

  /** What an event adds downstream for block `u`. */
  function Yield(p: Policy, thinking: bool, e: Event, u: int): seq<Item> {
    match e
    case BlockStart(index, block) => if index == u && !DropsBlock(thinking, block) then [Begun(block)] else []
    case BlockDelta(index, delta) =>
      if index != u || index !in p.byUpstream.at || index in p.dropped || DropsDelta(thinking, delta) || delta.OtherDelta? then []
      else if p.byUpstream.at[index].open then [Piece(delta)]
      else [Begun(SyntheticStart(delta, index, p.byUpstream.at[index].lastStart)), Piece(delta)]
    case _ => []
  }

  lemma OneItem(e: Event, at: set<int>)
    ensures Items([e], at) == ItemIn(e, at)
  {
    assert [e][..0] == [];
  }

  lemma StartYields(p: Policy, thinking: bool, owners: seq<int>, index: int, block: ContentBlock, u: int)
    requires |owners| == p.nextIndex && !DropsBlock(thinking, block)
    ensures Items(PassStart(p, thinking, index, block).out, BlocksOf(owners + [index], u)) ==
            Yield(p, thinking, BlockStart(index, block), u)
  {
    var closed := CloseOthers(p, index, p.byUpstream.keys).out;
    var at := BlocksOf(owners + [index], u);
    ClosedStops(p, index, p.byUpstream.keys);
    StopsGiveNothing(closed, at);
    ItemsSnoc(closed, BlockStart(p.nextIndex, block), at);
    BlocksOfGrow(owners, index, u);
    assert p.nextIndex !in BlocksOf(owners, u);
  }

  lemma ReopenYields(n: nat, owners: seq<int>, index: int, block: ContentBlock, delta: Delta, u: int)
    requires |owners| == n
    ensures Items([BlockStart(n, block), BlockDelta(n, delta)], BlocksOf(owners + [index], u)) ==
            if u == index then [Begun(block), Piece(delta)] else []
  {
    var at := BlocksOf(owners + [index], u);
    BlocksOfGrow(owners, index, u);
    assert n !in BlocksOf(owners, u);
    OneItem(BlockStart(n, block), at);
    ItemsSnoc([BlockStart(n, block)], BlockDelta(n, delta), at);
    assert [BlockStart(n, block)] + [BlockDelta(n, delta)] == [BlockStart(n, block), BlockDelta(n, delta)];
  }

  lemma OpenYields(owners: seq<int>, down: nat, index: int, delta: Delta, u: int)
    requires down < |owners| && owners[down] == index
    ensures Items([BlockDelta(down, delta)], BlocksOf(owners, u)) == if u == index then [Piece(delta)] else []
  {
    OneItem(BlockDelta(down, delta), BlocksOf(owners, u));
  }

  lemma DeltaYields(p: Policy, thinking: bool, owners: seq<int>, index: int, delta: Delta, u: int)
    requires |owners| == p.nextIndex && index in p.byUpstream.at && !delta.OtherDelta?
    requires 0 <= p.byUpstream.at[index].down < p.nextIndex && owners[p.byUpstream.at[index].down] == index
    ensures var owners' := owners + OwnerOf(p, thinking, BlockDelta(index, delta));
            Items(PassDelta(p, thinking, index, delta).out, BlocksOf(owners', u)) ==
            Yield(p, thinking, BlockDelta(index, delta), u)
  {
    assert owners + [] == owners;
    var seg := p.byUpstream.at[index];
    if index !in p.dropped && !DropsDelta(thinking, delta) {
      if seg.open {
        OpenYields(owners, seg.down, index, delta, u);
      } else {
        ReopenYields(p.nextIndex, owners, index, SyntheticStart(delta, index, seg.lastStart), delta, u);
      }
    }
  }

  lemma TransformYields(p: Policy, thinking: bool, up: Check, down: Check, out: seq<Event>, owners: seq<int>, e: Event, u: int)
    requires Simulates(p, thinking, up, down) && Step(up, e).ok && Places(p, out, owners)
    ensures var r := Transform(p, thinking, e);
            Items(out + r.out, BlocksOf(owners + OwnerOf(p, thinking, e), u)) ==
            Items(out, BlocksOf(owners, u)) + Yield(p, thinking, e, u)
  {
    var r := Transform(p, thinking, e);
    var more := OwnerOf(p, thinking, e);
    ItemsConcat(out, r.out, BlocksOf(owners + more, u));
    assert owners + [] == owners;
    if more != [] {
      GrownPast(out, owners, e.index, u);
    }
    EventYields(p, thinking, up, down, owners, e, u);
  }

  lemma EventYields(p: Policy, thinking: bool, up: Check, down: Check, owners: seq<int>, e: Event, u: int)
    requires Simulates(p, thinking, up, down) && Step(up, e).ok && |owners| == p.nextIndex
    requires forall v :: v in p.byUpstream.at ==>
               0 <= p.byUpstream.at[v].down < p.nextIndex && owners[p.byUpstream.at[v].down] == v
    ensures Items(Transform(p, thinking, e).out, BlocksOf(owners + OwnerOf(p, thinking, e), u)) == Yield(p, thinking, e, u)
  {
    assert owners + [] == owners;
    match e
    case BlockStart(index, block) =>
      CloseOthersCloses(p, index, p.byUpstream.keys);
      if !DropsBlock(thinking, block) {
        StartYields(p, thinking, owners, index, block, u);
      }
    case BlockDelta(index, delta) =>
      assert Carried(p, thinking, index, up.open[index], down.open);
      if index !in p.dropped {
        DeltaYields(p, thinking, owners, index, delta, u);
      }
    case BlockStop(index) =>
      StopsGiveNothing(Transform(p, thinking, e).out, BlocksOf(owners, u));
    case _ =>
      OneItem(e, BlocksOf(owners, u));
  }

  /** One more event, for one upstream block. */
  lemma TransformFollows(p: Policy, thinking: bool, es: seq<Event>, down: Check, items: seq<Item>, e: Event, u: int)
    requires Simulates(p, thinking, Run(Fresh, es), down) && Run(Fresh, es).ok && Step(Run(Fresh, es), e).ok
    requires Follows(p, u, Items(es, {u}), items)
    ensures Follows(Transform(p, thinking, e).p, u, Items(es + [e], {u}), items + Yield(p, thinking, e, u))
  {
    ItemsSnoc(es, e, {u});
    ConcatEmpty(items);
    ConcatEmpty(Items(es, {u}));
    match e
    case BlockStart(index, block) =>
      StartFollows(p, thinking, es, down, items, index, block, u);
    case BlockDelta(index, delta) =>
      OwnDeltaFollows(p, thinking, es, down, items, index, delta, u);
    case BlockStop(index) =>
    case _ =>
  }

  lemma OwnDeltaFollows(p: Policy, thinking: bool, es: seq<Event>, down: Check, items: seq<Item>, index: int, delta: Delta, u: int)
    requires Simulates(p, thinking, Run(Fresh, es), down) && Run(Fresh, es).ok && Step(Run(Fresh, es), BlockDelta(index, delta)).ok
    requires Follows(p, u, Items(es, {u}), items)
    ensures Follows(PassDelta(p, thinking, index, delta).p, u, Items(es, {u}) + ItemIn(BlockDelta(index, delta), {u}),
                    items + Yield(p, thinking, BlockDelta(index, delta), u))
  {
    ConcatEmpty(items);
    ConcatEmpty(Items(es, {u}));
    assert Carried(p, thinking, index, Run(Fresh, es).open[index], down.open);
    if index == u && u !in p.dropped {
      DeltaFollows(p, thinking, Items(es, {u}), items, index, delta);
    }
  }

  lemma StartFollows(p: Policy, thinking: bool, es: seq<Event>, down: Check, items: seq<Item>, index: int, block: ContentBlock, u: int)
    requires Simulates(p, thinking, Run(Fresh, es), down) && Run(Fresh, es).ok
    requires Step(Run(Fresh, es), BlockStart(index, block)).ok
    requires Follows(p, u, Items(es, {u}), items)
    ensures Follows(PassStart(p, thinking, index, block).p, u, Items(es, {u}) + ItemIn(BlockStart(index, block), {u}),
                    items + Yield(p, thinking, BlockStart(index, block), u))
  {
    UnseenHasNothing(es, index);
    CloseOthersCloses(p, index, p.byUpstream.keys);
    assert items + [] == items;
    assert Items(es, {u}) + [] == Items(es, {u});
    if index == u {
      assert items == [];
      assert [] + [Begun(block)] == [Begun(block)];
      RejoinsBegun(block);
    } else if u in p.byUpstream.at {
      CloseOthersKeeps(p, index, p.byUpstream.keys, u);
    }
  }

  lemma DeltaFollows(p: Policy, thinking: bool, up: seq<Item>, items: seq<Item>, u: int, delta: Delta)
    requires u in p.byUpstream.at && u !in p.dropped && Follows(p, u, up, items)
    requires Accepts(StorageOf(p.byUpstream.at[u].lastStart), delta) && !DropsDelta(thinking, delta)
    ensures Follows(PassDelta(p, thinking, u, delta).p, u, up + [Piece(delta)],
                    items + Yield(p, thinking, BlockDelta(u, delta), u))
  {
    var seg := p.byUpstream.at[u];
    if seg.open {
      RejoinsPiece(up, items, delta);
    } else {
      var block := SyntheticStart(delta, u, seg.lastStart);
      RejoinsResumed(up, items, block);
      RejoinsPiece(up, items + [Begun(block)], delta);
      assert items + [Begun(block)] + [Piece(delta)] == items + [Begun(block), Piece(delta)];
    }
  }

  // ----- whole streams -----

  lemma {:induction false} RepairPlaces(thinking: bool, es: seq<Event>)
    requires Run(Fresh, es).ok
    ensures Places(Repair(thinking, es).p, Repair(thinking, es).out, Owners(thinking, es))
    decreases |es|
  {
    if es != [] {
      var init, last := es[..|es| - 1], es[|es| - 1];
      RepairPlaces(thinking, init);
      RepairSimulates(thinking, init);
      var before := Repair(thinking, init);
      TransformPlaces(before.p, thinking, Run(Fresh, init), Run(Fresh, before.out), before.out, Owners(thinking, init), last);
    }
  }

  /** One more event, whole streams on both sides. */
  lemma FollowsNext(thinking: bool, es: seq<Event>, e: Event, u: int)
    requires Run(Fresh, es).ok && Step(Run(Fresh, es), e).ok
    requires var r := Repair(thinking, es);
             Follows(r.p, u, Items(es, {u}), Items(r.out, BlocksOf(Owners(thinking, es), u)))
    ensures var r := Repair(thinking, es);
            var next := Transform(r.p, thinking, e);
            Follows(next.p, u, Items(es + [e], {u}),
                    Items(r.out + next.out, BlocksOf(Owners(thinking, es) + OwnerOf(r.p, thinking, e), u)))
  {
    RepairPlaces(thinking, es);
    RepairSimulates(thinking, es);
    var r, owners := Repair(thinking, es), Owners(thinking, es);
    TransformYields(r.p, thinking, Run(Fresh, es), Run(Fresh, r.out), r.out, owners, e, u);
    TransformFollows(r.p, thinking, es, Run(Fresh, r.out), Items(r.out, BlocksOf(owners, u)), e, u);
  }

  lemma RepairSnoc(thinking: bool, es: seq<Event>, e: Event)
    ensures var r := Repair(thinking, es);
            var next := Transform(r.p, thinking, e);
            && Repair(thinking, es + [e]) == Passed(next.p, r.out + next.out)
            && Owners(thinking, es + [e]) == Owners(thinking, es) + OwnerOf(r.p, thinking, e)
            && Run(Fresh, es + [e]) == Step(Run(Fresh, es), e)
  {
    assert (es + [e])[..|es|] == es;
  }

  lemma {:induction false} RepairFollows(thinking: bool, es: seq<Event>, u: int)
    requires Run(Fresh, es).ok
    ensures var r := Repair(thinking, es);
            Follows(r.p, u, Items(es, {u}), Items(r.out, BlocksOf(Owners(thinking, es), u)))
    decreases |es|
  {
    if es == [] {
      assert BlocksOf([], u) == {};
    } else {
      var init, last := es[..|es| - 1], es[|es| - 1];
      assert es == init + [last];
      RepairSnoc(thinking, init, last);
      RepairFollows(thinking, init, u);
      FollowsNext(thinking, init, last, u);
    }
  }

  /** A thinking block, a redacted one, or one of another type that mentions thinking. */
  predicate IsThinking(block: ContentBlock) {
    block.ThinkingBlock? || block.RedactedThinkingBlock? || (block.OtherBlock? && block.mentionsThinking)
  }

  /** Upstream block `u` was started as thinking, which is disabled. */
  ghost predicate StartedDropped(thinking: bool, es: seq<Event>, u: int) {
    !thinking && exists k :: StartsAt(es, k, u) && IsThinking(es[k].block)
  }

  lemma {:induction false} DroppedAreThinking(thinking: bool, es: seq<Event>, u: int)
    ensures u in Repair(thinking, es).p.dropped <==> StartedDropped(thinking, es, u)
    decreases |es|
  {
    if es != [] {
      var init, last := es[..|es| - 1], es[|es| - 1];
      DroppedAreThinking(thinking, init, u);
      var p := Repair(thinking, init).p;
      if last.BlockStart? && !DropsBlock(thinking, last.block) {
        CloseOthersCloses(p, last.index, p.byUpstream.keys);
      }
      if StartedDropped(thinking, es, u) {
        var k :| StartsAt(es, k, u) && IsThinking(es[k].block);
        assert k < |init| ==> StartsAt(init, k, u) && init[k] == es[k];
      }
      if StartedDropped(thinking, init, u) {
        var k :| StartsAt(init, k, u) && IsThinking(init[k].block);
        assert StartsAt(es, k, u) && init[k] == es[k];
      }
      if last.BlockStart? && last.index == u && DropsBlock(thinking, last.block) {
        assert StartsAt(es, |es| - 1, u);
      }
    }
  }

  /** For an upstream whose blocks start once and take their deltas and stop while open, overlapping
      as they like, at any point of it: each upstream block either was started with a type to drop,
      and owns nothing downstream, or its downstream segments show its own start and all its deltas, in
      order, with nothing between but starts that resume it. With thinking enabled nothing is dropped. */
  lemma RepairConservesContent(thinking: bool, es: seq<Event>, u: int)
    requires Run(Fresh, es).ok
    ensures var r := Repair(thinking, es);
            && |Owners(thinking, es)| == r.p.nextIndex
            && if StartedDropped(thinking, es, u) then BlocksOf(Owners(thinking, es), u) == {} && !thinking
               else Rejoins(Items(es, {u}), Items(r.out, BlocksOf(Owners(thinking, es), u)))
  {
    RepairPlaces(thinking, es);
    RepairFollows(thinking, es, u);
    RepairSimulates(thinking, es);
    DroppedAreThinking(thinking, es, u);
    var owners := Owners(thinking, es);
    if u in Repair(thinking, es).p.dropped {
      assert u !in owners;
      assert forall d :: d !in BlocksOf(owners, u);
      assert BlocksOf(owners, u) == {};
    }
  }

  // ----- the contract -----

  /** Some block is kept. */
  ghost predicate KeepsSome(thinking: bool, es: seq<Event>) {
    exists k :: 0 <= k < |es| && es[k].BlockStart? && (thinking || !IsThinking(es[k].block))
  }

  /** The first downstream block is opened by the start of a kept one. */
  lemma FirstKept(p: Policy, thinking: bool, up: Check, down: Check, out: seq<Event>, owners: seq<int>, e: Event)
    requires Simulates(p, thinking, up, down) && Step(up, e).ok && Places(p, out, owners)
    ensures Transform(p, thinking, e).p.nextIndex > 0 <==>
            p.nextIndex > 0 || (e.BlockStart? && !DropsBlock(thinking, e.block))
  {
    if e.BlockStart? {
      CloseOthersCloses(p, e.index, p.byUpstream.keys);
    } else if e.BlockDelta? {
      assert Carried(p, thinking, e.index, up.open[e.index], down.open);
    }
  }

  lemma {:induction false} KeptIsAllocated(thinking: bool, es: seq<Event>)
    requires Run(Fresh, es).ok
    ensures KeepsSome(thinking, es) <==> Repair(thinking, es).p.nextIndex > 0
    decreases |es|
  {
    if es != [] {
      var init, last := es[..|es| - 1], es[|es| - 1];
      assert es == init + [last];
      RepairSnoc(thinking, init, last);
      KeptIsAllocated(thinking, init);
      RepairSimulates(thinking, init);
      RepairPlaces(thinking, init);
      var r := Repair(thinking, init);
      FirstKept(r.p, thinking, Run(Fresh, init), Run(Fresh, r.out), r.out, Owners(thinking, init), last);
      KeepsSnoc(thinking, init, last);
    }
  }

  lemma KeepsSnoc(thinking: bool, es: seq<Event>, e: Event)
    ensures KeepsSome(thinking, es + [e]) <==> KeepsSome(thinking, es) || (e.BlockStart? && (thinking || !IsThinking(e.block)))
  {
    var t := es + [e];
    assert t[|es|] == e;
    if k :| 0 <= k < |t| && t[k].BlockStart? && (thinking || !IsThinking(t[k].block)) {
      assert k < |es| ==> es[k] == t[k];
    }
    if k :| 0 <= k < |es| && es[k].BlockStart? && (thinking || !IsThinking(es[k].block)) {
      assert t[k] == es[k];
    }
  }

  /** The message-level events pass through in place. */
  lemma {:induction false} MessageEventsPass(thinking: bool, es: seq<Event>, e: Event)
    requires !e.BlockStart? && !e.BlockDelta? && !e.BlockStop?
    ensures e in es <==> e in Repair(thinking, es).out
    decreases |es|
  {
    if es != [] {
      var init, last := es[..|es| - 1], es[|es| - 1];
      MessageEventsPass(thinking, init, e);
      var p := Repair(thinking, init).p;
      CloseOthersCloses(p, if last.BlockStart? then last.index else 0, p.byUpstream.keys);
      assert e in es <==> e in init || e == last;
    }
  }

  lemma NoneOpen(p: Policy, down: map<int, Storage>)
    requires Mirrors(p, down)
    ensures (forall u :: !IsOpen(p, u)) ==> down == map[]
  {
    if forall u :: !IsOpen(p, u) {
      assert forall d :: d !in down;
      assert down == map[];
    }
  }

  /** A stream that meets the contract but for overlaps comes out meeting the contract, exactly when
      some of its blocks are kept: overlapping blocks, split and reopened, are all closed in the end. */
  lemma RepairMeetsContract(thinking: bool, es: seq<Event>, allowError: bool)
    requires Contract(es, allowError)
    ensures Contract(Repair(thinking, es).out, allowError) <==> KeepsSome(thinking, es)
  {
    var r := Repair(thinking, es);
    ContractByRun(es, allowError);
    ContractByRun(r.out, allowError);
    RepairSimulates(thinking, es);
    KeptIsAllocated(thinking, es);
    MessageEventsPass(thinking, es, MessageStart);
    assert r.out[|r.out| - 1] == MessageStop;
    NoneOpen(r.p, Run(Fresh, r.out).open);
    assert r.p.nextIndex > 0 <==> 0 in Run(Fresh, r.out).seen;
    SomeMember(Run(Fresh, r.out).seen);
    forall q | 0 <= q < |r.out| && r.out[q].ErrorEvent? ensures r.out[q] in es {
      MessageEventsPass(thinking, es, r.out[q]);
      assert r.out[q] in r.out;
    }
    assert !allowError ==> forall e :: e in es ==> !e.ErrorEvent?;
  }

  /** When a kept block starts, every other block is closed: right after it exactly one is open. */
  lemma StartStandsAlone(thinking: bool, es: seq<Event>, index: int, block: ContentBlock)
    requires Run(Fresh, es + [BlockStart(index, block)]).ok && !DropsBlock(thinking, block)
    ensures var r := Repair(thinking, es + [BlockStart(index, block)]);
            forall d :: d in Run(Fresh, r.out).open <==> d == r.p.nextIndex - 1
  {
    var e := BlockStart(index, block);
    var all := es + [e];
    assert all[..|all| - 1] == es && all[|all| - 1] == e;
    assert Run(Fresh, all) == Step(Run(Fresh, es), e);
    RepairSimulates(thinking, es);
    RepairSimulates(thinking, all);
    var before := Repair(thinking, es);
    CloseOthersCloses(before.p, index, before.p.byUpstream.keys);
    var p' := Repair(thinking, all).p;
    assert forall u :: IsOpen(p', u) <==> u == index;
    assert IsOpen(p', index) && p'.byUpstream.at[index].down == before.p.nextIndex;
  }
}
