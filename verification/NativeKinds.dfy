/** Which blocks of a native stream are shown, by their types
    (core/anthropic/native_sse_block_policy.py, `_should_drop_block_type`). */
module NativeKinds {
  import opened OrderedDict
  import opened StreamContract
  import opened NativePolicy
  import opened NativeContent

  /** What block `u` has upstream begins with its start. */
  lemma {:induction false} BegunFirst(es: seq<Event>, u: int, k: int)
    requires BlockDiscipline(es) && StartsAt(es, k, u)
    ensures Items(es, {u}) != [] && Items(es, {u})[0] == Begun(es[k].block)
    decreases |es|
  {
    var n := |es| - 1;
    var init := es[..n];
    if k < n {
      InitDiscipline(es);
      BegunFirst(init, u, k);
    } else {
      NothingBefore(es, u);
      NoneOf(init, u);
    }
  }

  lemma NothingBefore(es: seq<Event>, u: int)
    requires BlockDiscipline(es) && StartsAt(es, |es| - 1, u)
    ensures forall q :: 0 <= q < |es| - 1 && (es[q].BlockStart? || es[q].BlockDelta?) ==> es[q].index != u
  {
    forall q | 0 <= q < |es| - 1 && (es[q].BlockStart? || es[q].BlockDelta?) ensures es[q].index != u {
      assert forall p :: p < q ==> !StartsAt(es, p, u);
    }
  }

  lemma InitDiscipline(es: seq<Event>)
    requires es != [] && BlockDiscipline(es)
    ensures BlockDiscipline(es[..|es| - 1])
  {
    RunDescribes(es);
    Doomed(es, |es| - 1);
    RunDescribes(es[..|es| - 1]);
  }

  lemma {:induction false} NoneOf(es: seq<Event>, u: int)
    requires forall q :: 0 <= q < |es| && (es[q].BlockStart? || es[q].BlockDelta?) ==> es[q].index != u
    ensures Items(es, {u}) == []
    decreases |es|
  {
    if es != [] {
      NoneOf(es[..|es| - 1], u);
    }
  }

  /** Starts are items. */
  lemma {:induction false} StartIsItem(es: seq<Event>, at: set<int>, k: int) returns (j: int)
    requires 0 <= k < |es| && es[k].BlockStart? && es[k].index in at
    ensures 0 <= j < |Items(es, at)| && Items(es, at)[j] == Begun(es[k].block)
    decreases |es|
  {
    if k < |es| - 1 {
      j := StartIsItem(es[..|es| - 1], at, k);
    } else {
      j := |Items(es[..|es| - 1], at)|;
    }
  }

  lemma {:induction false} ItemIsStart(es: seq<Event>, at: set<int>, j: int) returns (k: int)
    requires 0 <= j < |Items(es, at)| && Items(es, at)[j].Begun?
    ensures 0 <= k < |es| && es[k].BlockStart? && es[k].index in at && es[k].block == Items(es, at)[j].block
    decreases |es|
  {
    var init := es[..|es| - 1];
    if j < |Items(init, at)| {
      k := ItemIsStart(init, at, j);
    } else {
      k := |es| - 1;
    }
  }

  /** With thinking enabled every block is shown, and with it disabled every text, tool_use and server tool
      block and every other one that does not mention thinking: from its own start on, with all its
      deltas in order, and nothing between but starts that resume it. */
  lemma KeptIsShown(thinking: bool, es: seq<Event>, u: int, k: int)
    requires Run(Fresh, es).ok && StartsAt(es, k, u)
    requires thinking || es[k].block.TextBlock? || es[k].block.ToolUseBlock? || es[k].block.ServerToolBlock?
             || (es[k].block.OtherBlock? && !es[k].block.mentionsThinking)
    ensures var down := Items(Repair(thinking, es).out, BlocksOf(Owners(thinking, es), u));
            Rejoins(Items(es, {u}), down) && down != [] && down[0] == Begun(es[k].block)
    ensures BlockShown(Repair(thinking, es).out, es[k].block)
  {
    RunDescribes(es);
    RepairConservesContent(thinking, es, u);
    assert forall p :: StartsAt(es, p, u) ==> p == k;
    BegunFirst(es, u, k);
    var q := ItemIsStart(Repair(thinking, es).out, BlocksOf(Owners(thinking, es), u), 0);
  }

  /** The client is shown the start of this block. */
  ghost predicate BlockShown(out: seq<Event>, block: ContentBlock) {
    exists q :: 0 <= q < |out| && out[q].BlockStart? && out[q].block == block
  }

  /** With thinking disabled no block shown is a thinking block, a redacted one, or another that mentions
      thinking; and what a thinking block says is not shown either, because nothing downstream is its. */
  lemma NoThinkingIsShown(es: seq<Event>, q: int)
    requires Run(Fresh, es).ok
    requires 0 <= q < |Repair(false, es).out| && Repair(false, es).out[q].BlockStart?
    ensures var block := Repair(false, es).out[q].block;
            !block.ThinkingBlock? && !block.RedactedThinkingBlock? && !(block.OtherBlock? && block.mentionsThinking)
  {
    var out, owners := Repair(false, es).out, Owners(false, es);
    RepairPlaces(false, es);
    var u := owners[out[q].index];
    assert out[q].index in BlocksOf(owners, u);
    var j := StartIsItem(out, BlocksOf(owners, u), q);
    RepairConservesContent(false, es, u);
    var up := Items(es, {u});
    var k := ItemIsStart(es, {u}, 0);
    assert StartsAt(es, k, u);
    assert !IsThinking(es[k].block);
  }

  /** A block started as thinking has nothing downstream when thinking is disabled. */
  lemma ThinkingIsGone(es: seq<Event>, u: int, k: int)
    requires Run(Fresh, es).ok && StartsAt(es, k, u)
    requires es[k].block.ThinkingBlock? || es[k].block.RedactedThinkingBlock? || (es[k].block.OtherBlock? && es[k].block.mentionsThinking)
    ensures BlocksOf(Owners(false, es), u) == {}
  {
    assert StartedDropped(false, es, u);
    RepairConservesContent(false, es, u);
  }

  // ----- whatever the upstream -----

  /** Any upstream at all: the start of a block to be shown is passed on. */
  lemma {:induction false} StartsArePassedOn(thinking: bool, es: seq<Event>, k: int)
    requires 0 <= k < |es| && es[k].BlockStart?
    requires thinking || es[k].block.TextBlock? || es[k].block.ToolUseBlock? || es[k].block.ServerToolBlock?
             || (es[k].block.OtherBlock? && !es[k].block.mentionsThinking)
    ensures BlockShown(Repair(thinking, es).out, es[k].block)
    decreases |es|
  {
    var init, last := es[..|es| - 1], es[|es| - 1];
    var before := Repair(thinking, init);
    var more := Transform(before.p, thinking, last).out;
    assert Repair(thinking, es).out == before.out + more;
    if k < |init| {
      StartsArePassedOn(thinking, init, k);
      var q :| 0 <= q < |before.out| && before.out[q].BlockStart? && before.out[q].block == es[k].block;
      assert (before.out + more)[q] == before.out[q];
    } else {
      var q := |before.out| + |more| - 1;
      assert (before.out + more)[q] == more[|more| - 1];
    }
  }

  /** Any upstream at all, with thinking disabled: no redacted thinking is shown, nor any other type that
      mentions thinking. */
  lemma {:induction false} NoneAreShown(es: seq<Event>, q: int)
    requires 0 <= q < |Repair(false, es).out| && Repair(false, es).out[q].BlockStart?
    ensures var block := Repair(false, es).out[q].block;
            !block.RedactedThinkingBlock? && !(block.OtherBlock? && block.mentionsThinking)
    decreases |es|
  {
    var init, last := es[..|es| - 1], es[|es| - 1];
    var before := Repair(false, init);
    if q < |before.out| {
      NoneAreShown(init, q);
    } else {
      ClosedStops(before.p, if last.BlockStart? then last.index else 0, before.p.byUpstream.keys);
      var more := Transform(before.p, false, last).out;
      assert Repair(false, es).out == before.out + more;
      assert more[q - |before.out|] == Repair(false, es).out[q];
    }
  }

  /** The client is shown this delta. */
  ghost predicate DeltaShown(out: seq<Event>, delta: Delta) {
    exists q :: 0 <= q < |out| && out[q].BlockDelta? && out[q].delta == delta
  }

  /** Any upstream at all: a delta is passed on unless it is for a block that was started as thinking, or is
      itself thinking, with thinking disabled. */
  lemma {:induction false} DeltasArePassedOn(thinking: bool, es: seq<Event>, k: int)
    requires 0 <= k < |es| && es[k].BlockDelta?
    requires thinking || es[k].delta.TextDelta? || es[k].delta.InputJsonDelta? || es[k].delta.SignatureDelta?
             || (es[k].delta.OtherDelta? && !es[k].delta.mentionsThinking)
    requires thinking || forall q :: 0 <= q < k && StartsAt(es, q, es[k].index) ==>
               !es[q].block.ThinkingBlock? && !es[q].block.RedactedThinkingBlock? && !(es[q].block.OtherBlock? && es[q].block.mentionsThinking)
    ensures DeltaShown(Repair(thinking, es).out, es[k].delta)
    decreases |es|
  {
    var init, last := es[..|es| - 1], es[|es| - 1];
    var before := Repair(thinking, init);
    var more := Transform(before.p, thinking, last).out;
    assert Repair(thinking, es).out == before.out + more;
    if k < |init| {
      assert forall q :: StartsAt(init, q, es[k].index) ==> StartsAt(es, q, es[k].index) && init[q] == es[q];
      DeltasArePassedOn(thinking, init, k);
      var q :| 0 <= q < |before.out| && before.out[q].BlockDelta? && before.out[q].delta == es[k].delta;
      assert (before.out + more)[q] == before.out[q];
    } else {
      DroppedAreThinking(thinking, init, last.index);
      assert forall q :: StartsAt(init, q, last.index) ==> StartsAt(es, q, last.index) && init[q] == es[q];
      assert last.index !in before.p.dropped;
      var q := |before.out| + |more| - 1;
      assert (before.out + more)[q] == more[|more| - 1];
    }
  }
}
