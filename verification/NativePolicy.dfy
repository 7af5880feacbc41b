/** Repairing a native Anthropic stream (core/anthropic/native_sse_block_policy.py): indices are
    renumbered, overlapping blocks closed and reopened, and thinking dropped when it is disabled. */
module NativePolicy {
  import opened OrderedDict
  import opened StreamContract

  /** `_UpstreamBlockState`: the current downstream segment of an upstream block. */
  datatype Segment = Segment(down: nat, open: bool, lastStart: ContentBlock)

  /** `NativeSseBlockPolicyState`. */
  datatype Policy = Policy(nextIndex: nat, byUpstream: Dict<int, Segment>, dropped: set<int>, pendingStops: set<int>)

  const NewPolicy := Policy(0, Dict([], map[]), {}, {})

  /** The state after an event, and what goes downstream for it. */
  datatype Passed = Passed(p: Policy, out: seq<Event>)

  predicate DropsBlock(thinking: bool, block: ContentBlock) {
    !thinking && (block.ThinkingBlock? || block.RedactedThinkingBlock? || (block.OtherBlock? && block.mentionsThinking))
  }

  predicate DropsDelta(thinking: bool, delta: Delta) {
    !thinking && (delta.ThinkingDelta? || (delta.OtherDelta? && delta.mentionsThinking))
  }

  function Digits(n: nat): string {
    if n < 10 then ["0123456789"[n]] else Digits(n / 10) + ["0123456789"[n % 10]]
  }

  function FallbackId(upstream: int): string {
    "toolu_or_" + if upstream < 0 then "-" + Digits(-upstream) else Digits(upstream)
  }

  /** `_synthetic_start_content_block` for the kind of block a delta belongs to. */
  function SyntheticStart(delta: Delta, upstream: int, stored: ContentBlock): ContentBlock {
    match delta
    case InputJsonDelta(_) =>
      if stored.ToolUseBlock?
      then ToolUseBlock(if stored.id != "" then stored.id else FallbackId(upstream), stored.name, stored.input)
      else ToolUseBlock(FallbackId(upstream), "", "{}")
    case ThinkingDelta(_) => ThinkingBlock("")
    case SignatureDelta(_) => ThinkingBlock("")
    case _ => TextBlock("")
  }

  /** `_synthetic_close_other_open_blocks` over the upstream indices `keys`. */
  function CloseOthers(p: Policy, current: int, keys: seq<int>): Passed
    decreases |keys|
  {
    if keys == [] then Passed(p, [])
    else
      var u := keys[0];
      if u == current || u !in p.byUpstream.at || !p.byUpstream.at[u].open then CloseOthers(p, current, keys[1..])
      else
        var seg := p.byUpstream.at[u];
        var rest := CloseOthers(p.(byUpstream := p.byUpstream.Put(u, seg.(open := false)),
                                   pendingStops := p.pendingStops + {u}), current, keys[1..]);
        rest.(out := [BlockStop(seg.down)] + rest.out)
  }

  /** `_allocate_new_segment`. */
  function Allocate(p: Policy, upstream: int, lastStart: ContentBlock): Policy {
    p.(nextIndex := p.nextIndex + 1, byUpstream := p.byUpstream.Put(upstream, Segment(p.nextIndex, true, lastStart)))
  }

  function PassStart(p: Policy, thinking: bool, index: int, block: ContentBlock): Passed {
    if DropsBlock(thinking, block) then Passed(p.(dropped := p.dropped + {index}), [])
    else
      var closed := CloseOthers(p, index, p.byUpstream.keys);
      Passed(Allocate(closed.p, index, block), closed.out + [BlockStart(p.nextIndex, block)])
  }

  function PassDelta(p: Policy, thinking: bool, index: int, delta: Delta): Passed {
    if index in p.dropped || DropsDelta(thinking, delta) then Passed(p, [])
    else if delta.OtherDelta? then Passed(p, [BlockDelta(index, delta)])
    else if index in p.byUpstream.at then
      var seg := p.byUpstream.at[index];
      if seg.open then Passed(p, [BlockDelta(seg.down, delta)])
      else
        Passed(Allocate(p.(pendingStops := p.pendingStops - {index}), index, seg.lastStart),
               [BlockStart(p.nextIndex, SyntheticStart(delta, index, seg.lastStart)), BlockDelta(p.nextIndex, delta)])
    else if delta.TextDelta? || delta.InputJsonDelta? then
      var block := SyntheticStart(delta, index, TextBlock(""));
      Passed(Allocate(p, index, block), [BlockStart(p.nextIndex, block), BlockDelta(p.nextIndex, delta)])
    else Passed(p, [BlockDelta(index, delta)])
  }

  function PassStop(p: Policy, thinking: bool, index: int): Passed {
    if index in p.dropped then Passed(p, [])
    else if index in p.pendingStops then Passed(p.(pendingStops := p.pendingStops - {index}), [])
    else if index in p.byUpstream.at then
      var seg := p.byUpstream.at[index];
      if seg.open then Passed(p.(byUpstream := p.byUpstream.Put(index, seg.(open := false))), [BlockStop(seg.down)])
      else Passed(p, [])
    else Passed(p, if thinking then [BlockStop(index)] else [])
  }

  /** `transform_native_sse_block_event`. */
  function Transform(p: Policy, thinking: bool, e: Event): Passed {
    match e
    case BlockStart(index, block) => PassStart(p, thinking, index, block)
    case BlockDelta(index, delta) => PassDelta(p, thinking, index, delta)
    case BlockStop(index) => PassStop(p, thinking, index)
    case _ => Passed(p, [e])
  }

  /** A whole stream through the policy. */
  function Repair(thinking: bool, es: seq<Event>): Passed {
    if es == [] then Passed(NewPolicy, [])
    else
      var before := Repair(thinking, es[..|es| - 1]);
      var last := Transform(before.p, thinking, es[|es| - 1]);
      Passed(last.p, before.out + last.out)
  }

  // ----- the policy's state between the two streams -----

  predicate IsOpen(p: Policy, u: int) {
    u in p.byUpstream.at && p.byUpstream.at[u].open
  }

  /** An open upstream block is dropped, or its current segment is open downstream under the same
      type, or the segment was closed early and one upstream stop is still to be swallowed. */
  predicate Carried(p: Policy, thinking: bool, u: int, storage: Storage, down: map<int, Storage>) {
    u in p.dropped ||
    (&& u in p.byUpstream.at
     && StorageOf(p.byUpstream.at[u].lastStart) == storage
     && (!thinking ==> storage != ThinkingStream)
     && (p.byUpstream.at[u].open <==> u !in p.pendingStops)
     && (p.byUpstream.at[u].open ==> p.byUpstream.at[u].down in down && down[p.byUpstream.at[u].down] == storage))
  }

  /** The downstream blocks open are the current open segments, one block each. */
  ghost predicate Mirrors(p: Policy, down: map<int, Storage>) {
    && (forall u :: IsOpen(p, u) ==> p.byUpstream.at[u].down in down)
    && (forall u, v :: IsOpen(p, u) && IsOpen(p, v) && u != v ==> p.byUpstream.at[u].down != p.byUpstream.at[v].down)
    && (forall d :: d in down ==> exists u :: IsOpen(p, u) && p.byUpstream.at[u].down == d)
  }

  ghost predicate Simulates(p: Policy, thinking: bool, up: Check, down: Check) {
    && p.byUpstream.Valid()
    && up.open.Keys <= up.seen
    && down.ok && down.open.Keys <= down.seen
    && (forall d :: d in down.seen <==> 0 <= d < p.nextIndex)
    && Mirrors(p, down.open)
    && (forall u :: u in up.open ==> Carried(p, thinking, u, up.open[u], down.open))
    && (forall u :: u in p.byUpstream.at ==> u in up.seen && u !in p.dropped)
    && (forall u :: u in p.dropped ==> u in up.seen)
    && (forall u :: IsOpen(p, u) || u in p.pendingStops ==> u in up.open)
    && p.pendingStops <= p.byUpstream.at.Keys
  }

  lemma NewSimulates(thinking: bool)
    ensures Simulates(NewPolicy, thinking, Fresh, Fresh)
  {
  }

  // ----- each event keeps the simulation -----

  /** One early close. */
  lemma CloseOneSimulates(p: Policy, thinking: bool, up: Check, down: Check, u: int)
    requires Simulates(p, thinking, up, down) && IsOpen(p, u)
    ensures var seg := p.byUpstream.at[u];
            Simulates(p.(byUpstream := p.byUpstream.Put(u, seg.(open := false)), pendingStops := p.pendingStops + {u}),
                      thinking, up, Step(down, BlockStop(seg.down)))
  {
    var seg := p.byUpstream.at[u];
    var p' := p.(byUpstream := p.byUpstream.Put(u, seg.(open := false)), pendingStops := p.pendingStops + {u});
    var down' := Step(down, BlockStop(seg.down));
    assert Carried(p, thinking, u, up.open[u], down.open);
    assert forall v :: IsOpen(p', v) <==> IsOpen(p, v) && v != u;
    ClosedMirrors(p, down.open, u, p');
    forall v | v in up.open ensures Carried(p', thinking, v, up.open[v], down'.open) {
      assert Carried(p, thinking, v, up.open[v], down.open);
      if v != u && v in p.byUpstream.at && p.byUpstream.at[v].open {
        assert IsOpen(p, v);
      }
    }
  }

  lemma ClosedMirrors(p: Policy, down: map<int, Storage>, u: int, p': Policy)
    requires Mirrors(p, down) && IsOpen(p, u)
    requires forall v :: IsOpen(p', v) <==> IsOpen(p, v) && v != u
    requires forall v :: IsOpen(p', v) ==> p'.byUpstream.at[v].down == p.byUpstream.at[v].down
    ensures Mirrors(p', down - {p.byUpstream.at[u].down})
  {
    forall d | d in down && d != p.byUpstream.at[u].down ensures exists v :: IsOpen(p', v) && p'.byUpstream.at[v].down == d {
      var v :| IsOpen(p, v) && p.byUpstream.at[v].down == d;
      assert IsOpen(p', v);
    }
  }

  /** Exactly the other open segments among `keys` are closed. */
  lemma {:induction false} CloseOthersCloses(p: Policy, current: int, keys: seq<int>)
    ensures var r := CloseOthers(p, current, keys);
            && r.p.nextIndex == p.nextIndex && r.p.dropped == p.dropped && r.p.byUpstream.keys == p.byUpstream.keys
            && r.p.byUpstream.at.Keys == p.byUpstream.at.Keys
            && (forall u :: IsOpen(r.p, u) <==> IsOpen(p, u) && (u == current || u !in keys))
            && (forall e :: e in r.out ==> e.BlockStop?)
    decreases |keys|
  {
    if keys != [] {
      var u := keys[0];
      assert forall v :: v in keys <==> v == u || v in keys[1..];
      if u == current || !IsOpen(p, u) {
        CloseOthersCloses(p, current, keys[1..]);
      } else {
        var p' := p.(byUpstream := p.byUpstream.Put(u, p.byUpstream.at[u].(open := false)), pendingStops := p.pendingStops + {u});
        CloseOthersCloses(p', current, keys[1..]);
        assert forall v :: IsOpen(p', v) <==> IsOpen(p, v) && v != u;
      }
    }
  }

  lemma {:induction false} CloseOthersSimulates(p: Policy, thinking: bool, up: Check, down: Check, current: int, keys: seq<int>)
    requires Simulates(p, thinking, up, down)
    ensures var r := CloseOthers(p, current, keys);
            Simulates(r.p, thinking, up, Run(down, r.out)) && Run(down, r.out).seen == down.seen
    decreases |keys|
  {
    if keys != [] {
      var u := keys[0];
      if u == current || !IsOpen(p, u) {
        CloseOthersSimulates(p, thinking, up, down, current, keys[1..]);
      } else {
        var seg := p.byUpstream.at[u];
        var p' := p.(byUpstream := p.byUpstream.Put(u, seg.(open := false)), pendingStops := p.pendingStops + {u});
        CloseOneSimulates(p, thinking, up, down, u);
        CloseOthersSimulates(p', thinking, up, Step(down, BlockStop(seg.down)), current, keys[1..]);
        RunConcat(down, [BlockStop(seg.down)], CloseOthers(p', current, keys[1..]).out);
        RunOne(down, BlockStop(seg.down));
      }
    }
  }

  /** A new segment for an upstream block that has none open. */
  lemma AllocateMirrors(p: Policy, down: map<int, Storage>, u: int, block: ContentBlock, storage: Storage)
    requires Mirrors(p, down) && !IsOpen(p, u) && p.nextIndex !in down
    ensures Mirrors(Allocate(p, u, block), down[p.nextIndex := storage])
  {
    var p' := Allocate(p, u, block);
    assert forall v :: IsOpen(p', v) <==> IsOpen(p, v) || v == u;
    assert forall v :: IsOpen(p, v) ==> p.byUpstream.at[v].down in down ==> p.byUpstream.at[v].down != p.nextIndex;
    assert IsOpen(p', u) && p'.byUpstream.at[u].down == p.nextIndex;
    forall d | d in down ensures exists v :: IsOpen(p', v) && p'.byUpstream.at[v].down == d {
      var v :| IsOpen(p, v) && p.byUpstream.at[v].down == d;
      assert IsOpen(p', v);
    }
  }

  lemma StartSimulates(p: Policy, thinking: bool, up: Check, down: Check, index: int, block: ContentBlock)
    requires Simulates(p, thinking, up, down) && Step(up, BlockStart(index, block)).ok && !DropsBlock(thinking, block)
    requires forall u :: IsOpen(p, u) ==> u == index
    ensures Simulates(Allocate(p, index, block), thinking, Step(up, BlockStart(index, block)),
                      Step(down, BlockStart(p.nextIndex, block)))
  {
    var p' := Allocate(p, index, block);
    assert !IsOpen(p, index);
    AllocateMirrors(p, down.open, index, block, StorageOf(block));
    assert forall v :: IsOpen(p', v) <==> v == index;
    forall v | v in up.open ensures Carried(p', thinking, v, up.open[v], down.open[p.nextIndex := StorageOf(block)]) {
      assert Carried(p, thinking, v, up.open[v], down.open);
    }
  }

  lemma PassStartSimulates(p: Policy, thinking: bool, up: Check, down: Check, index: int, block: ContentBlock)
    requires Simulates(p, thinking, up, down) && Step(up, BlockStart(index, block)).ok
    ensures var r := PassStart(p, thinking, index, block);
            Simulates(r.p, thinking, Step(up, BlockStart(index, block)), Run(down, r.out))
  {
    if DropsBlock(thinking, block) {
      var p' := p.(dropped := p.dropped + {index});
      assert forall v :: IsOpen(p', v) <==> IsOpen(p, v);
      forall v | v in up.open ensures Carried(p', thinking, v, up.open[v], down.open) {
        assert Carried(p, thinking, v, up.open[v], down.open);
      }
    } else {
      var closed := CloseOthers(p, index, p.byUpstream.keys);
      CloseOthersSimulates(p, thinking, up, down, index, p.byUpstream.keys);
      CloseOthersCloses(p, index, p.byUpstream.keys);
      StartSimulates(closed.p, thinking, up, Run(down, closed.out), index, block);
      RunSnoc(down, closed.out, BlockStart(p.nextIndex, block));
    }
  }

  /** Reopening gives the block a fresh index and takes back the stop that was to be swallowed. */
  lemma ReopenSimulates(p: Policy, thinking: bool, up: Check, down: Check, index: int, delta: Delta)
    requires Simulates(p, thinking, up, down) && Step(up, BlockDelta(index, delta)).ok
    requires index in p.byUpstream.at && !p.byUpstream.at[index].open
    ensures var seg := p.byUpstream.at[index];
            Simulates(Allocate(p.(pendingStops := p.pendingStops - {index}), index, seg.lastStart), thinking, up,
                      Step(Step(down, BlockStart(p.nextIndex, SyntheticStart(delta, index, seg.lastStart))),
                           BlockDelta(p.nextIndex, delta)))
  {
    var seg := p.byUpstream.at[index];
    var block := SyntheticStart(delta, index, seg.lastStart);
    var p1 := p.(pendingStops := p.pendingStops - {index});
    var p' := Allocate(p1, index, seg.lastStart);
    assert Carried(p, thinking, index, up.open[index], down.open);
    assert StorageOf(block) == up.open[index];
    assert forall v :: IsOpen(p1, v) <==> IsOpen(p, v);
    assert Mirrors(p1, down.open) by {
      forall d | d in down.open ensures exists u :: IsOpen(p1, u) && p1.byUpstream.at[u].down == d {
        var u :| IsOpen(p, u) && p.byUpstream.at[u].down == d;
        assert IsOpen(p1, u);
      }
    }
    AllocateMirrors(p1, down.open, index, seg.lastStart, StorageOf(block));
    assert forall v :: IsOpen(p', v) <==> IsOpen(p, v) || v == index;
    forall v | v in up.open ensures Carried(p', thinking, v, up.open[v], down.open[p.nextIndex := StorageOf(block)]) {
      assert Carried(p, thinking, v, up.open[v], down.open);
    }
  }

  lemma PassDeltaSimulates(p: Policy, thinking: bool, up: Check, down: Check, index: int, delta: Delta)
    requires Simulates(p, thinking, up, down) && Step(up, BlockDelta(index, delta)).ok
    ensures var r := PassDelta(p, thinking, index, delta);
            Simulates(r.p, thinking, up, Run(down, r.out))
  {
    assert Carried(p, thinking, index, up.open[index], down.open);
    if index !in p.dropped {
      var seg := p.byUpstream.at[index];
      if seg.open {
        RunOne(down, BlockDelta(seg.down, delta));
      } else {
        ReopenSimulates(p, thinking, up, down, index, delta);
        var start := BlockStart(p.nextIndex, SyntheticStart(delta, index, seg.lastStart));
        assert [start, BlockDelta(p.nextIndex, delta)] == [start] + [BlockDelta(p.nextIndex, delta)];
        RunOne(down, start);
        RunSnoc(down, [start], BlockDelta(p.nextIndex, delta));
      }
    }
  }

  lemma PassStopSimulates(p: Policy, thinking: bool, up: Check, down: Check, index: int)
    requires Simulates(p, thinking, up, down) && Step(up, BlockStop(index)).ok
    ensures var r := PassStop(p, thinking, index);
            Simulates(r.p, thinking, Step(up, BlockStop(index)), Run(down, r.out))
  {
    assert Carried(p, thinking, index, up.open[index], down.open);
    var p' := PassStop(p, thinking, index).p;
    if IsOpen(p, index) {
      var seg := p.byUpstream.at[index];
      RunOne(down, BlockStop(seg.down));
      assert forall v :: IsOpen(p', v) <==> IsOpen(p, v) && v != index;
      ClosedMirrors(p, down.open, index, p');
      StoppedCarries(p, thinking, up, down, index);
    } else {
      assert forall v :: IsOpen(p', v) <==> IsOpen(p, v);
      forall v | v in up.open && v != index ensures Carried(p', thinking, v, up.open[v], down.open) {
        assert Carried(p, thinking, v, up.open[v], down.open);
      }
    }
  }

  lemma StoppedCarries(p: Policy, thinking: bool, up: Check, down: Check, index: int)
    requires Simulates(p, thinking, up, down) && IsOpen(p, index)
    ensures var p' := p.(byUpstream := p.byUpstream.Put(index, p.byUpstream.at[index].(open := false)));
            forall v :: v in up.open && v != index ==>
              Carried(p', thinking, v, up.open[v], down.open - {p.byUpstream.at[index].down})
  {
    var p' := p.(byUpstream := p.byUpstream.Put(index, p.byUpstream.at[index].(open := false)));
    forall v | v in up.open && v != index
      ensures Carried(p', thinking, v, up.open[v], down.open - {p.byUpstream.at[index].down})
    {
      assert Carried(p, thinking, v, up.open[v], down.open);
      if v in p.byUpstream.at && p.byUpstream.at[v].open {
        assert IsOpen(p, v);
      }
    }
  }

  lemma TransformSimulates(p: Policy, thinking: bool, up: Check, down: Check, e: Event)
    requires Simulates(p, thinking, up, down) && Step(up, e).ok
    ensures var r := Transform(p, thinking, e);
            Simulates(r.p, thinking, Step(up, e), Run(down, r.out))
  {
    match e
    case BlockStart(index, block) => PassStartSimulates(p, thinking, up, down, index, block);
    case BlockDelta(index, delta) => PassDeltaSimulates(p, thinking, up, down, index, delta);
    case BlockStop(index) => PassStopSimulates(p, thinking, up, down, index);
    case _ => RunOne(down, e);
  }

  /** However the upstream blocks overlap, the repaired stream opens fresh indices 0, 1, 2, ..., sends
      deltas and stops only to open blocks, and mirrors what is still open; at any point of a stream
      whose blocks start once and take their deltas and stop while open. */
  lemma {:induction false} RepairSimulates(thinking: bool, es: seq<Event>)
    requires Run(Fresh, es).ok
    ensures Simulates(Repair(thinking, es).p, thinking, Run(Fresh, es), Run(Fresh, Repair(thinking, es).out))
  {
    if es == [] {
      NewSimulates(thinking);
    } else {
      var init, last := es[..|es| - 1], es[|es| - 1];
      RepairSimulates(thinking, init);
      var before := Repair(thinking, init);
      TransformSimulates(before.p, thinking, Run(Fresh, init), Run(Fresh, before.out), last);
      RunConcat(Fresh, before.out, Transform(before.p, thinking, last).out);
    }
  }
}
