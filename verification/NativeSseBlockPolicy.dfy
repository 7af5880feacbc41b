/** The policy's state object and its transform (core/anthropic/native_sse_block_policy.py), updated in
    place and proved equal to the policy functions. */
module NativeSseBlockPolicy {
  import opened OrderedDict
  import opened StreamContract
  import opened NativePolicy

  class NativeSseBlockPolicyState {
    var nextIndex: nat
    var byUpstream: Dict<int, Segment>
    var droppedIndexes: set<int>
    var pendingSuppressedStops: set<int>

    ghost function State(): Policy
      reads this
    {
      Policy(nextIndex, byUpstream, droppedIndexes, pendingSuppressedStops)
    }

    constructor ()
      ensures State() == NewPolicy
    {
      nextIndex, byUpstream, droppedIndexes, pendingSuppressedStops := 0, Dict([], map[]), {}, {};
    }

    method SyntheticCloseOtherOpenBlocks(current: int) returns (out: seq<Event>)
      modifies this
      ensures Passed(State(), out) == CloseOthers(old(State()), current, old(byUpstream).keys)
    {
      out := [];
      var keys := byUpstream.keys;
      for i := 0 to |keys|
        invariant var rest := CloseOthers(State(), current, keys[i..]);
                  CloseOthers(old(State()), current, keys) == rest.(out := out + rest.out)
      {
        assert keys[i..][1..] == keys[i + 1..];
        var upstream := keys[i];
        if upstream != current && upstream in byUpstream.at && byUpstream.at[upstream].open {
          var seg := byUpstream.at[upstream];
          out := out + [BlockStop(seg.down)];
          byUpstream := byUpstream.Put(upstream, seg.(open := false));
          pendingSuppressedStops := pendingSuppressedStops + {upstream};
        }
      }
    }

    method AllocateNewSegment(upstream: int, lastStart: ContentBlock) returns (index: nat)
      modifies this
      ensures index == old(nextIndex) && State() == Allocate(old(State()), upstream, lastStart)
    {
      index := nextIndex;
      nextIndex := nextIndex + 1;
      byUpstream := byUpstream.Put(upstream, Segment(index, true, lastStart));
    }

    method TransformStart(thinking: bool, index: int, block: ContentBlock) returns (out: seq<Event>)
      modifies this
      ensures Passed(State(), out) == PassStart(old(State()), thinking, index, block)
    {
      if DropsBlock(thinking, block) {
        droppedIndexes := droppedIndexes + {index};
        return [];
      }
      CloseOthersCloses(State(), index, byUpstream.keys);
      out := SyntheticCloseOtherOpenBlocks(index);
      var down := AllocateNewSegment(index, block);
      out := out + [BlockStart(down, block)];
    }

    method TransformDelta(thinking: bool, index: int, delta: Delta) returns (out: seq<Event>)
      modifies this
      ensures Passed(State(), out) == PassDelta(old(State()), thinking, index, delta)
    {
      if index in droppedIndexes {
        return [];
      }
      if DropsDelta(thinking, delta) {
        return [];
      }
      if delta.OtherDelta? {
        return [BlockDelta(index, delta)];
      }
      if index in byUpstream.at {
        var seg := byUpstream.at[index];
        if seg.open {
          return [BlockDelta(seg.down, delta)];
        }
        pendingSuppressedStops := pendingSuppressedStops - {index};
        var reopened := AllocateNewSegment(index, seg.lastStart);
        return [BlockStart(reopened, SyntheticStart(delta, index, seg.lastStart)), BlockDelta(reopened, delta)];
      }
      if delta.TextDelta? || delta.InputJsonDelta? {
        var block := SyntheticStart(delta, index, TextBlock(""));
        var started := AllocateNewSegment(index, block);
        return [BlockStart(started, block), BlockDelta(started, delta)];
      }
      return [BlockDelta(index, delta)];
    }

    method TransformStop(thinking: bool, index: int) returns (out: seq<Event>)
      modifies this
      ensures Passed(State(), out) == PassStop(old(State()), thinking, index)
    {
      if index in droppedIndexes {
        return [];
      }
      if index in pendingSuppressedStops {
        pendingSuppressedStops := pendingSuppressedStops - {index};
        return [];
      }
      if index in byUpstream.at {
        var seg := byUpstream.at[index];
        if seg.open {
          byUpstream := byUpstream.Put(index, seg.(open := false));
          return [BlockStop(seg.down)];
        }
        return [];
      }
      return if thinking then [BlockStop(index)] else [];
    }

    /** `transform_native_sse_block_event`. */
    method TransformEvent(thinking: bool, e: Event) returns (out: seq<Event>)
      modifies this
      ensures Passed(State(), out) == Transform(old(State()), thinking, e)
    {
      match e
      case BlockStart(index, block) => out := TransformStart(thinking, index, block);
      case BlockDelta(index, delta) => out := TransformDelta(thinking, index, delta);
      case BlockStop(index) => out := TransformStop(thinking, index);
      case _ => out := [e];
    }
  }
}
