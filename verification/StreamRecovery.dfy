/** Recovering from cut provider streams (core/anthropic/stream_recovery.py): the holdback buffer,
    the continuation suffix and the append-only tool repair. */
module StreamRecovery {
  import opened BlockState
  import opened OrderedDict
  import opened JsonTexts
  import opened StreamContract
  import Text

  const EARLY_TRANSPARENT_TOTAL_ATTEMPTS := 5
  const EARLY_TRANSPARENT_MAX_RETRIES := EARLY_TRANSPARENT_TOTAL_ATTEMPTS - 1
  const MIDSTREAM_RECOVERY_ATTEMPTS := 5
  const EARLY_HOLDBACK_SECONDS: real := 0.75
  const RECOVERY_BUFFER_MAX_BYTES := 65536

  // ----- holding events back -----

  /** Holds the first events of a stream for a moment, so that an early cut can be retried unseen. */
  class RecoveryHoldbackBuffer {
    const holdbackSeconds: real
    const maxBytes: nat
    var events: seq<Event>
    var bytes: nat
    var startedAt: Option<real>
    var committed: bool

    ghost predicate Valid()
      reads this
    {
      committed ==> events == []
    }

    /** The events `done` have been pushed, with the clock readings from number `start` on. */
    ghost predicate Held(done: seq<Event>, clock: nat -> real, size: Event -> nat, start: nat)
      reads this
    {
      && maxBytes == 65536 && holdbackSeconds == 0.75
      && (committed <==> Commits(done, clock, size, start))
      && (!committed ==> bytes == Bytes(done, size) && startedAt == if done == [] then None else Some(clock(start)))
    }

    constructor (holdbackSeconds: real := EARLY_HOLDBACK_SECONDS, maxBytes: nat := RECOVERY_BUFFER_MAX_BYTES)
      ensures Valid() && !committed && events == [] && bytes == 0 && startedAt == None
      ensures this.holdbackSeconds == holdbackSeconds && this.maxBytes == maxBytes
    {
      this.holdbackSeconds := holdbackSeconds;
      this.maxBytes := maxBytes;
      events, bytes, startedAt, committed := [], 0, None, false;
    }

    /** `started` and `later` are the two clock readings, `size` the encoded length. What comes out
        and what stays held are together what was held, then `event`. */
    method Push(event: Event, size: nat, started: real, later: real) returns (out: seq<Event>)
      requires Valid()
      modifies this
      ensures Valid()
      ensures out + events == old(events) + [event]
      ensures old(committed) ==> committed
      ensures committed <==>
              old(committed) || old(bytes) + size >= maxBytes ||
              later - (if old(startedAt).Some? then old(startedAt).value else started) >= holdbackSeconds
      ensures committed ==> events == []
      ensures !committed ==> out == [] && bytes == old(bytes) + size &&
                             startedAt == Some(if old(startedAt).Some? then old(startedAt).value else started)
    {
      if committed {
        return [event];
      }
      if startedAt.None? {
        startedAt := Some(started);
      }
      events := events + [event];
      bytes := bytes + size;
      if bytes >= maxBytes || later - startedAt.value >= holdbackSeconds {
        out := Flush();
      } else {
        out := [];
      }
    }

    method Flush() returns (out: seq<Event>)
      requires Valid()
      modifies this
      ensures Valid() && committed && events == []
      ensures out == old(events)
      ensures !old(committed) ==> bytes == 0 && startedAt == None
    {
      if committed {
        return [];
      }
      committed := true;
      out := events;
      events, bytes, startedAt := [], 0, None;
    }

    method Discard()
      requires Valid()
      modifies this
      ensures Valid() && committed == old(committed)
      ensures events == [] && bytes == 0 && startedAt == None
    {
      events, bytes, startedAt := [], 0, None;
    }
  }

  /** How many bytes the events have. */
  function Bytes(events: seq<Event>, size: Event -> nat): nat {
    if events == [] then 0 else Bytes(events[..|events| - 1], size) + size(events[|events| - 1])
  }

  /** The first events of a stream are shown before it ends: with one of them, they are 65536 bytes or more,
      or 0.75 seconds have passed since the first. Each event takes two clock readings, from number
      `start` on. */
  predicate Commits(events: seq<Event>, clock: nat -> real, size: Event -> nat, start: nat) {
    events != [] &&
    (|| Commits(events[..|events| - 1], clock, size, start)
     || Bytes(events, size) >= 65536
     || clock(start + 2 * |events| - 1) - clock(start) >= 0.75)
  }

  /** A buffer as the transports make it. */
  method NewHoldback(ghost clock: nat -> real, ghost size: Event -> nat, ghost start: nat) returns (holdback: RecoveryHoldbackBuffer)
    ensures fresh(holdback) && holdback.Valid() && !holdback.committed && holdback.events == []
    ensures holdback.Held([], clock, size, start)
  {
    holdback := new RecoveryHoldbackBuffer();
  }

  lemma HeldSnoc(events: seq<Event>, e: Event, clock: nat -> real, size: Event -> nat, start: nat)
    ensures Bytes(events + [e], size) == Bytes(events, size) + size(e)
    ensures Commits(events + [e], clock, size, start) <==>
            || Commits(events, clock, size, start) || Bytes(events + [e], size) >= 65536
            || clock(start + 2 * |events| + 1) - clock(start) >= 0.75
  {
    assert (events + [e])[..|events|] == events;
  }

  /** Push one event, after the events `done`. */
  method HoldEvent(holdback: RecoveryHoldbackBuffer, e: Event, clock: nat -> real, size: Event -> nat, ticks: nat,
                   ghost done: seq<Event>, ghost start: nat)
    returns (out: seq<Event>)
    requires holdback.Valid() && holdback.Held(done, clock, size, start) && ticks == start + 2 * |done|
    modifies holdback
    ensures holdback.Valid() && holdback.Held(done + [e], clock, size, start)
    ensures out + holdback.events == old(holdback.events) + [e]
    ensures !holdback.committed ==> out == []
    ensures old(holdback.committed) ==> holdback.committed
  {
    HeldSnoc(done, e, clock, size, start);
    out := holdback.Push(e, size(e), clock(ticks), clock(ticks + 1));
  }

  /** Push events through the holdback buffer, two clock readings each. */
  method HoldEvents(holdback: RecoveryHoldbackBuffer, events: seq<Event>, clock: nat -> real, size: Event -> nat, ticks: nat,
                    ghost done: seq<Event>, ghost start: nat)
    returns (shown: seq<Event>, ticks': nat)
    requires holdback.Valid() && holdback.Held(done, clock, size, start) && ticks == start + 2 * |done|
    modifies holdback
    ensures holdback.Valid() && holdback.Held(done + events, clock, size, start) && ticks' == start + 2 * |done + events|
    ensures shown + holdback.events == old(holdback.events) + events
    ensures !holdback.committed ==> shown == []
    ensures old(holdback.committed) ==> holdback.committed
    ensures holdback.committed && !old(holdback.committed) ==> events != []
  {
    shown, ticks' := [], ticks;
    ghost var sofar := done;
    for i := 0 to |events|
      invariant holdback.Valid() && holdback.Held(sofar, clock, size, start)
      invariant sofar == done + events[..i] && ticks' == start + 2 * |sofar|
      invariant shown + holdback.events == old(holdback.events) + events[..i]
      invariant !holdback.committed ==> shown == []
      invariant old(holdback.committed) ==> holdback.committed
      invariant holdback.committed && !old(holdback.committed) ==> i > 0
    {
      ghost var before := holdback.events;
      var out := HoldEvent(holdback, events[i], clock, size, ticks', sofar, start);
      ConcatAssoc(shown, out, holdback.events);
      ConcatAssoc(shown, before, [events[i]]);
      ConcatAssoc(old(holdback.events), events[..i], [events[i]]);
      ConcatAssoc(done, events[..i], [events[i]]);
      sofar := sofar + [events[i]];
      shown := shown + out;
      ticks' := ticks' + 2;
      assert events[..i + 1] == events[..i] + [events[i]];
    }
    assert events[..|events|] == events;
  }

  // ----- continuing a text -----

  function Max(a: int, b: int): int {
    if a > b then a else b
  }

  /** The first `k` characters of the candidate are the last of the existing text. */
  predicate Overlaps(existing: string, candidate: string, k: nat) {
    k <= |candidate| && Text.EndsWith(existing, candidate[..k])
  }

  /** The longest overlap of at most `size` characters. */
  function LongestOverlap(existing: string, candidate: string, size: nat): (k: nat)
    requires size <= |existing| && size <= |candidate|
    ensures k <= size && Overlaps(existing, candidate, k)
    ensures forall j :: k < j <= size ==> !Overlaps(existing, candidate, j)
  {
    if size == 0 || Overlaps(existing, candidate, size) then size else LongestOverlap(existing, candidate, size - 1)
  }

  /** `continuation_suffix`. */
  function ContinuationSuffix(existing: string, candidate: string): Option<string> {
    if candidate == "" then Some("")
    else if existing == "" then Some(candidate)
    else if existing <= candidate then Some(candidate[|existing|..])
    else
      var k := LongestOverlap(existing, candidate, if |existing| <= |candidate| then |existing| else |candidate|);
      if k > 0 then Some(candidate[k..])
      else if |candidate| < Max(200, |existing| / 2) then Some(candidate)
      else None
  }

  /** The new text, if a continuation has any. */
  function Continued(existing: string, candidate: string): string {
    var suffix := ContinuationSuffix(existing, candidate);
    if suffix.Some? then suffix.value else ""
  }

  method ComputeContinuationSuffix(existing: string, candidate: string) returns (r: Option<string>)
    ensures r == ContinuationSuffix(existing, candidate)
  {
    if candidate == "" {
      return Some("");
    }
    if existing == "" {
      return Some(candidate);
    }
    if existing <= candidate {
      return Some(candidate[|existing|..]);
    }
    var maxOverlap := if |existing| <= |candidate| then |existing| else |candidate|;
    var size := maxOverlap;
    while size > 0
      invariant 0 <= size <= maxOverlap
      invariant LongestOverlap(existing, candidate, maxOverlap) == LongestOverlap(existing, candidate, size)
    {
      if Text.EndsWith(existing, candidate[..size]) {
        return Some(candidate[size..]);
      }
      size := size - 1;
    }
    if |candidate| < Max(200, |existing| / 2) {
      return Some(candidate);
    }
    return None;
  }

  predicate IsLongestOverlap(existing: string, candidate: string, k: nat) {
    Overlaps(existing, candidate, k) && forall j: nat :: k < j <= |candidate| ==> !Overlaps(existing, candidate, j)
  }

  /** A suffix drops exactly the longest prefix of the candidate that ends the existing text, the
      fast path for a repeated text included; nothing comes back only for a long candidate with no
      overlap at all. */
  lemma ContinuationDropsLongestOverlap(existing: string, candidate: string)
    ensures var r := ContinuationSuffix(existing, candidate);
            && (r.Some? ==> exists k: nat :: IsLongestOverlap(existing, candidate, k) && r.value == candidate[k..])
            && (r.None? <==> IsLongestOverlap(existing, candidate, 0) && existing != "" &&
                             |candidate| >= Max(200, |existing| / 2))
  {
    assert Text.EndsWith(existing, candidate[..0]);
    assert Overlaps(existing, candidate, 0);
    if candidate == "" || existing == "" {
      assert IsLongestOverlap(existing, candidate, 0);
      assert candidate[0..] == candidate;
    } else if existing <= candidate {
      assert candidate[..|existing|] == existing;
      assert Overlaps(existing, candidate, |existing|);
      assert IsLongestOverlap(existing, candidate, |existing|);
    } else {
      var size := if |existing| <= |candidate| then |existing| else |candidate|;
      var k := LongestOverlap(existing, candidate, size);
      assert IsLongestOverlap(existing, candidate, k);
      assert candidate[0..] == candidate;
    }
  }

  /** The client's text then ends with the whole candidate. */
  lemma ContinuationEndsWithCandidate(existing: string, candidate: string)
    requires ContinuationSuffix(existing, candidate).Some?
    ensures Text.EndsWith(existing + ContinuationSuffix(existing, candidate).value, candidate)
  {
    ContinuationDropsLongestOverlap(existing, candidate);
    var r := ContinuationSuffix(existing, candidate).value;
    var k: nat :| IsLongestOverlap(existing, candidate, k) && r == candidate[k..];
    var whole := existing + r;
    assert existing[|existing| - k..] == candidate[..k];
    assert whole[|whole| - |candidate|..] == existing[|existing| - k..] + r;
    assert candidate == candidate[..k] + candidate[k..];
  }

  /** Replaying text that was already shown adds nothing. */
  lemma ReplayAddsNothing(existing: string, candidate: string)
    requires Text.EndsWith(existing, candidate)
    ensures ContinuationSuffix(existing, candidate) == Some("")
  {
    assert candidate[..|candidate|] == candidate;
    assert Overlaps(existing, candidate, |candidate|);
    ContinuationDropsLongestOverlap(existing, candidate);
  }

  // ----- completing a tool call's JSON -----

  const FENCE := "```"

  /** `_repair_suffix_candidates` (duplicates do not change which one is accepted). */
  function RepairCandidates(prefix: string, candidate: string): seq<string> {
    var stripped := Text.Strip(candidate);
    if stripped == "" then []
    else
      var raw := if FENCE <= stripped then Unfence(stripped) else stripped;
      [raw] + if prefix <= raw then [raw[|prefix|..]] else []
  }

  /** The text between the Markdown fences. */
  function Unfence(raw: string): string {
    var lines := Text.SplitLines(raw);
    var tail := if lines != [] && FENCE <= lines[0] then lines[1..] else lines;
    var body := if tail != [] && Text.Strip(tail[|tail| - 1]) == FENCE then tail[..|tail| - 1] else tail;
    Text.Strip(Text.Join("\n", body))
  }

  /** `accept_tool_json_repair`: the first candidate that completes the prefix. */
  function AcceptRepair(json: Json, prefix: string, candidate: string, name: string): (r: Option<string>)
    ensures r.Some? ==> json.Complete(prefix + r.value, name) && r.value in RepairCandidates(prefix, candidate)
    ensures r.None? ==> forall suffix :: suffix in RepairCandidates(prefix, candidate) ==> !json.Complete(prefix + suffix, name)
  {
    var suffixes := RepairCandidates(prefix, candidate);
    if |suffixes| > 0 && json.Complete(prefix + suffixes[0], name) then Some(suffixes[0])
    else if |suffixes| > 1 && json.Complete(prefix + suffixes[1], name) then Some(suffixes[1])
    else None
  }

  /** The answers to the repair requests, by tool index and attempt. */
  type RepairAnswers = (int, nat) -> Option<string>

  datatype RepairResult = Raised | GaveUp | Suffix(text: string)

  /** Up to five repair requests for one tool. */
  function TryRepair(json: Json, prefix: string, name: string, t: int, repairs: RepairAnswers, attempt: nat): RepairResult
    decreases MIDSTREAM_RECOVERY_ATTEMPTS - attempt
  {
    if attempt >= MIDSTREAM_RECOVERY_ATTEMPTS then GaveUp
    else
      match repairs(t, attempt)
      case None => Raised
      case Some(text) =>
        var accepted := AcceptRepair(json, prefix, text, name);
        if accepted.Some? then Suffix(accepted.value) else TryRepair(json, prefix, name, t, repairs, attempt + 1)
  }

  /** The repair requests for one tool, at most five. */
  method RequestRepair(json: Json, prefix: string, name: string, t: int, repairs: RepairAnswers) returns (result: RepairResult)
    ensures result == TryRepair(json, prefix, name, t, repairs, 0)
  {
    var attempt := 0;
    while attempt < MIDSTREAM_RECOVERY_ATTEMPTS
      invariant 0 <= attempt <= MIDSTREAM_RECOVERY_ATTEMPTS
      invariant TryRepair(json, prefix, name, t, repairs, 0) == TryRepair(json, prefix, name, t, repairs, attempt)
    {
      var text := repairs(t, attempt);
      if text.None? {
        return Raised;
      }
      var accepted := AcceptRepair(json, prefix, text.value, name);
      if accepted.Some? {
        return Suffix(accepted.value);
      }
      attempt := attempt + 1;
    }
    return GaveUp;
  }

  lemma {:induction false} TryRepairCompletes(json: Json, prefix: string, name: string, t: int, repairs: RepairAnswers, attempt: nat)
    requires TryRepair(json, prefix, name, t, repairs, attempt).Suffix?
    ensures json.Complete(prefix + TryRepair(json, prefix, name, t, repairs, attempt).text, name)
    decreases MIDSTREAM_RECOVERY_ATTEMPTS - attempt
  {
    if AcceptRepair(json, prefix, repairs(t, attempt).value, name).None? {
      TryRepairCompletes(json, prefix, name, t, repairs, attempt + 1);
    }
  }

  /** How a repair request turns out. */
  datatype Reply = NoAnswer | Useless | Completing

  function ReplyTo(json: Json, prefix: string, name: string, answer: Option<string>): Reply {
    match answer
    case None => NoAnswer
    case Some(text) => if AcceptRepair(json, prefix, text, name).Some? then Completing else Useless
  }

  /** The replies to the repair requests for one tool, were all of them made. */
  function Replies(json: Json, prefix: string, name: string, t: int, repairs: RepairAnswers): seq<Reply> {
    seq(MIDSTREAM_RECOVERY_ATTEMPTS, attempt requires 0 <= attempt => ReplyTo(json, prefix, name, repairs(t, attempt)))
  }

  /** Reply `n` is the first from `k` on that matters: it completes, and no request before it fails. */
  predicate FoundAt(replies: seq<Reply>, k: nat, n: int) {
    k <= n < |replies| && replies[n].Completing? && forall m :: k <= m < n ==> !replies[m].NoAnswer?
  }

  ghost predicate Found(replies: seq<Reply>, k: nat) {
    exists n :: FoundAt(replies, k, n)
  }

  /** One of the repair requests is answered, as are those before it, with something that completes the
      prefix. */
  ghost predicate RepairFound(json: Json, prefix: string, name: string, t: int, repairs: RepairAnswers) {
    Found(Replies(json, prefix, name, t, repairs), 0)
  }

  lemma FoundStep(replies: seq<Reply>, k: nat)
    requires k < |replies|
    ensures Found(replies, k) <==> replies[k].Completing? || (replies[k].Useless? && Found(replies, k + 1))
  {
    assert replies[k].Completing? ==> FoundAt(replies, k, k);
    var next := k + 1;
    if n :| FoundAt(replies, k, n) {
      assert n > k ==> FoundAt(replies, next, n);
    }
    if n :| FoundAt(replies, next, n) {
      assert replies[k].Useless? ==> FoundAt(replies, k, n);
    }
  }

  lemma TryRepairStep(json: Json, prefix: string, name: string, t: int, repairs: RepairAnswers, attempt: nat)
    ensures TryRepair(json, prefix, name, t, repairs, attempt).Suffix? <==>
            attempt < MIDSTREAM_RECOVERY_ATTEMPTS &&
            var reply := ReplyTo(json, prefix, name, repairs(t, attempt));
            reply.Completing? || (reply.Useless? && TryRepair(json, prefix, name, t, repairs, attempt + 1).Suffix?)
  {
  }

  lemma {:induction false} RepairIsFoundFrom(json: Json, prefix: string, name: string, t: int, repairs: RepairAnswers, attempt: nat)
    requires attempt <= MIDSTREAM_RECOVERY_ATTEMPTS
    ensures TryRepair(json, prefix, name, t, repairs, attempt).Suffix? <==> Found(Replies(json, prefix, name, t, repairs), attempt)
    decreases MIDSTREAM_RECOVERY_ATTEMPTS - attempt
  {
    TryRepairStep(json, prefix, name, t, repairs, attempt);
    if attempt < MIDSTREAM_RECOVERY_ATTEMPTS {
      FoundStep(Replies(json, prefix, name, t, repairs), attempt);
      RepairIsFoundFrom(json, prefix, name, t, repairs, attempt + 1);
    }
  }

  lemma RepairIsFound(json: Json, prefix: string, name: string, t: int, repairs: RepairAnswers)
    ensures TryRepair(json, prefix, name, t, repairs, 0).Suffix? <==> RepairFound(json, prefix, name, t, repairs)
  {
    RepairIsFoundFrom(json, prefix, name, t, repairs, 0);
  }
}
