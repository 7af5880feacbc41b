/** Server-sent-event framing: printing events, and reading them back from text cut anywhere
    (core/anthropic/sse.py, emitted_sse_tracker.py, stream_contracts.py). */
module SseFraming {
  import opened OrderedDict
  import opened StreamContract
  import Text

  /** An event as text: its name and its data payload. */
  datatype Raw = Raw(name: string, data: string)

  // ----- printing -----

  /** `format_sse_event`, given the printed payload. */
  function Print(r: Raw): string {
    Body(r) + "\n\n"
  }

  /** A printed event without the blank line that ends it. */
  function Body(r: Raw): string {
    "event:" + " " + r.name + "\n" + ("data:" + " " + r.data)
  }

  function PrintAll(rs: seq<Raw>): string {
    if rs == [] then "" else Print(rs[0]) + PrintAll(rs[1..])
  }

  /** A text on one line, without white space at its ends: what `json.dumps` prints, and every event
      name. */
  predicate OneLine(s: string) {
    Text.Strip(s) == s && Unbroken(s)
  }

  predicate Unbroken(s: string) {
    forall i :: 0 <= i < |s| ==> !Text.IsLineBreak(s[i])
  }

  predicate Printable(r: Raw) {
    OneLine(r.name) && OneLine(r.data)
  }

  // ----- reading -----

  predicate BreakAt(s: string, i: int) {
    0 <= i < |s| - 1 && s[i] == '\n' && s[i + 1] == '\n'
  }

  /** The position of the first blank line's two line feeds. */
  function FindBreak(s: string): (r: Option<nat>)
    ensures r.Some? ==> BreakAt(s, r.value) && forall i :: 0 <= i < r.value ==> !BreakAt(s, i)
    ensures r.None? ==> forall i :: !BreakAt(s, i)
  {
    if |s| < 2 then None
    else if BreakAt(s, 0) then Some(0)
    else
      var rest := FindBreak(s[1..]);
      assert forall i :: 1 <= i ==> (BreakAt(s, i) <==> BreakAt(s[1..], i - 1));
      if rest.None? then None else Some(rest.value + 1)
  }

  /** The loop state of `parse_sse_lines`. */
  datatype Lines = Lines(name: string, data: seq<string>, events: seq<Raw>)

  /** `_append_event`: nothing without a name or a data line. */
  function Append(l: Lines): seq<Raw> {
    if l.name == "" && l.data == [] then l.events else l.events + [Raw(l.name, Text.Join("\n", l.data))]
  }

  function ReadLine(l: Lines, line: string): Lines {
    if line == "" then Lines("", [], Append(l))
    else if "event:" <= line then l.(name := Text.Strip(line[6..]))
    else if "data:" <= line then l.(data := l.data + [Text.Strip(line[5..])])
    else l
  }

  function ReadLines(l: Lines, lines: seq<string>): Lines
    decreases |lines|
  {
    if lines == [] then l else ReadLines(ReadLine(l, lines[0]), lines[1..])
  }

  /** The events of one frame; lines come from `splitlines`, so they end in no line break. */
  function ParseFrame(frame: string): seq<Raw> {
    if Text.Strip(frame) == "" then [] else Append(ReadLines(Lines("", [], []), Text.SplitLines(frame)))
  }

  function ParseFrames(frames: seq<string>): seq<Raw> {
    if frames == [] then [] else ParseFrame(frames[0]) + ParseFrames(frames[1..])
  }

  /** What is left in the buffer, and the complete frames taken out of it. */
  datatype Fed = Fed(rest: string, frames: seq<string>)

  function Prepend(frames: seq<string>, fed: Fed): Fed {
    fed.(frames := frames + fed.frames)
  }

  function Drain(s: string): Fed
    decreases |s|
  {
    match FindBreak(s)
    case None => Fed(s, [])
    case Some(i) =>
      Prepend([s[..i]], Drain(s[i + 2..]))
  }

  /** Feeding chunks one by one, each after what the last left over. */
  function FeedChunks(buffer: string, chunks: seq<string>): Fed
    decreases |chunks|
  {
    if chunks == [] then Fed(buffer, [])
    else
      var first := Drain(buffer + chunks[0]);
      Prepend(first.frames, FeedChunks(first.rest, chunks[1..]))
  }

  function Concat(chunks: seq<string>): string {
    if chunks == [] then "" else chunks[0] + Concat(chunks[1..])
  }

  // ----- cutting the text anywhere changes nothing -----

  lemma FindBreakExtends(a: string, b: string)
    requires FindBreak(a).Some?
    ensures FindBreak(a + b) == FindBreak(a)
  {
    var i := FindBreak(a).value;
    var t := a + b;
    assert forall k :: 0 <= k < |a| ==> t[k] == a[k];
    assert forall k :: 0 <= k < |a| - 1 ==> (BreakAt(t, k) <==> BreakAt(a, k));
    assert BreakAt(a, i) && BreakAt(t, i);
    assert forall k :: 0 <= k < i ==> !BreakAt(a, k);
  }

  lemma DrainUnroll(a: string, i: nat)
    requires FindBreak(a) == Some(i)
    ensures Drain(a) == Prepend([a[..i]], Drain(a[i + 2..]))
  {
  }

  lemma DrainNothing(a: string)
    requires FindBreak(a).None?
    ensures Drain(a) == Fed(a, [])
  {
  }

  lemma PrependTwice(first: seq<string>, second: seq<string>, fed: Fed)
    ensures Prepend(first, Prepend(second, fed)) == Prepend(first + second, fed)
    ensures Prepend([], fed) == fed
  {
    assert first + (second + fed.frames) == (first + second) + fed.frames;
  }

  /** Reading a text in two pieces takes out the same frames and leaves the same rest. */
  lemma {:induction false} DrainInTwo(a: string, b: string)
    ensures Drain(a + b) == Prepend(Drain(a).frames, Drain(Drain(a).rest + b))
    decreases |a|, 1
  {
    var find := FindBreak(a);
    if find.None? {
      DrainNothing(a);
      PrependTwice([], [], Drain(a + b));
    } else {
      DrainInTwoStep(a, b, find.value);
    }
  }

  lemma {:induction false} DrainInTwoStep(a: string, b: string, i: nat)
    requires FindBreak(a) == Some(i)
    ensures Drain(a + b) == Prepend(Drain(a).frames, Drain(Drain(a).rest + b))
    decreases |a|, 0
  {
    FindBreakExtends(a, b);
    var tail, frame := a[i + 2..], a[..i];
    DrainInTwo(tail, b);
    assert (a + b)[i + 2..] == tail + b && (a + b)[..i] == frame;
    DrainUnroll(a, i);
    DrainUnroll(a + b, i);
    PrependTwice([frame], Drain(tail).frames, Drain(Drain(tail).rest + b));
  }

  lemma FeedUnroll(buffer: string, chunk: string, chunks: seq<string>)
    ensures FeedChunks(buffer, [chunk] + chunks) ==
            Prepend(Drain(buffer + chunk).frames, FeedChunks(Drain(buffer + chunk).rest, chunks))
  {
    assert ([chunk] + chunks)[1..] == chunks;
  }

  /** Whatever the text and however it is cut into chunks, feeding the chunks takes out the frames of
      the whole text, and the buffer left over holds no complete frame. */
  lemma {:induction false} ChunkingIsInvisible(buffer: string, chunks: seq<string>)
    requires FindBreak(buffer).None?
    ensures FeedChunks(buffer, chunks) == Drain(buffer + Concat(chunks))
    ensures FindBreak(FeedChunks(buffer, chunks).rest).None?
    decreases |chunks|
  {
    if chunks == [] {
      assert buffer + "" == buffer;
      DrainNothing(buffer);
    } else {
      var text, rest := buffer + chunks[0], Drain(buffer + chunks[0]).rest;
      DrainLeavesNoFrame(text);
      ChunkingIsInvisible(rest, chunks[1..]);
      FeedUnroll(buffer, chunks[0], chunks[1..]);
      DrainInTwo(text, Concat(chunks[1..]));
      ConcatAssoc(buffer, chunks[0], Concat(chunks[1..]));
      assert chunks == [chunks[0]] + chunks[1..];
    }
  }

  lemma {:induction false} DrainLeavesNoFrame(s: string)
    ensures FindBreak(Drain(s).rest).None?
    decreases |s|
  {
    if FindBreak(s).Some? {
      DrainUnroll(s, FindBreak(s).value);
      DrainLeavesNoFrame(s[FindBreak(s).value + 2..]);
    }
  }

  // ----- reading back what was printed -----

  function Bodies(rs: seq<Raw>): seq<string> {
    if rs == [] then [] else [Body(rs[0])] + Bodies(rs[1..])
  }

  lemma LineLengthIs(s: string, n: nat)
    requires n <= |s| && forall i :: 0 <= i < n ==> !Text.IsLineBreak(s[i])
    requires n < |s| ==> Text.IsLineBreak(s[n])
    ensures Text.LineLength(s) == n
  {
    assert forall i :: 0 <= i < Text.LineLength(s) ==> !Text.IsLineBreak(s[i]);
  }

  lemma SplitLine(first: string, rest: string)
    requires Unbroken(first)
    ensures Text.SplitLines(first + "\n" + rest) == [first] + Text.SplitLines(rest)
  {
    var t := first + "\n" + rest;
    assert forall i :: 0 <= i < |first| ==> t[i] == first[i];
    assert t[|first|] == '\n';
    LineLengthIs(t, |first|);
    assert t[..|first|] == first && t[|first| + 1..] == rest;
  }

  lemma SplitOneLine(line: string)
    requires line != "" && Unbroken(line)
    ensures Text.SplitLines(line) == [line]
  {
    LineLengthIs(line, |line|);
  }

  lemma {:induction false} RStripKeepsInk(s: string)
    requires s != "" && !IsSpace(s[0])
    ensures Text.RStrip(s) != ""
  {
    if |s| > 1 {
      RStripKeepsInk(s[..|s| - 1]);
    }
  }

  lemma StripOneSpace(s: string)
    ensures Text.Strip(" " + s) == Text.Strip(s)
  {
    var t := " " + s;
    assert IsSpace(t[0]) && t[1..] == s;
  }

  lemma FieldLine(l: Lines, field: string, value: string)
    requires Text.Strip(value) == value
    ensures field == "event:" ==> ReadLine(l, field + " " + value) == l.(name := value)
    ensures field == "data:" ==> ReadLine(l, field + " " + value) == l.(data := l.data + [value])
  {
    var line := field + " " + value;
    assert line[|field|..] == " " + value && line[..|field|] == field;
    assert field != "" ==> line[0] == field[0];
    StripOneSpace(value);
  }

  lemma JoinUnbroken(a: string, b: string)
    requires Unbroken(a) && Unbroken(b)
    ensures Unbroken(a + b)
  {
  }

  lemma TwoLinesSplit(first: string, second: string)
    requires Unbroken(first) && Unbroken(second) && second != "" && first != "" && !IsSpace(first[0])
    ensures Text.SplitLines(first + "\n" + second) == [first] + [second]
    ensures Text.Strip(first + "\n" + second) != ""
  {
    SplitLine(first, second);
    SplitOneLine(second);
    InkAtStart(first + "\n" + second);
  }

  lemma BodyIsTwoLines(r: Raw)
    requires Printable(r)
    ensures Text.SplitLines(Body(r)) == ["event:" + " " + r.name] + ["data:" + " " + r.data]
    ensures Text.Strip(Body(r)) != ""
  {
    JoinUnbroken("event:" + " ", r.name);
    JoinUnbroken("data:" + " ", r.data);
    TwoLinesSplit("event:" + " " + r.name, "data:" + " " + r.data);
  }

  lemma InkAtStart(s: string)
    requires s != "" && !IsSpace(s[0])
    ensures Text.Strip(s) != ""
  {
    RStripKeepsInk(s);
  }

  lemma PrintedBodyParses(r: Raw)
    requires Printable(r)
    ensures ParseFrame(Body(r)) == [r]
  {
    BodyIsTwoLines(r);
    var start := Lines("", [], []);
    FieldLine(start, "event:", r.name);
    FieldLine(start.(name := r.name), "data:", r.data);
    TwoLines(start, "event:" + " " + r.name, "data:" + " " + r.data);
  }

  lemma TwoLines(l: Lines, first: string, second: string)
    ensures ReadLines(l, [first] + [second]) == ReadLine(ReadLine(l, first), second)
  {
    var lines := [first] + [second];
    assert lines[1..] == [second] && [second][1..] == [];
    assert ReadLines(ReadLine(l, first), [second]) == ReadLine(ReadLine(l, first), second);
  }

  lemma BreakAfterTwoLines(first: string, second: string, rest: string)
    requires Unbroken(first) && Unbroken(second) && second != ""
    ensures FindBreak(first + "\n" + second + "\n\n" + rest) == Some(|first + "\n" + second|)
  {
    var n := |first|;
    var body := first + "\n" + second;
    var t := body + "\n\n" + rest;
    assert forall i :: 0 <= i < n ==> body[i] == first[i];
    assert forall i :: n < i < |body| ==> body[i] == second[i - n - 1];
    assert forall i :: 0 <= i < |body| ==> t[i] == body[i];
    assert BreakAt(t, |body|);
    assert forall i :: 0 <= i < |body| ==> !BreakAt(t, i);
  }

  lemma PrintedBreak(r: Raw, rest: string)
    requires Printable(r)
    ensures FindBreak(Print(r) + rest) == Some(|Body(r)|)
  {
    JoinUnbroken("event:" + " ", r.name);
    JoinUnbroken("data:" + " ", r.data);
    BreakAfterTwoLines("event:" + " " + r.name, "data:" + " " + r.data, rest);
  }

  lemma DrainFrame(body: string, rest: string)
    requires FindBreak(body + "\n\n" + rest) == Some(|body|)
    ensures Drain(body + "\n\n" + rest) == Prepend([body], Drain(rest))
  {
    var t := body + "\n\n" + rest;
    DrainUnroll(t, |body|);
    assert t[..|body|] == body && t[|body| + 2..] == rest;
  }

  lemma {:induction false} PrintedDrains(rs: seq<Raw>, rest: string)
    requires forall k :: 0 <= k < |rs| ==> Printable(rs[k])
    ensures Drain(PrintAll(rs) + rest) == Prepend(Bodies(rs), Drain(rest))
    decreases |rs|
  {
    if rs == [] {
      assert PrintAll(rs) + rest == rest;
      PrependTwice([], [], Drain(rest));
    } else {
      var body, tail := Body(rs[0]), PrintAll(rs[1..]);
      PrintedBreak(rs[0], tail + rest);
      PrintedDrains(rs[1..], rest);
      DrainFrame(body, tail + rest);
      ConcatAssoc(body + "\n\n", tail, rest);
      PrependTwice([body], Bodies(rs[1..]), Drain(rest));
    }
  }

  lemma {:induction false} BodiesParse(rs: seq<Raw>)
    requires forall k :: 0 <= k < |rs| ==> Printable(rs[k])
    ensures ParseFrames(Bodies(rs)) == rs
    decreases |rs|
  {
    if rs != [] {
      PrintedBodyParses(rs[0]);
      BodiesParse(rs[1..]);
      assert Bodies(rs)[0] == Body(rs[0]) && Bodies(rs)[1..] == Bodies(rs[1..]);
    }
  }

  /** Printing events, joining the text, cutting it anywhere and feeding the pieces reads back exactly
      those events and leaves the buffer empty. */
  lemma PrintedStreamReadsBack(rs: seq<Raw>, chunks: seq<string>)
    requires forall k :: 0 <= k < |rs| ==> Printable(rs[k])
    requires Concat(chunks) == PrintAll(rs)
    ensures FeedChunks("", chunks).rest == ""
    ensures ParseFrames(FeedChunks("", chunks).frames) == rs
  {
    ChunkingIsInvisible("", chunks);
    assert "" + Concat(chunks) == PrintAll(rs) == PrintAll(rs) + "";
    PrintedDrains(rs, "");
    assert Drain("") == Fed("", []);
    assert Bodies(rs) + [] == Bodies(rs);
    BodiesParse(rs);
  }

  // ----- the loops themselves -----

  /** `parse_sse_lines`. */
  method ParseSseLines(lines: seq<string>) returns (events: seq<Raw>)
    ensures events == Append(ReadLines(Lines("", [], []), lines))
  {
    events := [];
    var currentEvent, dataParts := "", [];
    for n := 0 to |lines|
      invariant ReadLines(Lines("", [], []), lines) == ReadLines(Lines(currentEvent, dataParts, events), lines[n..])
    {
      assert lines[n..][0] == lines[n] && lines[n..][1..] == lines[n + 1..];
      var line := lines[n];
      if line == "" {
        if currentEvent != "" || dataParts != [] {
          events := events + [Raw(currentEvent, Text.Join("\n", dataParts))];
        }
        currentEvent, dataParts := "", [];
      } else if "event:" <= line {
        currentEvent := Text.Strip(line[6..]);
      } else if "data:" <= line {
        dataParts := dataParts + [Text.Strip(line[5..])];
      }
    }
    if currentEvent != "" || dataParts != [] {
      events := events + [Raw(currentEvent, Text.Join("\n", dataParts))];
    }
  }
}
