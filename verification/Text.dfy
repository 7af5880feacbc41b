/** The few Python string operations the stream code relies on. */
module Text {
  import opened OrderedDict
  import opened StreamContract

  function LStrip(s: string): string {
    if s == "" || !IsSpace(s[0]) then s else LStrip(s[1..])
  }

  function RStrip(s: string): string {
    if s == "" || !IsSpace(s[|s| - 1]) then s else RStrip(s[..|s| - 1])
  }

  /** `s.strip()`. */
  function Strip(s: string): string {
    RStrip(LStrip(s))
  }

  predicate NoOuterSpace(s: string) {
    s != "" ==> !IsSpace(s[0]) && !IsSpace(s[|s| - 1])
  }

  lemma {:induction false} RStripShort(s: string)
    ensures RStrip(s) <= s
    ensures RStrip(s) == s <==> s == "" || !IsSpace(s[|s| - 1])
    decreases |s|
  {
    if s != "" && IsSpace(s[|s| - 1]) {
      RStripShort(s[..|s| - 1]);
    }
  }

  lemma {:induction false} LStripShort(s: string)
    ensures |LStrip(s)| <= |s|
    ensures LStrip(s) == s <==> s == "" || !IsSpace(s[0])
    decreases |s|
  {
    if s != "" && IsSpace(s[0]) {
      LStripShort(s[1..]);
    }
  }

  lemma StripShort(s: string)
    ensures |Strip(s)| <= |s|
    ensures Strip(s) == s <==> NoOuterSpace(s)
  {
    LStripShort(s);
    RStripShort(LStrip(s));
  }

  predicate Blank(s: string) {
    forall i :: 0 <= i < |s| ==> IsSpace(s[i])
  }

  lemma {:induction false} LStripPadded(a: string, s: string)
    requires Blank(a) && (s != "" ==> !IsSpace(s[0]))
    ensures LStrip(a + s) == s
    decreases |a|
  {
    if a != "" {
      assert (a + s)[0] == a[0] && (a + s)[1..] == a[1..] + s;
      LStripPadded(a[1..], s);
    } else {
      assert a + s == s;
    }
  }

  lemma {:induction false} RStripPadded(s: string, b: string)
    requires Blank(b) && (s != "" ==> !IsSpace(s[|s| - 1]))
    ensures RStrip(s + b) == s
    decreases |b|
  {
    if b != "" {
      var init := b[..|b| - 1];
      assert (s + b)[|s + b| - 1] == b[|b| - 1] && (s + b)[..|s + b| - 1] == s + init;
      RStripPadded(s, init);
    } else {
      assert s + b == s;
    }
  }

  /** White space around a text is all that is taken off. */
  lemma StripPadded(a: string, w: string, b: string)
    requires Blank(a) && Blank(b) && NoOuterSpace(w)
    ensures Strip(a + w + b) == w
  {
    if w == "" {
      assert Blank(a + b) && a + w + b == a + b && a + b + "" == a + b;
      LStripPadded(a + b, "");
    } else {
      assert a + w + b == a + (w + b) && (w + b)[0] == w[0];
      LStripPadded(a, w + b);
      RStripPadded(w, b);
    }
  }

  /** The characters `str.splitlines` breaks at. */
  predicate IsLineBreak(c: char) {
    var n := c as int;
    10 <= n <= 13 || 28 <= n <= 30 || n == 133 || n == 0x2028 || n == 0x2029
  }

  /** The length of the first line, without its break. */
  function LineLength(s: string): (n: nat)
    ensures n <= |s|
    ensures forall i :: 0 <= i < n ==> !IsLineBreak(s[i])
    ensures n < |s| ==> IsLineBreak(s[n])
  {
    if s == "" || IsLineBreak(s[0]) then 0 else 1 + LineLength(s[1..])
  }

  /** `s.splitlines()`; a carriage return and the line feed after it are one break. */
  function SplitLines(s: string): seq<string>
    decreases |s|
  {
    if s == "" then []
    else
      var n := LineLength(s);
      if n == |s| then [s]
      else
        var next := if s[n] == '\r' && n + 1 < |s| && s[n + 1] == '\n' then n + 2 else n + 1;
        [s[..n]] + SplitLines(s[next..])
  }

  /** `sep.join(parts)`. */
  function Join(sep: string, parts: seq<string>): string {
    if parts == [] then "" else if |parts| == 1 then parts[0] else parts[0] + sep + Join(sep, parts[1..])
  }

  predicate EndsWith(s: string, tail: string) {
    |tail| <= |s| && s[|s| - |tail|..] == tail
  }

  // ----- lines and line breaks -----

  /** How many characters the line break at the start of `s` has. */
  function BreakLength(s: string): nat
    requires s != ""
  {
    if s[0] == '\r' && |s| > 1 && s[1] == '\n' then 2 else 1
  }

  /** What the first character of `s` becomes when line breaks are written as line feeds. */
  function FirstNewlined(s: string): string
    requires s != ""
  {
    if BreakLength(s) == 2 then "" else if IsLineBreak(s[0]) then "\n" else [s[0]]
  }

  /** The text with every line break written as a line feed. */
  function Newlined(s: string): string {
    if s == "" then "" else FirstNewlined(s) + Newlined(s[1..])
  }

  predicate OneLine(s: string) {
    forall i :: 0 <= i < |s| ==> !IsLineBreak(s[i])
  }

  lemma {:induction false} LineLengthIs(line: string, rest: string)
    requires OneLine(line) && (rest != "" ==> IsLineBreak(rest[0]))
    ensures LineLength(line + rest) == |line|
    decreases |line|
  {
    if line != "" {
      assert (line + rest)[0] == line[0] && (line + rest)[1..] == line[1..] + rest;
      LineLengthIs(line[1..], rest);
    } else {
      assert line + rest == rest;
    }
  }

  lemma SplitFirst(line: string, rest: string)
    requires OneLine(line)
    ensures SplitLines(line + "\n" + rest) == [line] + SplitLines(rest)
  {
    var all := line + "\n" + rest;
    assert all == line + ("\n" + rest);
    LineLengthIs(line, "\n" + rest);
    assert all[|line|] == '\n' && all[..|line|] == line && all[|line| + 1..] == rest;
  }

  lemma SplitOne(line: string)
    requires OneLine(line) && line != ""
    ensures SplitLines(line) == [line]
  {
    LineLengthIs(line, "");
    assert line + "" == line;
  }

  lemma {:induction false} NewlinedLine(line: string, rest: string)
    requires OneLine(line)
    ensures Newlined(line + rest) == line + Newlined(rest)
    decreases |line|
  {
    if line != "" {
      assert (line + rest)[0] == line[0] && (line + rest)[1..] == line[1..] + rest;
      NewlinedLine(line[1..], rest);
    } else {
      assert line + rest == rest;
    }
  }

  /** A line break, whole if `rest` follows. */
  predicate IsBreak(brk: string, rest: string) {
    brk != "" && IsLineBreak(brk[0]) && BreakLength(brk + rest) == |brk|
  }

  /** A text with a line break is its first line, the break and the rest. */
  lemma FirstLine(s: string) returns (line: string, brk: string, rest: string)
    requires s != "" && s[|s| - 1] == '\n'
    ensures s == line + brk + rest && OneLine(line) && IsBreak(brk, rest)
    ensures rest != "" ==> rest[|rest| - 1] == '\n'
    ensures |rest| < |s|
  {
    var n := LineLength(s);
    assert IsLineBreak(s[|s| - 1]);
    var next := n + BreakLength(s[n..]);
    line, brk, rest := s[..n], s[n..next], s[next..];
    assert brk + rest == s[n..];
  }

  lemma SplitAt(line: string, brk: string, rest: string)
    requires OneLine(line) && IsBreak(brk, rest)
    ensures SplitLines(line + brk + rest) == [line] + SplitLines(rest)
  {
    var s := line + brk + rest;
    assert s == line + (brk + rest);
    LineLengthIs(line, brk + rest);
    assert s[|line|..] == brk + rest && s[..|line|] == line && s[|line| + |brk|..] == rest;
  }

  lemma NewlinedAt(line: string, brk: string, rest: string)
    requires OneLine(line) && IsBreak(brk, rest)
    ensures Newlined(line + brk + rest) == line + "\n" + Newlined(rest)
  {
    assert line + brk + rest == line + (brk + rest);
    NewlinedLine(line, brk + rest);
    NewlinedBreak(brk, rest);
  }

  lemma NewlinedBreak(brk: string, rest: string)
    requires IsBreak(brk, rest)
    ensures Newlined(brk + rest) == "\n" + Newlined(rest)
  {
    assert (brk + rest)[1..] == brk[1..] + rest;
    if |brk| == 2 {
      assert brk[1..] == "\n" && (brk[1..] + rest)[1..] == rest;
    } else {
      assert brk[1..] + rest == rest;
    }
  }

  lemma BreakStays(brk: string, rest: string, last: string)
    requires IsBreak(brk, rest) && OneLine(last) && last != ""
    ensures IsBreak(brk, rest + last)
  {
    assert !IsLineBreak(last[0]) && last[0] != '\n';
    assert rest != "" ==> (rest + last)[0] == rest[0];
  }

  /** A last line after a line feed. */
  lemma {:induction false} SplitLast(s: string, last: string)
    requires s != "" && s[|s| - 1] == '\n' && OneLine(last) && last != ""
    ensures SplitLines(s + last) == SplitLines(s) + [last]
    decreases |s|
  {
    var line, brk, rest := FirstLine(s);
    SplitAt(line, brk, rest);
    ConcatAssoc(line + brk, rest, last);
    assert rest + last != "" && [line] + SplitLines("") == [line];
    BreakStays(brk, rest, last);
    SplitAt(line, brk, rest + last);
    if rest != "" {
      SplitLast(rest, last);
      ConcatAssoc([line], SplitLines(rest), [last]);
    } else {
      ConcatEmpty(last);
      SplitOne(last);
    }
  }

  /** Split into lines and joined again, a text that ends with a break has every break written as a line
      feed, but for the last, which is gone. */
  lemma {:induction false} JoinedLines(s: string)
    requires s != "" && s[|s| - 1] == '\n'
    ensures SplitLines(s) != [] && Newlined(s) == Join("\n", SplitLines(s)) + "\n"
    decreases |s|
  {
    var line, brk, rest := FirstLine(s);
    SplitAt(line, brk, rest);
    NewlinedAt(line, brk, rest);
    if rest != "" {
      JoinedLines(rest);
      JoinMore(line, SplitLines(rest));
    } else {
      assert [line] + SplitLines("") == [line];
    }
  }

  lemma JoinMore(line: string, lines: seq<string>)
    requires lines != []
    ensures Join("\n", [line] + lines) == line + "\n" + Join("\n", lines)
  {
    assert ([line] + lines)[1..] == lines;
  }

  /** Breaks are read piece by piece, unless a carriage return is parted from its line feed. */
  lemma {:induction false} NewlinedConcat(a: string, b: string)
    requires a == "" || b == "" || a[|a| - 1] != '\r' || b[0] != '\n'
    ensures Newlined(a + b) == Newlined(a) + Newlined(b)
    decreases |a|
  {
    if a == "" {
      assert a + b == b;
    } else {
      assert (a + b)[1..] == a[1..] + b;
      assert |a| > 1 ==> (a + b)[1] == a[1];
      assert FirstNewlined(a + b) == FirstNewlined(a);
      NewlinedConcat(a[1..], b);
      ConcatAssoc(FirstNewlined(a), Newlined(a[1..]), Newlined(b));
    }
  }

  lemma {:induction false} NewlinedBlank(s: string)
    requires Blank(s)
    ensures Blank(Newlined(s))
    decreases |s|
  {
    if s != "" {
      NewlinedBlank(s[1..]);
    }
  }

  /** Line breaks are white space. */
  lemma BreaksAreSpace(c: char)
    ensures IsLineBreak(c) ==> IsSpace(c)
  {
  }

  lemma {:induction false} NewlinedNoOuterSpace(s: string)
    requires s != "" && NoOuterSpace(s)
    ensures Newlined(s) != "" && NoOuterSpace(Newlined(s))
    decreases |s|
  {
    var init, last := s[..|s| - 1], [s[|s| - 1]];
    BreaksAreSpace(s[0]);
    BreaksAreSpace(last[0]);
    assert s == init + last && last[1..] == "";
    NewlinedConcat(init, last);
    assert Newlined(last) == last + Newlined("");
    assert Newlined(s) == [s[0]] + Newlined(s[1..]);
  }

  /** A text whose only line breaks are line feeds. */
  predicate LineFeedsOnly(s: string) {
    forall i :: 0 <= i < |s| && IsLineBreak(s[i]) ==> s[i] == '\n'
  }

  lemma {:induction false} NewlinedSame(s: string)
    requires LineFeedsOnly(s)
    ensures Newlined(s) == s
    decreases |s|
  {
    if s != "" {
      NewlinedSame(s[1..]);
      assert s == [s[0]] + s[1..];
    }
  }
}
