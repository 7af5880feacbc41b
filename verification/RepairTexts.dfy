/** Which answers to a repair request are taken, whatever white space and Markdown come around them
    (core/anthropic/stream_recovery.py, `accept_tool_json_repair`). */
module RepairTexts {
  import opened OrderedDict
  import opened StreamContract
  import opened JsonTexts
  import opened StreamRecovery
  import opened Text

  /** The answer is `w` with nothing but white space around it. */
  predicate SaysPlainly(answer: string, a: string, w: string, b: string) {
    answer == a + w + b && Blank(a) && Blank(b) && w != "" && NoOuterSpace(w) && !(FENCE <= w)
  }

  /** The answer is `w` between Markdown fences, the first with a language perhaps, white space aside. */
  predicate SaysFenced(answer: string, a: string, info: string, c: string, w: string, d: string, b: string) {
    && answer == a + (FENCE + info + "\n" + (c + w + d + "\n" + FENCE)) + b
    && Blank(a) && OneLine(info) && Blank(c) && w != "" && NoOuterSpace(w) && Blank(d) && Blank(b)
  }

  /** What the answer says; line breaks between fences are read as line feeds. */
  ghost predicate Says(answer: string, w: string) {
    || (exists a, b :: SaysPlainly(answer, a, w, b))
    || (exists a, info, c, body, d, b :: SaysFenced(answer, a, info, c, body, d, b) && w == Newlined(body))
  }

  // ----- the fences come off -----

  lemma FenceIsALine(info: string)
    requires OneLine(info)
    ensures OneLine(FENCE + info) && OneLine(FENCE) && Strip(FENCE) == FENCE && NoOuterSpace(FENCE)
    ensures FENCE <= FENCE + info
  {
    assert forall i :: 0 <= i < 3 ==> FENCE[i] == '`';
    StripShort(FENCE);
  }

  lemma FencedLines(info: string, body: string)
    requires OneLine(info)
    ensures SplitLines(FENCE + info + "\n" + (body + "\n" + FENCE)) ==
            [FENCE + info] + (SplitLines(body + "\n") + [FENCE])
  {
    FenceIsALine(info);
    SplitFirst(FENCE + info, body + "\n" + FENCE);
    SplitLast(body + "\n", FENCE);
  }

  lemma UnfencedIs(info: string, body: string)
    requires OneLine(info)
    ensures Unfence(FENCE + info + "\n" + (body + "\n" + FENCE)) == Strip(Join("\n", SplitLines(body + "\n")))
  {
    var raw := FENCE + info + "\n" + (body + "\n" + FENCE);
    var inner := SplitLines(body + "\n");
    FencedLines(info, body);
    FenceIsALine(info);
    var lines := SplitLines(raw);
    assert lines[0] == FENCE + info && lines[1..] == inner + [FENCE];
    assert (inner + [FENCE])[..|inner + [FENCE]| - 1] == inner;
  }

  /** A body of white space, a text and white space, with its breaks written as line feeds. */
  lemma BodyIs(c: string, w: string, d: string)
    requires Blank(c) && Blank(d) && w != "" && NoOuterSpace(w)
    ensures Strip(Join("\n", SplitLines(c + w + d + "\n"))) == Newlined(w)
    ensures Newlined(w) != "" && NoOuterSpace(Newlined(w))
  {
    var s := c + w + d + "\n";
    var joined := Join("\n", SplitLines(s));
    BreaksAreSpace(w[0]);
    JoinedLines(s);
    NewlinedConcat(c, w);
    BodyBreaks(c + w, d);
    NewlinedBlank(c);
    NewlinedBlank(d + "\n");
    NewlinedNoOuterSpace(w);
    assert joined + "\n" == Newlined(c) + Newlined(w) + Newlined(d + "\n");
    StripPadded(Newlined(c), Newlined(w), Newlined(d + "\n"));
    SameStripped(joined, "\n");
  }

  lemma BodyBreaks(cw: string, d: string)
    requires cw != "" && !IsSpace(cw[|cw| - 1])
    ensures Newlined(cw + d + "\n") == Newlined(cw) + Newlined(d + "\n")
  {
    assert cw + d + "\n" == cw + (d + "\n");
    NewlinedConcat(cw, d + "\n");
  }

  /** White space after a text makes no difference once it is stripped. */
  lemma SameStripped(s: string, b: string)
    requires Blank(b)
    ensures Strip(s + b) == Strip(s)
  {
    var a, w, c := StrippedParts(s);
    StripPadded(a, w, c);
    assert s + b == a + w + (c + b);
    StripPadded(a, w, c + b);
  }

  /** A text is its stripped form between white space. */
  lemma StrippedParts(s: string) returns (a: string, w: string, b: string)
    ensures s == a + w + b && Blank(a) && Blank(b) && NoOuterSpace(w)
  {
    var i := LStripParts(s);
    var rest := s[i..];
    var j := RStripParts(rest);
    a, w, b := s[..i], rest[..j], rest[j..];
  }

  lemma {:induction false} LStripParts(s: string) returns (i: nat)
    ensures i <= |s| && Blank(s[..i]) && (i < |s| ==> !IsSpace(s[i]))
    decreases |s|
  {
    i := 0;
    if s != "" && IsSpace(s[0]) {
      var k := LStripParts(s[1..]);
      i := k + 1;
      assert s[..i] == [s[0]] + s[1..][..k];
    }
  }

  lemma {:induction false} RStripParts(s: string) returns (j: nat)
    ensures j <= |s| && Blank(s[j..]) && (j > 0 ==> !IsSpace(s[j - 1]))
    decreases |s|
  {
    j := |s|;
    if s != "" && IsSpace(s[|s| - 1]) {
      var init := s[..|s| - 1];
      j := RStripParts(init);
      assert s[j..] == init[j..] + [s[|s| - 1]];
    }
  }

  // ----- what is taken -----

  lemma CandidatesAre(prefix: string, answer: string, w: string)
    requires Says(answer, w)
    ensures RepairCandidates(prefix, answer) == [w] + if prefix <= w then [w[|prefix|..]] else []
  {
    if a, b :| SaysPlainly(answer, a, w, b) {
      StripPadded(a, w, b);
    } else {
      var a, info, c, body, d, b :| SaysFenced(answer, a, info, c, body, d, b) && w == Newlined(body);
      var core := FENCE + info + "\n" + (c + body + d + "\n" + FENCE);
      CoreIsStripped(info, c + body + d);
      StripPadded(a, core, b);
      UnfencedIs(info, c + body + d);
      BodyIs(c, body, d);
    }
  }

  lemma CoreIsStripped(info: string, body: string)
    ensures var core := FENCE + info + "\n" + (body + "\n" + FENCE);
            NoOuterSpace(core) && FENCE <= core && core != ""
  {
    var core := FENCE + info + "\n" + (body + "\n" + FENCE);
    assert core[0] == FENCE[0] && core[|core| - 1] == FENCE[2];
    assert core[..3] == FENCE;
  }

  /** An answer is taken exactly when what it says completes the prefix, or repeats it and is complete;
      and what is taken is what it says, or what is left of that after the prefix. */
  lemma AnswerIsTaken(json: Json, prefix: string, answer: string, w: string, name: string)
    requires Says(answer, w)
    ensures var r := AcceptRepair(json, prefix, answer, name);
            && (r.Some? <==> json.Complete(prefix + w, name) || (prefix <= w && json.Complete(w, name)))
            && (json.Complete(prefix + w, name) ==> r == Some(w))
            && (r.Some? ==> r.value == w || prefix + r.value == w)
  {
    CandidatesAre(prefix, answer, w);
    if prefix <= w {
      assert prefix + w[|prefix|..] == w;
    }
  }

  /** An answer of white space says nothing, and is not taken. */
  lemma BlankIsNotTaken(json: Json, prefix: string, answer: string, name: string)
    requires Blank(answer)
    ensures AcceptRepair(json, prefix, answer, name).None?
  {
    assert answer == answer + "" + "";
    StripPadded(answer, "", "");
  }

  /** A text whose only line breaks are line feeds is said between fences as it is. */
  lemma FencedSays(a: string, info: string, c: string, w: string, d: string, b: string)
    requires Blank(a) && OneLine(info) && Blank(c) && w != "" && NoOuterSpace(w) && Blank(d) && Blank(b) && LineFeedsOnly(w)
    ensures Says(a + (FENCE + info + "\n" + (c + w + d + "\n" + FENCE)) + b, w)
  {
    NewlinedSame(w);
    assert SaysFenced(a + (FENCE + info + "\n" + (c + w + d + "\n" + FENCE)) + b, a, info, c, w, d, b);
  }

  /** What is said completes the prefix, or repeats it and is complete. */
  predicate Fits(json: Json, prefix: string, w: string, name: string) {
    json.Complete(prefix + w, name) || (prefix <= w && json.Complete(w, name))
  }

  /** A repair is found exactly when one of the five requests is answered with what fits, and neither it
      nor one before it fails. */
  lemma SaidIsFound(json: Json, prefix: string, name: string, t: int, repairs: RepairAnswers, said: nat -> string)
    requires forall m: nat :: m < 5 && repairs(t, m).Some? ==> Says(repairs(t, m).value, said(m))
    ensures TryRepair(json, prefix, name, t, repairs, 0).Suffix? <==>
            exists n: nat :: n < 5 && Fits(json, prefix, said(n), name) && forall m: nat :: m <= n ==> repairs(t, m).Some?
  {
    var replies := Replies(json, prefix, name, t, repairs);
    RepairIsFound(json, prefix, name, t, repairs);
    forall m: nat | m < 5 && repairs(t, m).Some?
      ensures replies[m].Completing? <==> Fits(json, prefix, said(m), name)
    {
      AnswerIsTaken(json, prefix, repairs(t, m).value, said(m), name);
    }
    assert forall m: nat :: m < 5 ==> (replies[m].NoAnswer? <==> repairs(t, m).None?);
    if n :| FoundAt(replies, 0, n) {
      assert Fits(json, prefix, said(n), name);
    }
    if n: nat :| n < 5 && Fits(json, prefix, said(n), name) && forall m: nat :: m <= n ==> repairs(t, m).Some? {
      assert FoundAt(replies, 0, n);
    }
  }
}
