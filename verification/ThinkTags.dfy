/** The streaming parser of think tags (core/anthropic/thinking.py), against a reference that reads the
    whole text at once. */
module ThinkTags {
  import opened OrderedDict
  import SseFraming

  const OPEN_TAG := "<think>"
  const CLOSE_TAG := "</think>"

  datatype ContentType = Text | Thinking

  datatype ContentChunk = ContentChunk(kind: ContentType, content: string)

  // ----- the reference -----

  /** A text is a row of characters, shown as text or as thinking, and of tags. */
  datatype Piece = Shown(kind: ContentType, c: char) | Tag(tag: string)

  function Mode(inside: bool): ContentType {
    if inside then Thinking else Text
  }

  /** One pass over the whole text: outside, `<think>` opens and a stray `</think>` is dropped; inside,
      only `</think>` is a tag. */
  function Scan(s: string, inside: bool): seq<Piece>
    decreases |s|
  {
    if s == "" then []
    else if CLOSE_TAG <= s then [Tag(CLOSE_TAG)] + Scan(s[|CLOSE_TAG|..], false)
    else if !inside && OPEN_TAG <= s then [Tag(OPEN_TAG)] + Scan(s[|OPEN_TAG|..], true)
    else [Shown(Mode(inside), s[0])] + Scan(s[1..], inside)
  }

  /** What is shown of the pieces: (type, character) pairs. */
  function Visible(pieces: seq<Piece>): seq<(ContentType, char)> {
    if pieces == [] then []
    else (if pieces[0].Shown? then [(pieces[0].kind, pieces[0].c)] else []) + Visible(pieces[1..])
  }

  function Spelled(pieces: seq<Piece>): string {
    if pieces == [] then ""
    else (match pieces[0] case Shown(_, c) => [c] case Tag(tag) => tag) + Spelled(pieces[1..])
  }

  /** Only tags are removed: spelled out, the pieces are the text. */
  lemma {:induction false} ScanSpells(s: string, inside: bool)
    ensures Spelled(Scan(s, inside)) == s
    decreases |s|
  {
    if s != "" {
      var n := if CLOSE_TAG <= s then |CLOSE_TAG| else if !inside && OPEN_TAG <= s then |OPEN_TAG| else 1;
      ScanSpells(s[n..], if CLOSE_TAG <= s then false else if !inside && OPEN_TAG <= s then true else inside);
      assert s == s[..n] + s[n..];
    }
  }

  /** No tag starts in the text, whatever may follow it. */
  predicate Tagless(s: string) {
    forall i :: 0 <= i < |s| ==> s[i] != '<'
  }

  lemma {:induction false} PlainText(s: string, rest: string, inside: bool)
    requires Tagless(s)
    ensures Reference(s + rest, inside) == Pairs(if inside then Thinking else Text, s) + Reference(rest, inside)
    decreases |s|
  {
    if s == "" {
      assert s + rest == rest;
      assert Pairs(if inside then Thinking else Text, "") + Reference(rest, inside) == Reference(rest, inside);
    } else {
      assert (s + rest)[0] == s[0] && (s + rest)[1..] == s[1..] + rest;
      assert OPEN_TAG[0] == '<' && CLOSE_TAG[0] == '<';
      PlainText(s[1..], rest, inside);
      assert Pairs(if inside then Thinking else Text, s) ==
             [(if inside then Thinking else Text, s[0])] + Pairs(if inside then Thinking else Text, s[1..]);
      assert Reference(s + rest, inside) == [(if inside then Thinking else Text, s[0])] + Reference((s + rest)[1..], inside);
    }
  }

  lemma TagsTurn(rest: string)
    ensures Reference("<think>" + rest, false) == Reference(rest, true)
    ensures Reference("</think>" + rest, true) == Reference(rest, false)
  {
    var open, close := "<think>" + rest, "</think>" + rest;
    assert open[1] == 't' && CLOSE_TAG[1] == '/';
    assert open[|OPEN_TAG|..] == rest && close[|CLOSE_TAG|..] == rest;
    assert OPEN_TAG <= open && !(CLOSE_TAG <= open) && CLOSE_TAG <= close;
    assert Scan(open, false) == [Tag(OPEN_TAG)] + Scan(rest, true);
    assert Scan(close, true) == [Tag(CLOSE_TAG)] + Scan(rest, false);
  }

  /** What stands between the tags is thinking, and what stands outside is text. */
  lemma ThinkingIsBetween(before: string, between: string, after: string)
    requires Tagless(before) && Tagless(between) && Tagless(after)
    ensures Reference(before + ("<think>" + (between + ("</think>" + after))), false) ==
            Pairs(Text, before) + (Pairs(Thinking, between) + Pairs(Text, after))
  {
    PlainText(before, "<think>" + (between + ("</think>" + after)), false);
    TagsTurn(between + ("</think>" + after));
    PlainText(between, "</think>" + after, true);
    TagsTurn(after);
    PlainText(after, "", false);
    assert after + "" == after && Reference("", false) == [];
  }

  function Pairs(kind: ContentType, s: string): seq<(ContentType, char)> {
    seq(|s|, i requires 0 <= i < |s| => (kind, s[i]))
  }

  /** The pairs of the chunks a parser yields. */
  function PairsOf(chunks: seq<ContentChunk>): seq<(ContentType, char)> {
    if chunks == [] then []
    else
      var last := chunks[|chunks| - 1];
      PairsOf(chunks[..|chunks| - 1]) + Pairs(last.kind, last.content)
  }

  function Reference(s: string, inside: bool): seq<(ContentType, char)> {
    Visible(Scan(s, inside))
  }

  // ----- where tags can be -----

  predicate TagShaped(tag: string) {
    tag != "" && tag[0] == '<' && forall k :: 0 < k < |tag| ==> tag[k] != '<'
  }

  predicate At(s: string, i: int, tag: string) {
    0 <= i <= |s| && tag <= s[i..]
  }

  /** `s.find(tag)`. */
  function Find(s: string, tag: string): (r: Option<nat>)
    ensures r.Some? ==> At(s, r.value, tag) && forall j :: 0 <= j < r.value ==> !At(s, j, tag)
    ensures r.None? ==> forall j :: !At(s, j, tag)
  {
    assert s[0..] == s;
    if tag <= s then Some(0)
    else if s == "" then None
    else
      var rest := Find(s[1..], tag);
      assert forall j :: 1 <= j <= |s| ==> s[j..] == s[1..][j - 1..];
      assert forall j :: 1 <= j ==> (At(s, j, tag) <==> At(s[1..], j - 1, tag));
      if rest.None? then None else Some(rest.value + 1)
  }

  /** `s.rfind("<")`. */
  function LastBracket(s: string): (r: Option<nat>)
    ensures r.Some? ==> r.value < |s| && s[r.value] == '<' && forall j :: r.value < j < |s| ==> s[j] != '<'
    ensures r.None? ==> forall j :: 0 <= j < |s| ==> s[j] != '<'
  {
    if s == "" then None
    else if s[|s| - 1] == '<' then Some(|s| - 1)
    else LastBracket(s[..|s| - 1])
  }

  /** The text from its last bracket on may be the start of the tag. */
  predicate MayStart(potential: string, tag: string) {
    |potential| < |tag| && potential <= tag
  }

  /** A tag in a longer text is in the text already, or the text ends in the start of it. */
  lemma TagSpans(s: string, rest: string, tag: string, j: nat)
    requires j <= |s| && At(s + rest, j, tag)
    ensures At(s, j, tag) || (|s| - j < |tag| && s[j..] <= tag && forall i :: j <= i < |s| ==> s[i] == tag[i - j])
  {
    var here := s[j..];
    assert (s + rest)[j..] == here + rest;
    assert forall i :: 0 <= i < |tag| && i < |here| ==> here[i] == (here + rest)[i] == tag[i];
  }

  /** No tag can start before a bracket that is not its own, whatever text follows. */
  lemma NoTagBeforeBracket(s: string, rest: string, k: nat, tag: string, j: nat)
    requires TagShaped(tag) && j < k < |s| && s[k] == '<' && !At(s, j, tag)
    ensures !At(s + rest, j, tag)
  {
    if At(s + rest, j, tag) {
      TagSpans(s, rest, tag, j);
    }
  }

  /** Nor anywhere in the text, if it does not end in the start of a tag. */
  lemma NoTagAtEnd(s: string, rest: string, tag: string, j: nat)
    requires TagShaped(tag) && j < |s| && !At(s, j, tag)
    requires LastBracket(s).Some? ==> !MayStart(s[LastBracket(s).value..], tag)
    ensures !At(s + rest, j, tag)
  {
    if LastBracket(s).Some? && j < LastBracket(s).value {
      NoTagBeforeBracket(s, rest, LastBracket(s).value, tag, j);
    } else if At(s + rest, j, tag) {
      TagSpans(s, rest, tag, j);
    }
  }

  /** No tag that counts here starts before position `k`. */
  predicate Plain(s: string, inside: bool, k: nat) {
    forall j :: 0 <= j < k ==> !At(s, j, CLOSE_TAG) && (inside || !At(s, j, OPEN_TAG))
  }

  lemma {:induction false} VisibleConcat(a: seq<Piece>, b: seq<Piece>)
    ensures Visible(a + b) == Visible(a) + Visible(b)
    decreases |a|
  {
    if a == [] {
      assert a + b == b;
    } else {
      assert (a + b)[1..] == a[1..] + b;
      VisibleConcat(a[1..], b);
    }
  }

  lemma CharIsShown(s: string, inside: bool)
    requires s != "" && !(CLOSE_TAG <= s) && (inside || !(OPEN_TAG <= s))
    ensures Reference(s, inside) == [(Mode(inside), s[0])] + Reference(s[1..], inside)
  {
    var c, rest := Shown(Mode(inside), s[0]), Scan(s[1..], inside);
    assert Scan(s, inside) == [c] + rest;
    assert ([c] + rest)[1..] == rest;
  }

  lemma AtTail(s: string, j: nat, tag: string)
    requires s != ""
    ensures At(s[1..], j, tag) <==> At(s, j + 1, tag)
  {
    if j + 1 <= |s| {
      assert s[1..][j..] == s[j + 1..];
    }
  }

  lemma PlainTail(s: string, inside: bool, k: nat)
    requires 0 < k <= |s| && Plain(s, inside, k)
    ensures Plain(s[1..], inside, k - 1) && !(CLOSE_TAG <= s) && (inside || !(OPEN_TAG <= s))
  {
    assert s[0..] == s;
    assert !At(s, 0, CLOSE_TAG) && (inside || !At(s, 0, OPEN_TAG));
    forall j | 0 <= j < k - 1 ensures !At(s[1..], j, CLOSE_TAG) && (inside || !At(s[1..], j, OPEN_TAG)) {
      AtTail(s, j, CLOSE_TAG);
      AtTail(s, j, OPEN_TAG);
    }
  }

  lemma PairsCons(kind: ContentType, s: string, k: nat, rest: seq<(ContentType, char)>)
    requires 0 < k <= |s|
    ensures Pairs(kind, s[..k]) + rest == [(kind, s[0])] + (Pairs(kind, s[1..][..k - 1]) + rest)
    ensures s[1..][k - 1..] == s[k..]
  {
    assert Pairs(kind, s[..k]) == [(kind, s[0])] + Pairs(kind, s[1..][..k - 1]);
  }

  /** Characters before the first tag are shown as they are. */
  lemma {:induction false} PlainIsShown(s: string, inside: bool, k: nat)
    requires k <= |s| && Plain(s, inside, k)
    ensures Reference(s, inside) == Pairs(Mode(inside), s[..k]) + Reference(s[k..], inside)
    decreases k, 1
  {
    if k == 0 {
      assert s[..0] == "" && s[0..] == s;
    } else {
      PlainStep(s, inside, k);
    }
  }

  lemma {:induction false} PlainStep(s: string, inside: bool, k: nat)
    requires 0 < k <= |s| && Plain(s, inside, k)
    ensures Reference(s, inside) == Pairs(Mode(inside), s[..k]) + Reference(s[k..], inside)
    decreases k, 0
  {
    PlainTail(s, inside, k);
    PlainIsShown(s[1..], inside, k - 1);
    CharIsShown(s, inside);
    PairsCons(Mode(inside), s, k, Reference(s[k..], inside));
  }

  /** A tag shows nothing and sets the mode. */
  lemma TagIsDropped(s: string, inside: bool, tag: string)
    requires tag == CLOSE_TAG || (tag == OPEN_TAG && !inside)
    ensures Reference(tag + s, inside) == Reference(s, tag == OPEN_TAG)
  {
    var t := tag + s;
    assert t[|tag|..] == s && tag <= t;
    assert tag == OPEN_TAG ==> t[1] == 't';
    var rest := Scan(s, tag == OPEN_TAG);
    assert Scan(t, inside) == [Tag(tag)] + rest;
    assert ([Tag(tag)] + rest)[1..] == rest;
  }

  // ----- the parser -----

  /** What one parsing step does, whatever text follows: from the old buffer and mode, it shows `out`
      and leaves the new buffer and mode. */
  ghost predicate Steps(buffer: string, inside: bool, out: seq<(ContentType, char)>, buffer': string, inside': bool) {
    forall rest :: Reference(buffer + rest, inside) == out + Reference(buffer' + rest, inside')
  }

  lemma StepsThen(b0: string, i0: bool, out: seq<(ContentType, char)>, b1: string, i1: bool,
                  more: seq<(ContentType, char)>, b2: string, i2: bool)
    requires Steps(b0, i0, out, b1, i1) && Steps(b1, i1, more, b2, i2)
    ensures Steps(b0, i0, out + more, b2, i2)
  {
    forall rest ensures Reference(b0 + rest, i0) == out + more + Reference(b2 + rest, i2) {
      assert Reference(b1 + rest, i1) == more + Reference(b2 + rest, i2);
    }
  }

  lemma EmptyStep(buffer: string, inside: bool)
    ensures Steps(buffer, inside, [], buffer, inside)
  {
    forall rest ensures Reference(buffer + rest, inside) == [] + Reference(buffer + rest, inside) {
    }
  }

  /** Characters up to `k`, where another bracket stands or the text ends without the start of a tag. */
  lemma PlainSteps(buffer: string, inside: bool, k: nat)
    requires k <= |buffer| && Plain(buffer, inside, k)
    requires if k < |buffer| then buffer[k] == '<'
             else LastBracket(buffer).Some? ==>
               && !MayStart(buffer[LastBracket(buffer).value..], CLOSE_TAG)
               && (inside || !MayStart(buffer[LastBracket(buffer).value..], OPEN_TAG))
    ensures Steps(buffer, inside, Pairs(Mode(inside), buffer[..k]), buffer[k..], inside)
  {
    forall rest ensures Reference(buffer + rest, inside) ==
                        Pairs(Mode(inside), buffer[..k]) + Reference(buffer[k..] + rest, inside)
    {
      PlainWithMore(buffer, rest, inside, k);
      PlainIsShown(buffer + rest, inside, k);
      assert (buffer + rest)[..k] == buffer[..k];
      assert (buffer + rest)[k..] == buffer[k..] + rest;
    }
  }

  lemma TagsAreShaped()
    ensures TagShaped(OPEN_TAG) && TagShaped(CLOSE_TAG)
  {
  }

  lemma PlainWithMore(buffer: string, rest: string, inside: bool, k: nat)
    requires k <= |buffer| && Plain(buffer, inside, k)
    requires if k < |buffer| then buffer[k] == '<'
             else LastBracket(buffer).Some? ==>
               && !MayStart(buffer[LastBracket(buffer).value..], CLOSE_TAG)
               && (inside || !MayStart(buffer[LastBracket(buffer).value..], OPEN_TAG))
    ensures Plain(buffer + rest, inside, k)
  {
    TagsAreShaped();
    forall j | 0 <= j < k ensures !At(buffer + rest, j, CLOSE_TAG) && (inside || !At(buffer + rest, j, OPEN_TAG)) {
      if k < |buffer| {
        NoTagBeforeBracket(buffer, rest, k, CLOSE_TAG, j);
        if !inside {
          NoTagBeforeBracket(buffer, rest, k, OPEN_TAG, j);
        }
      } else {
        NoTagAtEnd(buffer, rest, CLOSE_TAG, j);
        if !inside {
          NoTagAtEnd(buffer, rest, OPEN_TAG, j);
        }
      }
    }
  }

  lemma TagSteps(buffer: string, inside: bool, tag: string)
    requires tag <= buffer && (tag == CLOSE_TAG || (tag == OPEN_TAG && !inside))
    ensures Steps(buffer, inside, [], buffer[|tag|..], tag == OPEN_TAG)
  {
    forall rest ensures Reference(buffer + rest, inside) == [] + Reference(buffer[|tag|..] + rest, tag == OPEN_TAG) {
      TagIsDropped(buffer[|tag|..] + rest, inside, tag);
      assert buffer + rest == tag + (buffer[|tag|..] + rest);
    }
  }

  /** Plain text up to a tag, and the tag. */
  lemma UpToTagSteps(buffer: string, inside: bool, k: nat, tag: string)
    requires At(buffer, k, tag) && Plain(buffer, inside, k) && (tag == CLOSE_TAG || (tag == OPEN_TAG && !inside))
    ensures k + |tag| <= |buffer|
    ensures Steps(buffer, inside, Pairs(Mode(inside), buffer[..k]), buffer[k + |tag|..], tag == OPEN_TAG)
  {
    TagsAreShaped();
    var here := buffer[k..];
    assert here[0] == buffer[k];
    PlainSteps(buffer, inside, k);
    TagSteps(here, inside, tag);
    var shown := Pairs(Mode(inside), buffer[..k]);
    StepsThen(buffer, inside, shown, here, inside, [], here[|tag|..], tag == OPEN_TAG);
    assert shown + [] == shown;
    assert here[|tag|..] == buffer[k + |tag|..];
  }

  /** What may be held back for later: nothing, or the start of a tag that would count. */
  predicate Held(buffer: string, inside: bool) {
    buffer == "" || MayStart(buffer, CLOSE_TAG) || (!inside && MayStart(buffer, OPEN_TAG))
  }

  function Chunked(kind: ContentType, content: string): Option<ContentChunk> {
    if content == "" then None else Some(ContentChunk(kind, content))
  }

  function PairsIn(chunk: Option<ContentChunk>): seq<(ContentType, char)> {
    if chunk.None? then [] else Pairs(chunk.value.kind, chunk.value.content)
  }

  class ThinkTagParser {
    var buffer: string
    var inThinkTag: bool

    constructor ()
      ensures buffer == "" && !inThinkTag
    {
      buffer, inThinkTag := "", false;
    }

    /** No tag in sight: show all but what may be the start of one. */
    method EmitOutside() returns (chunk: Option<ContentChunk>)
      requires !inThinkTag && Plain(buffer, false, |buffer|)
      modifies this
      ensures Steps(old(buffer), false, PairsIn(chunk), buffer, false) && !inThinkTag && Held(buffer, false)
      ensures chunk.Some? ==> chunk.value.content != "" && |buffer| < |old(buffer)|
      ensures |buffer| <= |old(buffer)|
    {
      var last := LastBracket(buffer);
      if last.Some? {
        var potential := buffer[last.value..];
        if MayStart(potential, OPEN_TAG) || MayStart(potential, CLOSE_TAG) {
          PlainSteps(buffer, false, last.value);
          var emit := buffer[..last.value];
          buffer := potential;
          return Chunked(Text, emit);
        }
      }
      PlainSteps(buffer, false, |buffer|);
      assert buffer[..|buffer|] == buffer && buffer[|buffer|..] == "";
      var emit := buffer;
      buffer := "";
      return Chunked(Text, emit);
    }

    method ParseOutsideThink() returns (chunk: Option<ContentChunk>)
      requires !inThinkTag && buffer != ""
      modifies this
      ensures Steps(old(buffer), false, PairsIn(chunk), buffer, inThinkTag)
      ensures chunk.Some? ==> chunk.value.content != "" && |buffer| < |old(buffer)|
      ensures |buffer| <= |old(buffer)| && (chunk.None? && |buffer| == |old(buffer)| ==> !inThinkTag && Held(buffer, false))
    {
      var thinkStart := Find(buffer, OPEN_TAG);
      var orphanClose := Find(buffer, CLOSE_TAG);
      if orphanClose.Some? && (thinkStart.None? || orphanClose.value < thinkStart.value) {
        chunk := TakeTextUpTo(orphanClose.value, CLOSE_TAG);
        return;
      }
      if thinkStart.None? {
        chunk := EmitOutside();
        return;
      }
      chunk := TakeTextUpTo(thinkStart.value, OPEN_TAG);
    }

    /** The text before the first tag is shown, and the tag is taken off. */
    method TakeTextUpTo(k: nat, tag: string) returns (chunk: Option<ContentChunk>)
      requires !inThinkTag && (tag == OPEN_TAG || tag == CLOSE_TAG)
      requires k < |buffer| && At(buffer, k, tag) && Plain(buffer, false, k)
      modifies this
      ensures Steps(old(buffer), false, PairsIn(chunk), buffer, inThinkTag)
      ensures |buffer| < |old(buffer)| && (chunk.Some? ==> chunk.value.content != "")
    {
      UpToTagSteps(buffer, false, k, tag);
      var before := buffer[..k];
      buffer := buffer[k + |tag|..];
      inThinkTag := tag == OPEN_TAG;
      return Chunked(Text, before);
    }

    method ParseInsideThink() returns (chunk: Option<ContentChunk>)
      requires inThinkTag && buffer != ""
      modifies this
      ensures Steps(old(buffer), true, PairsIn(chunk), buffer, inThinkTag)
      ensures chunk.Some? ==> chunk.value.content != "" && |buffer| < |old(buffer)|
      ensures |buffer| <= |old(buffer)| && (chunk.None? && |buffer| == |old(buffer)| ==> inThinkTag && Held(buffer, true))
    {
      TagsAreShaped();
      var thinkEnd := Find(buffer, CLOSE_TAG);
      ghost var all := buffer;
      if thinkEnd.None? {
        var last := LastBracket(buffer);
        if last.Some? && |buffer| - last.value < |CLOSE_TAG| {
          var potential := buffer[last.value..];
          if potential <= CLOSE_TAG {
            PlainSteps(buffer, true, last.value);
            var emit := buffer[..last.value];
            buffer := potential;
            return Chunked(Thinking, emit);
          }
        }
        PlainSteps(buffer, true, |buffer|);
        var emit := buffer;
        assert all[..|all|] == all && all[|all|..] == "";
        buffer := "";
        return Chunked(Thinking, emit);
      }
      var k := thinkEnd.value;
      UpToTagSteps(buffer, true, k, CLOSE_TAG);
      var thinking := buffer[..k];
      buffer := buffer[k + |CLOSE_TAG|..];
      inThinkTag := false;
      return Chunked(Thinking, thinking);
    }

    /** `feed`: every turn takes something out of the buffer, or is the last. */
    method Feed(content: string) returns (chunks: seq<ContentChunk>)
      modifies this
      ensures Steps(old(buffer) + content, old(inThinkTag), PairsOf(chunks), buffer, inThinkTag)
      ensures Held(buffer, inThinkTag)
      ensures forall c :: c in chunks ==> c.content != ""
    {
      buffer := buffer + content;
      chunks := [];
      EmptyStep(buffer, inThinkTag);
      while buffer != ""
        invariant Steps(old(buffer) + content, old(inThinkTag), PairsOf(chunks), buffer, inThinkTag)
        invariant forall c :: c in chunks ==> c.content != ""
        decreases |buffer|
      {
        var prevLen := |buffer|;
        ghost var b, i := buffer, inThinkTag;
        var chunk;
        if !inThinkTag {
          chunk := ParseOutsideThink();
        } else {
          chunk := ParseInsideThink();
        }
        StepsThen(old(buffer) + content, old(inThinkTag), PairsOf(chunks), b, i, PairsIn(chunk), buffer, inThinkTag);
        if chunk.Some? {
          assert (chunks + [chunk.value])[..|chunks|] == chunks;
          chunks := chunks + [chunk.value];
        } else {
          assert PairsOf(chunks) + [] == PairsOf(chunks);
          if |buffer| == prevLen {
            return;
          }
        }
      }
    }

    /** `flush`. */
    method Flush() returns (chunk: Option<ContentChunk>)
      modifies this
      ensures buffer == "" && inThinkTag == old(inThinkTag)
      ensures PairsIn(chunk) == Pairs(Mode(inThinkTag), old(buffer))
      ensures chunk.None? <==> old(buffer) == ""
    {
      chunk := None;
      if buffer != "" {
        chunk := Some(ContentChunk(if inThinkTag then Thinking else Text, buffer));
        buffer := "";
      }
    }
  }

  /** What is held back holds no whole tag. */
  lemma HeldIsShown(buffer: string, inside: bool)
    requires Held(buffer, inside)
    ensures Reference(buffer, inside) == Pairs(Mode(inside), buffer)
  {
    HeldIsPlain(buffer, inside);
    PlainIsShown(buffer, inside, |buffer|);
    assert buffer[..|buffer|] == buffer && buffer[|buffer|..] == "";
    assert Scan("", inside) == [] && Visible([]) == [];
  }

  lemma HeldIsPlain(buffer: string, inside: bool)
    requires Held(buffer, inside)
    ensures Plain(buffer, inside, |buffer|)
  {
    TagsAreShaped();
    assert buffer[0..] == buffer;
    assert |buffer| == 7 ==> buffer[1] == CLOSE_TAG[1] == '/';
    assert |buffer| == 7 ==> OPEN_TAG[1] == 't';
  }

  lemma PairsOfSnoc(chunks: seq<ContentChunk>, chunk: ContentChunk)
    ensures PairsOf(chunks + [chunk]) == PairsOf(chunks) + Pairs(chunk.kind, chunk.content)
  {
    assert (chunks + [chunk])[..|chunks|] == chunks;
  }

  lemma {:induction false} PairsOfConcat(a: seq<ContentChunk>, b: seq<ContentChunk>)
    ensures PairsOf(a + b) == PairsOf(a) + PairsOf(b)
    decreases |b|
  {
    if b == [] {
      assert a + b == a;
    } else {
      var init, last := b[..|b| - 1], b[|b| - 1];
      assert a + b == (a + init) + [last] && b == init + [last];
      PairsOfSnoc(a + init, last);
      PairsOfSnoc(init, last);
      PairsOfConcat(a, init);
    }
  }

  /** The pairs `sofar` are shown, and the buffer followed by `later` shows the rest. */
  ghost predicate Remains(whole: string, sofar: seq<(ContentType, char)>, buffer: string, inside: bool, later: string) {
    Reference(whole, false) == sofar + Reference(buffer + later, inside)
  }

  lemma RemainsAfter(whole: string, sofar: seq<(ContentType, char)>, buffer: string, inside: bool, content: string,
                     later: string, more: seq<(ContentType, char)>, buffer': string, inside': bool)
    requires Remains(whole, sofar, buffer, inside, content + later)
    requires Steps(buffer + content, inside, more, buffer', inside')
    ensures Remains(whole, sofar + more, buffer', inside', later)
  {
    assert buffer + (content + later) == buffer + content + later;
    assert Reference(buffer + content + later, inside) == more + Reference(buffer' + later, inside');
  }

  lemma RemainsAtEnd(whole: string, sofar: seq<(ContentType, char)>, buffer: string, inside: bool)
    requires Remains(whole, sofar, buffer, inside, "") && Held(buffer, inside)
    ensures Reference(whole, false) == sofar + Pairs(Mode(inside), buffer)
  {
    HeldIsShown(buffer, inside);
    assert buffer + "" == buffer;
  }

  method FeedNext(parser: ThinkTagParser, content: string, ghost whole: string, ghost sofar: seq<(ContentType, char)>,
                  ghost later: string)
    returns (more: seq<ContentChunk>)
    requires Remains(whole, sofar, parser.buffer, parser.inThinkTag, content + later)
    modifies parser
    ensures Remains(whole, sofar + PairsOf(more), parser.buffer, parser.inThinkTag, later)
    ensures Held(parser.buffer, parser.inThinkTag) && forall c :: c in more ==> c.content != ""
  {
    ghost var b, i := parser.buffer, parser.inThinkTag;
    more := parser.Feed(content);
    RemainsAfter(whole, sofar, b, i, content, later, PairsOf(more), parser.buffer, parser.inThinkTag);
  }

  lemma ConcatFrom(contents: seq<string>, n: nat)
    requires n < |contents|
    ensures SseFraming.Concat(contents[n..]) == contents[n] + SseFraming.Concat(contents[n + 1..])
  {
    assert contents[n..][0] == contents[n] && contents[n..][1..] == contents[n + 1..];
  }

  /** Whatever the text and however it is cut into chunks, feeding the chunks and flushing shows exactly
      the pairs that a single pass over the whole text shows. */
  method ParseAll(contents: seq<string>) returns (chunks: seq<ContentChunk>)
    ensures PairsOf(chunks) == Reference(SseFraming.Concat(contents), false)
    ensures forall c :: c in chunks ==> c.content != ""
  {
    var parser := new ThinkTagParser();
    chunks := [];
    ghost var whole := SseFraming.Concat(contents);
    assert contents[0..] == contents && "" + whole == whole;
    for n := 0 to |contents|
      invariant Held(parser.buffer, parser.inThinkTag)
      invariant Remains(whole, PairsOf(chunks), parser.buffer, parser.inThinkTag, SseFraming.Concat(contents[n..]))
      invariant forall c :: c in chunks ==> c.content != ""
    {
      ConcatFrom(contents, n);
      var more := FeedNext(parser, contents[n], whole, PairsOf(chunks), SseFraming.Concat(contents[n + 1..]));
      PairsOfConcat(chunks, more);
      chunks := chunks + more;
    }
    RemainsAtEnd(whole, PairsOf(chunks), parser.buffer, parser.inThinkTag);
    var last := parser.Flush();
    if last.Some? {
      PairsOfSnoc(chunks, last.value);
      chunks := chunks + [last.value];
    }
  }
}
