/** The rule that Task calls run in the foreground (core/anthropic/sse.py, `buffer_task_args`): where in
    an OpenAI stream it holds, and when not. */
module OpenAITasks {
  import opened OrderedDict
  import opened StreamContract
  import opened BlockState
  import opened JsonTexts
  import opened ToolCalls
  import opened ToolFragments
  import opened StreamRecovery
  import opened OpenAIStream
  import opened OpenAIContract
  import opened OpenAIRecovery
  import opened OpenAIArguments
  import Text

  /** What the JSON library does: an empty text is no JSON, a text re-printed for the foreground is an
      object with run_in_background false, and so is such a text with more after it that still parses. */
  ghost predicate JsonRules(json: Json) {
    && json.parse("").NotJson?
    && (forall raw :: json.inForeground(json.foreground(raw)) && json.foreground(raw) != "")
    && (forall raw, more, name :: json.Complete(json.foreground(raw) + more, name) ==> json.inForeground(json.foreground(raw) + more))
  }

  /** The client has no arguments, or arguments that say to run in the foreground. */
  predicate Obeys(json: Json, shown: string) {
    shown == "" || json.inForeground(shown)
  }

  // ----- tools that go by the name Task -----

  /** The tool goes by exactly the name Task from its start and whenever arguments come for it. */
  ghost predicate HeldBack(frags: seq<Fragment>) {
    && FirstName(frags) == "Task"
    && forall k :: 0 <= k < |frags| && frags[k].arguments != "" && HasInk(Named(frags[..k + 1])) ==> Named(frags[..k + 1]) == "Task"
  }

  /** Its arguments are held back until they parse, and are then all that is sent, in the foreground. */
  ghost predicate SentOnce(json: Json, x: Strand) {
    && x.aliasBuffer == ""
    && if x.taskSent then x.taskBuffer == "" && exists raw :: x.shown == json.foreground(raw) else x.shown == ""
  }

  lemma TakeSendsOnce(json: Json, x: Strand, args: string)
    requires SentOnce(json, x)
    ensures SentOnce(json, Take(json, x, "Task", args))
  {
    var buffer := x.taskBuffer + args;
    assert "" + json.foreground(buffer) == json.foreground(buffer);
  }

  lemma {:induction false} HeldBackSendsOnce(json: Json, frags: seq<Fragment>)
    requires HeldBack(frags)
    ensures SentOnce(json, Assembled(json, frags))
    decreases |frags|
  {
    if frags != [] && HasInk(Named(frags)) {
      var n := |frags| - 1;
      var init, last := frags[..n], frags[n];
      assert forall k :: 0 <= k <= n ==> frags[..k] == init[..k];
      assert frags[..n + 1] == frags;
      if HasInk(Named(init)) {
        assert forall k :: 0 <= k < n ==> frags[k] == init[k];
        HeldBackSendsOnce(json, init);
        if last.arguments != "" {
          TakeSendsOnce(json, Assembled(json, init), last.arguments);
        }
      } else {
        TakeSendsOnce(json, NewStrand, Args(init));
        TakeSendsOnce(json, Take(json, NewStrand, "Task", Args(init)), last.arguments);
      }
    }
  }

  /** No fragment before the last makes the arguments JSON that is no object, which would end the stream. */
  ghost predicate ReadsOn(json: Json, frags: seq<Fragment>) {
    json.parse("").NotJson? && forall k :: 0 <= k < |frags| ==> !json.parse(Args(frags[..k])).NotObject?
  }

  /** The arguments sent are those of the first `k` fragments, which are an object. */
  predicate SentAt(json: Json, x: Strand, frags: seq<Fragment>, k: int) {
    0 <= k <= |frags| && json.parse(Args(frags[..k])).Object? && x.shown == json.foreground(Args(frags[..k]))
  }

  /** Either nothing has been sent, and all arguments are held back, or those sent were an object, and all
      there was of it. */
  ghost predicate HeldOrSent(json: Json, x: Strand, frags: seq<Fragment>) {
    if x.taskSent then x.taskBuffer == "" && exists k :: SentAt(json, x, frags, k)
    else x == NewStrand.(taskBuffer := Args(frags)) && (frags != [] && frags[|frags| - 1].arguments != "" ==> !json.parse(Args(frags)).Object?)
  }

  /** What `Take` makes of arguments that follow those held back. */
  lemma TakesAll(json: Json, held: string, args: string)
    ensures var x := Take(json, NewStrand.(taskBuffer := held), "Task", args);
            if args != "" && json.parse(held + args).Object? then x == Strand(json.foreground(held + args), "", true, "")
            else x == NewStrand.(taskBuffer := held + args)
  {
    assert "" + json.foreground(held + args) == json.foreground(held + args);
    ConcatEmpty(held);
  }

  /** One fragment more, after the start. */
  lemma LaterIsHeld(json: Json, frags: seq<Fragment>)
    requires frags != [] && HasInk(Named(frags[..|frags| - 1])) && HasInk(Named(frags))
    requires frags[|frags| - 1].arguments != "" ==> Named(frags) == "Task"
    requires HeldOrSent(json, Assembled(json, frags[..|frags| - 1]), frags[..|frags| - 1])
    ensures HeldOrSent(json, Assembled(json, frags), frags)
  {
    var init, last := frags[..|frags| - 1], frags[|frags| - 1];
    var x := Assembled(json, init);
    assert frags[..|frags|] == frags;
    ConcatEmpty(Args(init));
    if x.taskSent {
      var k :| SentAt(json, x, init, k);
      assert init[..k] == frags[..k];
      assert SentAt(json, Assembled(json, frags), frags, k);
    } else if last.arguments != "" {
      TakesAll(json, Args(init), last.arguments);
      assert json.parse(Args(frags)).Object? ==> SentAt(json, Assembled(json, frags), frags, |frags|);
    }
  }

  /** The fragment that starts the block, with what came before it. */
  lemma StartIsHeld(json: Json, frags: seq<Fragment>)
    requires frags != [] && ReadsOn(json, frags)
    requires !HasInk(Named(frags[..|frags| - 1])) && Named(frags) == "Task" && HasInk("Task")
    ensures HeldOrSent(json, Assembled(json, frags), frags)
  {
    var init, last := frags[..|frags| - 1], frags[|frags| - 1];
    assert frags[..|frags|] == frags && frags[..|init|] == init;
    assert !json.parse(Args(init)).NotObject?;
    assert "" + Args(init) == Args(init);
    TakesAll(json, "", Args(init));
    TakesAll(json, Args(init), last.arguments);
    ConcatEmpty(Args(init));
    var x := Assembled(json, frags);
    assert x.taskSent ==> SentAt(json, x, frags, |init|) || SentAt(json, x, frags, |frags|);
  }

  /** A Task's arguments are held back, all of them, until they are an object, and this is then sent, in the
      foreground, whole and once. */
  lemma {:induction false} TaskArgumentsAreSent(json: Json, frags: seq<Fragment>)
    requires HeldBack(frags) && ReadsOn(json, frags)
    ensures HeldOrSent(json, Assembled(json, frags), frags)
    decreases |frags|
  {
    FirstNameIsShort(frags);
    assert HasInk("Task") by {
      assert !IsSpace("Task"[0]);
    }
    var n := |frags| - 1;
    var init := frags[..n];
    assert forall k :: 0 <= k <= n ==> frags[..k] == init[..k];
    assert frags[..n + 1] == frags;
    if HasInk(Named(init)) {
      assert forall k :: 0 <= k < n ==> frags[k] == init[k];
      TaskArgumentsAreSent(json, init);
      LaterIsHeld(json, frags);
    } else {
      StartIsHeld(json, frags);
    }
  }

  /** From fragment `h` on, the tool is neither called Task nor aliased. */
  ghost predicate PlainFrom(json: Json, frags: seq<Fragment>, h: nat) {
    h <= |frags| && HasInk(Named(frags[..h])) && forall k :: h < k <= |frags| ==> PlainName(json, Named(frags[..k]))
  }

  lemma PlainFragmentPasses(json: Json, frags: seq<Fragment>)
    requires frags != [] && HasInk(Named(frags[..|frags| - 1])) && PlainName(json, Named(frags))
    ensures Assembled(json, frags).shown == Assembled(json, frags[..|frags| - 1]).shown + frags[|frags| - 1].arguments
  {
    NamedGrows(frags, |frags| - 1);
    ConcatEmpty(Assembled(json, frags[..|frags| - 1]).shown);
  }

  lemma ArgsSnoc(frags: seq<Fragment>, h: nat)
    requires h < |frags|
    ensures Args(frags[h..]) == Args(frags[..|frags| - 1][h..]) + frags[|frags| - 1].arguments
  {
    assert frags[h..][..|frags[h..]| - 1] == frags[..|frags| - 1][h..];
  }

  /** Arguments that come once its name is another are passed on as they are. */
  lemma {:induction false} LateArgumentsPass(json: Json, frags: seq<Fragment>, h: nat)
    requires PlainFrom(json, frags, h)
    ensures Assembled(json, frags).shown == Assembled(json, frags[..h]).shown + Args(frags[h..])
    decreases |frags|
  {
    if h == |frags| {
      assert frags[..h] == frags && frags[h..] == [];
      ConcatEmpty(Assembled(json, frags).shown);
    } else {
      var init, last := frags[..|frags| - 1], frags[|frags| - 1];
      assert forall k :: 0 <= k <= |init| ==> frags[..k] == init[..k];
      assert frags[..|frags|] == frags;
      LateArgumentsPass(json, init, h);
      NamedGrows(init, h);
      PlainFragmentPasses(json, frags);
      ArgsSnoc(frags, h);
      ConcatAssoc(Assembled(json, frags[..h]).shown, Args(init[h..]), last.arguments);
    }
  }

  lemma RepairEndCompletes(json: Json, name: string, x: Strand, t: int, repairs: RepairAnswers)
    requires x.shown != ""
    ensures var end := RepairEnd(json, name, x, t, repairs); end == "" || json.Complete(x.shown + end, name)
  {
    var tried := TryRepair(json, x.shown, name, t, repairs, 0);
    if tried.Suffix? {
      TryRepairCompletes(json, x.shown, name, t, repairs, 0);
      ConcatEmpty(tried.text);
    }
  }

  /** Once its arguments have been sent, nothing that is sent last breaks the rule. */
  lemma SentIsSafe(json: Json, thinking: bool, a: Attempt, answers: Answers, t: int)
    requires JsonRules(json) && HeldBack(Fragments(json, thinking, a, t))
    ensures var x := Assembled(json, Fragments(json, thinking, a, t));
            x.shown != "" ==> json.inForeground(x.shown + SentLast(json, thinking, a, answers, t))
  {
    var frags := Fragments(json, thinking, a, t);
    var name, x := Named(frags), Assembled(json, frags);
    HeldBackSendsOnce(json, frags);
    if x.shown != "" {
      RepairEndCompletes(json, name, x, t, answers.repairs);
      ConcatEmpty(x.shown);
    }
  }

  /** A tool shown to the client as a Task, whatever the upstream sends and the recovery requests answer,
      and however the attempt ends. If it goes by exactly that name whenever arguments come for it, what
      the client is shown of them obeys the rule exactly when they were sent before the end or what is
      sent last obeys it. If not, its late arguments are passed on as they are, and the rule is obeyed
      exactly when all that is sent happens to obey it. */
  lemma TaskTextsObey(json: Json, thinking: bool, a: Attempt, answers: Answers, message: string, t: int)
    requires JsonRules(json) && Live(AttemptTurn(json, thinking, a).s.b, t)
    requires StartedAs(AttemptTurn(json, thinking, a).events, AttemptTurn(json, thinking, a).s.b.tools.at[t].blockIndex, "Task")
    ensures var out, i := AttemptOutput(json, thinking, a, answers, message), AttemptTurn(json, thinking, a).s.b.tools.at[t].blockIndex;
            var frags, last := Fragments(json, thinking, a, t), SentLast(json, thinking, a, answers, t);
            var sent := Assembled(json, frags).shown;
            && Text.Strip(FirstName(frags)) == "Task"
            && (Obeys(json, ShownJson(out, i)) <==>
                  if HeldBack(frags) then sent != "" || Obeys(json, last) else Obeys(json, sent + last))
            && (Plain(json, frags) ==> sent == Args(frags))
            && (forall h: nat :: PlainFrom(json, frags, h) ==> sent == Assembled(json, frags[..h]).shown + Args(frags[h..]))
  {
    var frags := Fragments(json, thinking, a, t);
    NamesAgree(json, thinking, a, t);
    AttemptFollows(json, thinking, a, t);
    ShownArguments(json, thinking, a, answers, message, t);
    if HeldBack(frags) {
      SentIsSafe(json, thinking, a, answers, t);
      ConcatEmpty(SentLast(json, thinking, a, answers, t));
    }
    if Plain(json, frags) {
      PlainIsPassedOn(json, frags);
    }
    forall h: nat | PlainFrom(json, frags, h) ensures Assembled(json, frags).shown == Assembled(json, frags[..h]).shown + Args(frags[h..]) {
      LateArgumentsPass(json, frags, h);
    }
  }

  /** Whatever an attempt's chunks, and wherever they stop, arguments that are still buffered never parse:
      a tool that has shown nothing is never found complete, and all it may show comes from a repair. */
  lemma BufferedIsIncomplete(json: Json, thinking: bool, chunks: seq<Chunk>, t: int)
    requires json.parse("").NotJson?
    requires var turn := ProcessChunks(json, thinking, NewSession, chunks);
             !turn.raised && Live(turn.s.b, t) && turn.s.b.tools.at[t].contents == ""
    ensures var s := ProcessChunks(json, thinking, NewSession, chunks).s;
            !json.Complete(RepairPrefix(s, t), s.b.tools.at[t].name)
  {
    NewSound(json);
    ProcessChunksSound(json, thinking, NewSession, [], chunks);
  }
}
