/** The circuit breaker (core/reliability/circuit_breaker.py) over every interleaving of overlapping
    guarded calls. A call's end reads the clock before it takes the lock, so its reading may be old. */
module CircuitBreakers {
  import opened OrderedDict

  datatype Status = Closed | Open | HalfOpen

  /** `ProviderState`. */
  datatype Circuit = Circuit(status: Status, failures: int, successes: int, changed: real)

  const NEW_CIRCUIT := Circuit(Closed, 0, 0, 0.0)

  datatype Config = Config(failureThreshold: int, recoveryTimeout: real, successThreshold: int)

  /** How a guarded call ended: `Other` is an exception that does not trip the breaker. */
  datatype Result = Success | Tripping | Other

  /** What happens to one provider's breaker; `call` says which guarded call it is. */
  datatype Event =
    | Enter(call: nat, now: real)
    | Exit(call: nat, result: Result, stamp: real)
    | ForceOpen(now: real)
    | ForceClosed(now: real)
    | ForceHalfOpen(now: real)

  predicate Forced(e: Event) {
    e.ForceOpen? || e.ForceClosed? || e.ForceHalfOpen?
  }

  // ----- the steps -----

  /** `__aenter__` refuses the call. */
  predicate Refuses(cfg: Config, c: Circuit, now: real) {
    c.status.Open? && now - c.changed < cfg.recoveryTimeout
  }

  function OnEnter(cfg: Config, c: Circuit, now: real): Circuit {
    if c.status.Open? && !Refuses(cfg, c, now) then Circuit(HalfOpen, c.failures, 0, now) else c
  }

  function OnSuccess(cfg: Config, c: Circuit, stamp: real): Circuit {
    match c.status
    case HalfOpen =>
      if c.successes + 1 >= cfg.successThreshold then Circuit(Closed, 0, 0, stamp) else c.(successes := c.successes + 1)
    case Closed => c.(failures := 0)
    case Open => c
  }

  function OnTripping(cfg: Config, c: Circuit, stamp: real): Circuit {
    match c.status
    case Closed =>
      var failed := c.(failures := c.failures + 1);
      if failed.failures >= cfg.failureThreshold then failed.(status := Open, changed := stamp) else failed
    case HalfOpen => c.(status := Open, failures := cfg.failureThreshold, changed := stamp)
    case Open => c
  }

  function OnExit(cfg: Config, c: Circuit, result: Result, stamp: real): Circuit {
    match result
    case Success => OnSuccess(cfg, c, stamp)
    case Tripping => OnTripping(cfg, c, stamp)
    case Other => c
  }

  function Step(cfg: Config, c: Circuit, e: Event): Circuit {
    match e
    case Enter(_, now) => OnEnter(cfg, c, now)
    case Exit(_, result, stamp) => OnExit(cfg, c, result, stamp)
    case ForceOpen(now) => Circuit(Open, cfg.failureThreshold, c.successes, now)
    case ForceClosed(now) => Circuit(Closed, 0, 0, now)
    case ForceHalfOpen(now) => Circuit(HalfOpen, c.failures, 0, now)
  }

  function Run(cfg: Config, es: seq<Event>): Circuit {
    if es == [] then NEW_CIRCUIT else Step(cfg, Run(cfg, es[..|es| - 1]), es[|es| - 1])
  }

  /** `get_state`. */
  function Reported(cfg: Config, c: Circuit, now: real): Status {
    if c.status.Open? && now - c.changed >= cfg.recoveryTimeout then HalfOpen else c.status
  }

  // ----- the counters -----

  predicate Bounded(cfg: Config, c: Circuit) {
    match c.status
    case Closed => 0 <= c.failures < cfg.failureThreshold
    case HalfOpen => 0 <= c.successes < cfg.successThreshold
    case Open => c.failures == cfg.failureThreshold
  }

  /** In every interleaving: closed means fewer failures than the threshold, half-open fewer successes
      than theirs, and open exactly the failure threshold, provided the thresholds are at least one. */
  lemma {:induction false} CountersBounded(cfg: Config, es: seq<Event>)
    requires cfg.failureThreshold >= 1 && cfg.successThreshold >= 1
    ensures Bounded(cfg, Run(cfg, es))
    decreases |es|
  {
    if es != [] {
      CountersBounded(cfg, es[..|es| - 1]);
    }
  }

  /** The thresholds have to be at least one: otherwise a new breaker, or one forced half-open, already
      breaks the bounds. */
  lemma ThresholdsMustBePositive(cfg: Config)
    requires cfg.failureThreshold < 1 || cfg.successThreshold < 1
    ensures exists es :: !Bounded(cfg, Run(cfg, es))
  {
    if cfg.failureThreshold < 1 {
      assert !Bounded(cfg, Run(cfg, []));
    } else {
      var forced := [ForceHalfOpen(0.0)];
      assert forced[..0] == [];
      assert Run(cfg, forced) == Circuit(HalfOpen, 0, 0, 0.0);
      assert !Bounded(cfg, Run(cfg, forced));
    }
  }

  // ----- opening -----

  /** The tripping failures since the breaker last closed, or a call last succeeded. */
  function FailuresRunning(cfg: Config, es: seq<Event>): nat {
    if es == [] then 0
    else
      var init, last := es[..|es| - 1], es[|es| - 1];
      if !Run(cfg, init).status.Closed? || last.ForceClosed? || (last.Exit? && last.result.Success?) then 0
      else FailuresRunning(cfg, init) + if last.Exit? && last.result.Tripping? then 1 else 0
  }

  lemma {:induction false} FailuresCount(cfg: Config, es: seq<Event>)
    requires Run(cfg, es).status.Closed?
    ensures Run(cfg, es).failures == FailuresRunning(cfg, es)
    decreases |es|
  {
    if es != [] && Run(cfg, es[..|es| - 1]).status.Closed? {
      FailuresCount(cfg, es[..|es| - 1]);
    }
  }

  /** In every interleaving: what opens the breaker, other than a force, is a call's tripping failure, the
      one that makes the threshold of them since it last closed or a call last succeeded, or any when it is
      half-open. */
  lemma OpensExactly(cfg: Config, es: seq<Event>)
    requires es != [] && !Forced(es[|es| - 1]) && !Run(cfg, es[..|es| - 1]).status.Open?
    ensures var init, last := es[..|es| - 1], es[|es| - 1];
            Run(cfg, es).status.Open? <==>
              last.Exit? && last.result.Tripping?
              && (Run(cfg, init).status.HalfOpen? || FailuresRunning(cfg, init) + 1 >= cfg.failureThreshold)
  {
    var init := es[..|es| - 1];
    if Run(cfg, init).status.Closed? {
      FailuresCount(cfg, init);
    }
  }

  /** A force takes hold whatever went before: forced open, calls are refused for the timeout; forced closed,
      none is, and the failures count anew; forced half-open, none is, and the successes count anew. */
  lemma ForcesTakeHold(cfg: Config, es: seq<Event>, e: Event, now: real)
    requires Forced(e)
    ensures var c := Run(cfg, es + [e]);
            match e
            case ForceOpen(at) => Reported(cfg, c, now) == if now - at >= cfg.recoveryTimeout then HalfOpen else Open
            case ForceClosed(_) => Reported(cfg, c, now) == Closed && FailuresRunning(cfg, es + [e]) == 0 == c.failures
            case ForceHalfOpen(_) => Reported(cfg, c, now) == HalfOpen && c.successes == 0
            case _ => true
  {
    assert (es + [e])[..|es|] == es;
  }

  // ----- admission -----

  function Stamp(e: Event): real {
    match e
    case Exit(_, _, stamp) => stamp
    case Enter(_, now) => now
    case ForceOpen(now) => now
    case ForceClosed(now) => now
    case ForceHalfOpen(now) => now
  }

  /** Event `k` opened the breaker, or forced it open again, and it has been open under that event's
      stamp ever since. */
  predicate OpenFrom(cfg: Config, es: seq<Event>, k: nat)
    decreases |es|
  {
    && k < |es| && Run(cfg, es).status.Open?
    && var init, last := es[..|es| - 1], es[|es| - 1];
       if k == |es| - 1 then last.ForceOpen? || !Run(cfg, init).status.Open? else !last.ForceOpen? && OpenFrom(cfg, init, k)
  }

  lemma {:induction false} OpenSince(cfg: Config, es: seq<Event>) returns (k: nat)
    requires Run(cfg, es).status.Open?
    ensures OpenFrom(cfg, es, k) && Run(cfg, es).changed == Stamp(es[k])
    decreases |es|
  {
    var init, last := es[..|es| - 1], es[|es| - 1];
    if last.ForceOpen? || !Run(cfg, init).status.Open? {
      k := |es| - 1;
    } else {
      k := OpenSince(cfg, init);
      assert init[k] == es[k];
    }
  }

  /** A call is refused exactly while the breaker is open and the recovery timeout has not passed since
      the stamp of the event that opened it; one that is let in then finds it half-open. */
  lemma AdmissionWaits(cfg: Config, es: seq<Event>, now: real)
    ensures var c := Run(cfg, es);
            && (c.status.Open? ==>
                  exists k: nat :: OpenFrom(cfg, es, k) && (Refuses(cfg, c, now) <==> now < Stamp(es[k]) + cfg.recoveryTimeout))
            && (!c.status.Open? ==> !Refuses(cfg, c, now))
            && (!Refuses(cfg, c, now) ==> !OnEnter(cfg, c, now).status.Open?)
  {
    if Run(cfg, es).status.Open? {
      var k := OpenSince(cfg, es);
      assert OpenFrom(cfg, es, k);
    }
  }

  /** `get_state` reports open exactly when a call made now would be refused, and otherwise the state the
      call would find. */
  lemma ReportForetellsAdmission(cfg: Config, c: Circuit, now: real)
    ensures Reported(cfg, c, now) == OnEnter(cfg, c, now).status
    ensures Reported(cfg, c, now).Open? <==> Refuses(cfg, c, now)
  {
  }

  // ----- closing again -----

  function Successes(es: seq<Event>): nat {
    if es == [] then 0 else Successes(es[..|es| - 1]) + if Succeeds(es[|es| - 1]) then 1 else 0
  }

  predicate Succeeds(e: Event) {
    e.Exit? && e.result.Success?
  }

  predicate NoTripping(es: seq<Event>) {
    forall k :: 0 <= k < |es| ==> !(es[k].Exit? && es[k].result.Tripping?)
  }

  /** The breaker became half-open with event `h - 1` and stayed so up to event `n`. */
  ghost predicate HalfOpenFrom(cfg: Config, es: seq<Event>, h: nat, n: nat) {
    && 1 <= h <= n <= |es|
    && (es[h - 1].ForceHalfOpen? || (es[h - 1].Enter? && Run(cfg, es[..h - 1]).status.Open?))
    && forall j :: h <= j <= n ==> Run(cfg, es[..j]).status.HalfOpen?
  }

  lemma HalfOpenIn(cfg: Config, es: seq<Event>, h: nat, n: nat)
    requires n <= |es| && HalfOpenFrom(cfg, es[..n], h, n)
    ensures HalfOpenFrom(cfg, es, h, n)
  {
    var init := es[..n];
    assert init[..h - 1] == es[..h - 1];
    forall j | h <= j <= n ensures Run(cfg, es[..j]).status.HalfOpen? {
      assert init[..j] == es[..j];
    }
  }

  lemma SuffixSnoc(es: seq<Event>, h: nat, n: nat)
    requires h <= n == |es| - 1
    ensures Successes(es[h..]) == Successes(es[..n][h..]) + if Succeeds(es[n]) then 1 else 0
    ensures NoTripping(es[h..]) <==> NoTripping(es[..n][h..]) && !(es[n].Exit? && es[n].result.Tripping?)
  {
    var tail, more := es[..n][h..], es[h..];
    assert more == tail + [es[n]];
    assert more[..|more| - 1] == tail;
    assert forall k :: 0 <= k < |tail| ==> more[k] == tail[k];
  }

  /** While half-open, the successes counted are those since it became so, and nothing has tripped. */
  lemma {:induction false} HalfOpenCounts(cfg: Config, es: seq<Event>) returns (h: nat)
    requires Run(cfg, es).status.HalfOpen?
    ensures HalfOpenFrom(cfg, es, h, |es|)
    ensures Run(cfg, es).successes == Successes(es[h..]) && NoTripping(es[h..])
    decreases |es|
  {
    var n := |es| - 1;
    var init, last := es[..n], es[n];
    assert es[..|es|] == es;
    if last.ForceHalfOpen? || !Run(cfg, init).status.HalfOpen? {
      h := |es|;
      assert es[h..] == [];
    } else {
      h := HalfOpenCounts(cfg, init);
      HalfOpenIn(cfg, es, h, n);
      SuffixSnoc(es, h, n);
    }
  }

  /** Without a force, an open breaker closes only after a half-open period in which exactly the success
      threshold of calls succeeded and none failed with a tripping exception. */
  lemma ClosesAfterSuccesses(cfg: Config, es: seq<Event>) returns (h: nat)
    requires es != [] && !Forced(es[|es| - 1])
    requires cfg.successThreshold >= 1 && cfg.failureThreshold >= 1
    requires !Run(cfg, es[..|es| - 1]).status.Closed? && Run(cfg, es).status.Closed?
    ensures HalfOpenFrom(cfg, es, h, |es| - 1)
    ensures Successes(es[h..]) == cfg.successThreshold && NoTripping(es[h..])
  {
    var n := |es| - 1;
    var init, last := es[..n], es[n];
    h := HalfOpenCounts(cfg, init);
    CountersBounded(cfg, init);
    HalfOpenIn(cfg, es, h, n);
    SuffixSnoc(es, h, n);
  }

  // ----- whose successes they are -----

  /** Event `j` lets a call in. */
  predicate LetsIn(cfg: Config, es: seq<Event>, j: int) {
    0 <= j < |es| && es[j].Enter? && !Refuses(cfg, Run(cfg, es[..j]), es[j].now)
  }

  /** Event `j` lets in the call that ends with event `k`. */
  predicate LetsInFor(cfg: Config, es: seq<Event>, j: int, k: int) {
    0 <= j < k < |es| && LetsIn(cfg, es, j) && es[k].Exit? && es[k].call == es[j].call
  }

  /** Guarded calls as they may overlap: each enters once, and ends once, after it was let in. */
  ghost predicate Overlapping(cfg: Config, es: seq<Event>) {
    && (forall i, j :: 0 <= i < j < |es| && es[i].Enter? && es[j].Enter? ==> es[i].call != es[j].call)
    && (forall i, j :: 0 <= i < j < |es| && es[i].Exit? && es[j].Exit? ==> es[i].call != es[j].call)
    && (forall k :: 0 <= k < |es| && es[k].Exit? ==> exists j :: LetsInFor(cfg, es, j, k))
  }

  /** The call comes to the breaker in these events. */
  predicate Enters(es: seq<Event>, call: nat) {
    exists k :: 0 <= k < |es| && es[k].Enter? && es[k].call == call
  }

  predicate Ends(es: seq<Event>, call: nat) {
    exists k :: 0 <= k < |es| && es[k].Exit? && es[k].call == call
  }

  /** The call was let in and has not ended. */
  ghost predicate Running(cfg: Config, es: seq<Event>, call: nat) {
    !Ends(es, call) && exists j :: LetsIn(cfg, es, j) && es[j].call == call
  }

  /** The successes among `es` of the calls that came in the events `since`. */
  function SuccessesOf(es: seq<Event>, since: seq<Event>): nat {
    if es == [] then 0
    else
      var last := es[|es| - 1];
      SuccessesOf(es[..|es| - 1], since) + if Succeeds(last) && Enters(since, last.call) then 1 else 0
  }

  lemma {:induction false} AllOrFewer(es: seq<Event>, since: seq<Event>)
    ensures SuccessesOf(es, since) <= Successes(es)
    ensures SuccessesOf(es, since) == Successes(es) <==>
            forall k :: 0 <= k < |es| && Succeeds(es[k]) ==> Enters(since, es[k].call)
    decreases |es|
  {
    if es != [] {
      var init, last := es[..|es| - 1], es[|es| - 1];
      AllOrFewer(init, since);
      assert forall k :: 0 <= k < |init| ==> init[k] == es[k];
      if Succeeds(last) {
        assert es[|es| - 1] == last;
      }
    }
  }

  /** A call that ends from `h` on entered either before event `h - 1` or with it or later. */
  lemma EnteredBeforeOrSince(cfg: Config, es: seq<Event>, h: nat, k: nat)
    requires Overlapping(cfg, es) && 1 <= h <= k < |es| && es[k].Exit?
    ensures Enters(es[h - 1..], es[k].call) <==> !Enters(es[..h - 1], es[k].call)
  {
    var j :| LetsInFor(cfg, es, j, k);
    var before, since := es[..h - 1], es[h - 1..];
    assert forall i :: 0 <= i < |before| ==> before[i] == es[i];
    assert forall i :: 0 <= i < |since| ==> since[i] == es[h - 1 + i];
    assert j < h - 1 ==> before[j] == es[j];
    assert j >= h - 1 ==> since[j - (h - 1)] == es[j];
  }

  /** The successes that close the breaker all come from calls let in since it became half-open exactly
      when none of them is of a call that had entered before that. */
  lemma ClosedByTrials(cfg: Config, es: seq<Event>) returns (h: nat)
    requires Overlapping(cfg, es)
    requires es != [] && !Forced(es[|es| - 1])
    requires cfg.successThreshold >= 1 && cfg.failureThreshold >= 1
    requires !Run(cfg, es[..|es| - 1]).status.Closed? && Run(cfg, es).status.Closed?
    ensures HalfOpenFrom(cfg, es, h, |es| - 1) && Successes(es[h..]) == cfg.successThreshold && NoTripping(es[h..])
    ensures SuccessesOf(es[h..], es[h - 1..]) == cfg.successThreshold <==>
            forall k :: h <= k < |es| && Succeeds(es[k]) ==> !Enters(es[..h - 1], es[k].call)
  {
    h := ClosesAfterSuccesses(cfg, es);
    var tail, since := es[h..], es[h - 1..];
    AllOrFewer(tail, since);
    forall k | h <= k < |es| && Succeeds(es[k])
      ensures Enters(since, es[k].call) <==> !Enters(es[..h - 1], es[k].call)
    {
      EnteredBeforeOrSince(cfg, es, h, k);
    }
    assert forall k :: 0 <= k < |tail| ==> tail[k] == es[h + k];
    assert forall k :: h <= k < |es| ==> es[k] == tail[k - h];
  }

  // ----- when an earlier call may close the breaker -----

  /** The last event makes the breaker half-open. */
  ghost predicate BecomesHalfOpen(cfg: Config, es: seq<Event>) {
    HalfOpenFrom(cfg, es, |es|, |es|)
  }

  predicate NotBefore(es: seq<Event>, now: real) {
    forall k :: 0 <= k < |es| ==> Stamp(es[k]) >= now
  }

  /** After `es`, the events `more` close the breaker without a force and out of the same half-open
      period, and one of the successes is of a call that had entered before that period. */
  ghost predicate ClosesOnEarlier(cfg: Config, es: seq<Event>, more: seq<Event>) {
    var all := es + more;
    && es != [] && more != [] && NotBefore(more, Stamp(es[|es| - 1])) && JustClosed(cfg, all, |es|) && !Forced(more[|more| - 1])
    && exists k :: 0 <= k < |more| && Succeeds(more[k]) && Enters(es[..|es| - 1], more[k].call)
  }

  lemma LetsInSnoc(cfg: Config, es: seq<Event>, e: Event, j: int)
    requires j < |es|
    ensures LetsIn(cfg, es + [e], j) <==> LetsIn(cfg, es, j)
  {
    assert j >= 0 ==> (es + [e])[..j] == es[..j];
  }

  lemma EnterOverlaps(cfg: Config, es: seq<Event>, call: nat, now: real)
    requires Overlapping(cfg, es) && !Enters(es, call)
    ensures Overlapping(cfg, es + [Enter(call, now)])
  {
    var t := es + [Enter(call, now)];
    forall k | 0 <= k < |t| && t[k].Exit? ensures exists j :: LetsInFor(cfg, t, j, k) {
      var j :| LetsInFor(cfg, es, j, k);
      LetsInSnoc(cfg, es, t[|es|], j);
      assert LetsInFor(cfg, t, j, k);
    }
  }

  lemma ExitOverlaps(cfg: Config, es: seq<Event>, call: nat, result: Result, stamp: real)
    requires Overlapping(cfg, es) && Running(cfg, es, call)
    ensures Overlapping(cfg, es + [Exit(call, result, stamp)])
  {
    var t := es + [Exit(call, result, stamp)];
    forall k | 0 <= k < |t| && t[k].Exit? ensures exists j :: LetsInFor(cfg, t, j, k) {
      var j :| if k < |es| then LetsInFor(cfg, es, j, k) else LetsIn(cfg, es, j) && es[j].call == call;
      LetsInSnoc(cfg, es, t[|es|], j);
      assert LetsInFor(cfg, t, j, k);
    }
  }

  lemma StillRunning(cfg: Config, es: seq<Event>, e: Event, call: nat)
    requires Running(cfg, es, call) && !(e.Exit? && e.call == call)
    ensures Running(cfg, es + [e], call)
  {
    var j :| LetsIn(cfg, es, j) && es[j].call == call;
    LetsInSnoc(cfg, es, e, j);
    assert (es + [e])[j] == es[j];
  }

  lemma RunSnoc(cfg: Config, es: seq<Event>, e: Event)
    ensures Run(cfg, es + [e]) == Step(cfg, Run(cfg, es), e)
  {
    assert (es + [e])[..|es|] == es;
  }

  /** No call has this number or a higher one. */
  predicate Unused(es: seq<Event>, call: nat) {
    forall k :: 0 <= k < |es| && (es[k].Enter? || es[k].Exit?) ==> es[k].call < call
  }

  lemma {:induction false} SomeUnused(es: seq<Event>) returns (call: nat)
    ensures Unused(es, call)
    decreases |es|
  {
    call := 0;
    if es != [] {
      var init, last := es[..|es| - 1], es[|es| - 1];
      call := SomeUnused(init);
      assert forall k :: 0 <= k < |init| ==> init[k] == es[k];
      if (last.Enter? || last.Exit?) && last.call >= call {
        call := last.call + 1;
      }
    }
  }

  /** A half-open breaker short of its threshold, with an earlier call still running. */
  ghost predicate Waiting(cfg: Config, es: seq<Event>, h: nat, successes: int, call: nat) {
    && Overlapping(cfg, es) && HalfOpenFrom(cfg, es, h, |es|)
    && Run(cfg, es).successes == successes
    && Running(cfg, es, call)
  }

  lemma HalfOpenSnoc(cfg: Config, es: seq<Event>, h: nat, e: Event)
    requires HalfOpenFrom(cfg, es, h, |es|)
    ensures HalfOpenFrom(cfg, es + [e], h, |es|)
    ensures Run(cfg, es + [e]).status.HalfOpen? ==> HalfOpenFrom(cfg, es + [e], h, |es| + 1)
  {
    var t := es + [e];
    assert t[..|es|] == es;
    HalfOpenIn(cfg, t, h, |es|);
    assert t[..|t|] == t;
  }

  lemma EndsOnlyEntered(cfg: Config, es: seq<Event>, call: nat)
    requires Overlapping(cfg, es) && Ends(es, call)
    ensures Enters(es, call)
  {
    var k :| 0 <= k < |es| && es[k].Exit? && es[k].call == call;
    var j :| LetsInFor(cfg, es, j, k);
  }

  /** A call that comes in while the breaker lets calls in is running. */
  lemma EnterRuns(cfg: Config, es: seq<Event>, call: nat, now: real)
    requires Overlapping(cfg, es) && !Enters(es, call) && !Refuses(cfg, Run(cfg, es), now)
    ensures Overlapping(cfg, es + [Enter(call, now)]) && Running(cfg, es + [Enter(call, now)], call)
  {
    var t := es + [Enter(call, now)];
    EnterOverlaps(cfg, es, call, now);
    assert t[..|es|] == es;
    assert LetsIn(cfg, t, |es|) && t[|es|].call == call;
    if Ends(es, call) {
      EndsOnlyEntered(cfg, es, call);
      assert false;
    }
  }

  lemma EnterWaits(cfg: Config, es: seq<Event>, h: nat, successes: int, call: nat, next: nat, now: real)
    requires Waiting(cfg, es, h, successes, call) && Unused(es, next)
    ensures var one := es + [Enter(next, now)];
            Waiting(cfg, one, h, successes, call) && Running(cfg, one, next) && Unused(one, next + 1) && next != call
  {
    var e := Enter(next, now);
    assert es[..|es|] == es;
    EnterRuns(cfg, es, next, now);
    RunSnoc(cfg, es, e);
    HalfOpenSnoc(cfg, es, h, e);
    StillRunning(cfg, es, e, call);
  }

  lemma ExitWaits(cfg: Config, es: seq<Event>, h: nat, successes: int, call: nat, next: nat, now: real)
    requires Waiting(cfg, es, h, successes, call) && Running(cfg, es, next) && Unused(es, next + 1) && next != call
    requires successes + 1 < cfg.successThreshold
    ensures var two := es + [Exit(next, Success, now)];
            Waiting(cfg, two, h, successes + 1, call) && Unused(two, next + 1)
  {
    var f := Exit(next, Success, now);
    assert es[..|es|] == es;
    ExitOverlaps(cfg, es, next, Success, now);
    RunSnoc(cfg, es, f);
    HalfOpenSnoc(cfg, es, h, f);
    StillRunning(cfg, es, f, call);
  }

  /** The last event closes the breaker, half-open since event `h - 1`. */
  ghost predicate JustClosed(cfg: Config, es: seq<Event>, h: nat) {
    es != [] && Overlapping(cfg, es) && HalfOpenFrom(cfg, es, h, |es| - 1) && Run(cfg, es).status.Closed?
  }

  lemma AfterTrial(es: seq<Event>, e: Event, f: Event, rest: seq<Event>, now: real)
    requires NotBefore(rest, now) && Stamp(e) >= now && Stamp(f) >= now && rest != []
    ensures var more := [e, f] + rest;
            NotBefore(more, now) && es + more == es + [e] + [f] + rest && more[|more| - 1] == rest[|rest| - 1]
  {
  }

  /** Enough later calls may succeed for the earlier one to close the breaker. */
  lemma {:induction false} TrialsThenEarlier(cfg: Config, es: seq<Event>, h: nat, successes: int, call: nat, next: nat, now: real)
    returns (more: seq<Event>)
    requires Waiting(cfg, es, h, successes, call) && Unused(es, next) && 0 <= successes < cfg.successThreshold
    ensures more != [] && more[|more| - 1] == Exit(call, Success, now)
    ensures NotBefore(more, now) && JustClosed(cfg, es + more, h)
    decreases cfg.successThreshold - successes
  {
    if successes + 1 == cfg.successThreshold {
      EarlierCloses(cfg, es, h, successes, call, now);
      more := [Exit(call, Success, now)];
    } else {
      var e, f := Enter(next, now), Exit(next, Success, now);
      EnterWaits(cfg, es, h, successes, call, next, now);
      ExitWaits(cfg, es + [e], h, successes, call, next, now);
      var rest := TrialsThenEarlier(cfg, es + [e] + [f], h, successes + 1, call, next + 1, now);
      more := [e, f] + rest;
      AfterTrial(es, e, f, rest, now);
    }
  }

  lemma EarlierCloses(cfg: Config, es: seq<Event>, h: nat, successes: int, call: nat, now: real)
    requires Waiting(cfg, es, h, successes, call) && successes + 1 == cfg.successThreshold
    ensures JustClosed(cfg, es + [Exit(call, Success, now)], h)
  {
    var e := Exit(call, Success, now);
    assert es[..|es|] == es;
    ExitOverlaps(cfg, es, call, Success, now);
    RunSnoc(cfg, es, e);
    HalfOpenSnoc(cfg, es, h, e);
  }

  /** A call that was let in before the last event has not ended since. */
  ghost predicate RunningBefore(cfg: Config, es: seq<Event>, call: nat) {
    es != [] && Running(cfg, es[..|es| - 1], call)
  }

  lemma BecomesWaiting(cfg: Config, es: seq<Event>, call: nat)
    requires Overlapping(cfg, es) && BecomesHalfOpen(cfg, es) && RunningBefore(cfg, es, call)
    ensures Waiting(cfg, es, |es|, 0, call)
  {
    var init, last := es[..|es| - 1], es[|es| - 1];
    assert es == init + [last] && es[..|es|] == es;
    RunSnoc(cfg, init, last);
    StillRunning(cfg, init, last, call);
  }

  lemma EarlierMayClose(cfg: Config, es: seq<Event>, call: nat)
    requires cfg.successThreshold >= 1
    requires Overlapping(cfg, es) && BecomesHalfOpen(cfg, es) && RunningBefore(cfg, es, call)
    ensures exists more :: ClosesOnEarlier(cfg, es, more)
  {
    BecomesWaiting(cfg, es, call);
    var next := SomeUnused(es);
    var more := TrialsThenEarlier(cfg, es, |es|, 0, call, next, Stamp(es[|es| - 1]));
    var k := |more| - 1;
    assert Succeeds(more[k]);
    assert Enters(es[..|es| - 1], more[k].call);
    assert ClosesOnEarlier(cfg, es, more);
  }

  lemma EarlierWasRunning(cfg: Config, es: seq<Event>, more: seq<Event>) returns (call: nat)
    requires ClosesOnEarlier(cfg, es, more)
    ensures RunningBefore(cfg, es, call)
  {
    var all, init := es + more, es[..|es| - 1];
    var k :| 0 <= k < |more| && Succeeds(more[k]) && Enters(init, more[k].call);
    call := more[k].call;
    assert all[|es| + k] == more[k];
    var j :| LetsInFor(cfg, all, j, |es| + k);
    assert forall i :: 0 <= i < |init| ==> init[i] == all[i];
    assert j < |init|;
    assert all[..j] == init[..j];
    assert LetsIn(cfg, init, j) && init[j].call == call;
    assert !Ends(init, call);
  }

  /** When the breaker has become half-open, a call that entered before can still be among those that
      close it exactly when one that was let in before is still running. */
  lemma EarlierCallsCount(cfg: Config, es: seq<Event>)
    requires cfg.successThreshold >= 1
    requires Overlapping(cfg, es) && BecomesHalfOpen(cfg, es)
    ensures (exists more :: ClosesOnEarlier(cfg, es, more)) <==> exists call :: RunningBefore(cfg, es, call)
  {
    if more :| ClosesOnEarlier(cfg, es, more) {
      var call := EarlierWasRunning(cfg, es, more);
    }
    if call :| RunningBefore(cfg, es, call) {
      EarlierMayClose(cfg, es, call);
    }
  }

  const TWO_CALLS := [Enter(1, 0.0), Enter(2, 0.0)]
  const REOPENED := TWO_CALLS + [Exit(2, Tripping, 1.0)] + [Enter(3, 31.0)]

  lemma TwoCallsRun(cfg: Config)
    requires cfg.failureThreshold == 1
    ensures Overlapping(cfg, TWO_CALLS) && Running(cfg, TWO_CALLS, 1) && Running(cfg, TWO_CALLS, 2)
    ensures Run(cfg, TWO_CALLS) == NEW_CIRCUIT
  {
    var one := [] + [Enter(1, 0.0)];
    RunSnoc(cfg, [], Enter(1, 0.0));
    EnterRuns(cfg, [], 1, 0.0);
    RunSnoc(cfg, one, Enter(2, 0.0));
    EnterRuns(cfg, one, 2, 0.0);
    StillRunning(cfg, one, Enter(2, 0.0), 1);
    assert TWO_CALLS == one + [Enter(2, 0.0)];
  }

  /** Calls 1 and 2 are let in, call 2 opens the breaker, call 3 is let in to try it. */
  lemma ReopenedWaits(cfg: Config)
    requires cfg.failureThreshold == 1 && cfg.recoveryTimeout == 30.0
    ensures Waiting(cfg, REOPENED, 4, 0, 1) && Running(cfg, REOPENED, 3)
  {
    var e, f := Exit(2, Tripping, 1.0), Enter(3, 31.0);
    var three := TWO_CALLS + [e];
    TwoCallsRun(cfg);
    RunSnoc(cfg, TWO_CALLS, e);
    ExitOverlaps(cfg, TWO_CALLS, 2, Tripping, 1.0);
    StillRunning(cfg, TWO_CALLS, e, 1);
    RunSnoc(cfg, three, f);
    EnterRuns(cfg, three, 3, 31.0);
    StillRunning(cfg, three, f, 1);
    assert REOPENED[..3] == three && REOPENED[..4] == REOPENED;
  }

  /** Then the success of call 1 closes the breaker while call 3 is still running. */
  lemma EarlierCallCloses(cfg: Config)
    requires cfg.failureThreshold == 1 && cfg.successThreshold == 1 && cfg.recoveryTimeout == 30.0
    ensures ClosesOnEarlier(cfg, REOPENED, [Exit(1, Success, 31.0)])
    ensures Running(cfg, REOPENED + [Exit(1, Success, 31.0)], 3)
  {
    ReopenedWaits(cfg);
    EarlierCloses(cfg, REOPENED, 4, 0, 1, 31.0);
    StillRunning(cfg, REOPENED, Exit(1, Success, 31.0), 3);
    assert REOPENED[..3][0] == Enter(1, 0.0);
    assert Enters(REOPENED[..3], 1);
    assert Succeeds([Exit(1, Success, 31.0)][0]);
  }

  // ----- the breaker object -----

  class CircuitBreaker {
    const cfg: Config
    var states: map<string, Circuit>

    constructor (cfg: Config)
      ensures this.cfg == cfg && states == map[]
    {
      this.cfg := cfg;
      states := map[];
    }

    /** A provider's state; one never seen is new. */
    function Of(provider: string): Circuit
      reads this
    {
      if provider in states then states[provider] else NEW_CIRCUIT
    }

    /** `__aenter__`: other providers are untouched. */
    method EnterGuard(provider: string, ghost call: nat, now: real) returns (admitted: bool)
      modifies this
      ensures admitted <==> !Refuses(cfg, old(Of(provider)), now)
      ensures states == old(states)[provider := Step(cfg, old(Of(provider)), Enter(call, now))]
    {
      var c := Of(provider);
      admitted := true;
      if c.status.Open? {
        var elapsed := now - c.changed;
        if elapsed >= cfg.recoveryTimeout {
          c := c.(status := HalfOpen, successes := 0, changed := now);
        } else {
          admitted := false;
        }
      }
      states := states[provider := c];
    }

    /** `__aexit__`. */
    method ExitGuard(provider: string, ghost call: nat, result: Result, stamp: real)
      modifies this
      ensures states == old(states)[provider := Step(cfg, old(Of(provider)), Exit(call, result, stamp))]
    {
      var c := Of(provider);
      if result.Success? {
        if c.status.HalfOpen? {
          c := c.(successes := c.successes + 1);
          if c.successes >= cfg.successThreshold {
            c := Circuit(Closed, 0, 0, stamp);
          }
        } else if c.status.Closed? {
          c := c.(failures := 0);
        }
      } else if result.Tripping? {
        if c.status.Closed? {
          c := c.(failures := c.failures + 1);
          if c.failures >= cfg.failureThreshold {
            c := c.(status := Open, changed := stamp);
          }
        } else if c.status.HalfOpen? {
          c := c.(status := Open, failures := cfg.failureThreshold, changed := stamp);
        }
      }
      states := states[provider := c];
    }

    /** `get_state`. */
    method GetState(provider: string, now: real) returns (status: Status)
      ensures status == Reported(cfg, Of(provider), now)
    {
      if provider !in states {
        return Closed;
      }
      var c := states[provider];
      if c.status.Open? && now - c.changed >= cfg.recoveryTimeout {
        return HalfOpen;
      }
      return c.status;
    }

    /** `force_open`, `force_closed` and `force_half_open`. */
    method Force(provider: string, e: Event)
      requires Forced(e)
      modifies this
      ensures states == old(states)[provider := Step(cfg, old(Of(provider)), e)]
    {
      var c := Of(provider);
      if e.ForceOpen? {
        c := c.(status := Open, changed := e.now, failures := cfg.failureThreshold);
      } else if e.ForceClosed? {
        c := Circuit(Closed, 0, 0, e.now);
      } else {
        c := c.(status := HalfOpen, successes := 0, changed := e.now);
      }
      states := states[provider := c];
    }
  }
}
