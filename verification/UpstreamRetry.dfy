/** Retrying upstream calls behind the limiter (providers/rate_limit.py): any number of callers, each in
    `execute_with_retry`, as steps over explicit time. Each attempt takes its own slot. */
module UpstreamRetry {
  import opened SlidingWindow

  datatype Config = Config(limit: nat, window: real, maxRetries: nat, baseDelay: real, maxDelay: real) {
    predicate Valid() {
      limit > 0 && window > 0.0 && baseDelay >= 0.0 && maxDelay >= 0.0
    }
  }

  function Doubled(base: real, times: nat): real {
    if times == 0 then base else 2.0 * Doubled(base, times - 1)
  }

  /** The backoff after failed attempt `k`, before jitter. */
  function Backoff(cfg: Config, k: nat): real {
    var delay := Doubled(cfg.baseDelay, k);
    if delay <= cfg.maxDelay then delay else cfg.maxDelay
  }

  /** Where a caller is, in its attempt `k`: about to look at the reactive block, waiting it out, waiting
      for a slot, calling upstream, backing off; or it has finished. */
  datatype Phase =
    | Checking(k: nat)
    | Paused(k: nat, until: real)
    | Queued(k: nat)
    | Calling(k: nat)
    | BackingOff(k: nat, until: real)
    | Finished(attempts: nat, ok: bool)

  datatype Outcome = Succeeded | Transient | Fatal

  /** An upstream attempt: who, which one of theirs, and when it took its slot. */
  datatype Call = Call(caller: nat, k: nat, at: real)

  datatype State = State(blockedUntil: real, phases: seq<Phase>, calls: seq<Call>, clock: real)

  /** One caller runs until it next waits; `outcome` and `jitter` count only where they are used. */
  datatype Move = Move(caller: nat, now: real, outcome: Outcome, jitter: real)

  function Times(calls: seq<Call>): seq<real> {
    seq(|calls|, i requires 0 <= i < |calls| => calls[i].at)
  }

  predicate Enabled(s: State, m: Move) {
    && m.caller < |s.phases| && s.clock <= m.now && m.jitter >= 0.0
    && match s.phases[m.caller]
       case Paused(_, until) => until <= m.now
       case BackingOff(_, until) => until <= m.now
       case Finished(_, _) => false
       case _ => true
  }

  function Step(cfg: Config, s: State, m: Move): State
    requires Enabled(s, m)
  {
    var to := (phase: Phase) => s.(phases := s.phases[m.caller := phase], clock := m.now);
    match s.phases[m.caller]
    case Checking(k) => to(if m.now < s.blockedUntil then Paused(k, s.blockedUntil) else Queued(k))
    case Paused(k, _) => to(Queued(k))
    case Queued(k) =>
      if Recent(Times(s.calls), Cutoff(m.now, cfg.window)) < cfg.limit
      then to(Calling(k)).(calls := s.calls + [Call(m.caller, k, m.now)])
      else to(Queued(k))
    case Calling(k) =>
      if m.outcome.Succeeded? then to(Finished(k + 1, true))
      else if m.outcome.Fatal? || k >= cfg.maxRetries then to(Finished(k + 1, false))
      else
        var delay := Backoff(cfg, k) + m.jitter;
        to(BackingOff(k, m.now + delay)).(blockedUntil := m.now + delay)
    case BackingOff(k, _) => to(Checking(k + 1))
    case Finished(_, _) => s
  }

  predicate EnabledAll(cfg: Config, s: State, ms: seq<Move>)
    decreases |ms|
  {
    ms == [] || (Enabled(s, ms[0]) && EnabledAll(cfg, Step(cfg, s, ms[0]), ms[1..]))
  }

  function Run(cfg: Config, s: State, ms: seq<Move>): State
    requires EnabledAll(cfg, s, ms)
    decreases |ms|
  {
    if ms == [] then s else Run(cfg, Step(cfg, s, ms[0]), ms[1..])
  }

  function Initial(callers: nat, now: real): State {
    State(0.0, seq(callers, i => Checking(0)), [], now)
  }

  // ----- what every step keeps -----

  /** How many attempts of a caller have taken their slot. */
  function Attempts(phase: Phase): nat {
    match phase
    case Checking(k) => k
    case Paused(k, _) => k
    case Queued(k) => k
    case Calling(k) => k + 1
    case BackingOff(k, _) => k + 1
    case Finished(attempts, _) => attempts
  }

  /** No attempt before its turn, and none beyond the last allowed one. */
  predicate InBounds(cfg: Config, phase: Phase) {
    && Attempts(phase) <= cfg.maxRetries + 1
    && (!phase.Finished? ==> phase.k <= cfg.maxRetries)
    && (phase.BackingOff? ==> phase.k < cfg.maxRetries)
  }

  /** The attempts logged are those each caller has begun. */
  ghost predicate Logged(s: State) {
    && (forall i :: 0 <= i < |s.calls| ==> s.calls[i].caller < |s.phases| && s.calls[i].k < Attempts(s.phases[s.calls[i].caller]))
    && (forall i, j :: 0 <= i < j < |s.calls| && s.calls[i].caller == s.calls[j].caller ==> s.calls[i].k < s.calls[j].k)
  }

  /** A caller's attempts are spaced by the backoff of the earlier one. */
  ghost predicate BackedOff(cfg: Config, s: State) {
    && (forall i, j :: 0 <= i < j < |s.calls| && s.calls[i].caller == s.calls[j].caller ==>
          s.calls[j].at >= s.calls[i].at + Backoff(cfg, s.calls[i].k))
    && (forall i :: 0 <= i < |s.calls| ==> Rested(cfg, s.phases, s.calls[i], s.clock))
  }

  /** By the time a caller is past backing off, its backoff has passed. */
  predicate Rested(cfg: Config, phases: seq<Phase>, call: Call, clock: real) {
    call.caller < |phases| && call.at <= clock &&
    match phases[call.caller]
    case Calling(k) => call.k < k ==> clock >= call.at + Backoff(cfg, call.k)
    case BackingOff(k, until) =>
      if call.k < k then clock >= call.at + Backoff(cfg, call.k) else until >= call.at + Backoff(cfg, call.k)
    case Finished(_, _) => true
    case _ => clock >= call.at + Backoff(cfg, call.k)
  }

  ghost predicate Inv(cfg: Config, s: State) {
    && cfg.Valid()
    && Ordered(Times(s.calls)) && Spaced(Times(s.calls), cfg.limit, cfg.window)
    && (s.calls != [] ==> s.calls[|s.calls| - 1].at <= s.clock)
    && (forall c :: 0 <= c < |s.phases| ==> InBounds(cfg, s.phases[c]))
    && Logged(s)
    && BackedOff(cfg, s)
  }

  lemma InitialInv(cfg: Config, callers: nat, now: real)
    requires cfg.Valid()
    ensures Inv(cfg, Initial(callers, now))
  {
  }

  lemma StepRested(cfg: Config, s: State, m: Move, call: Call)
    requires cfg.Valid() && Enabled(s, m) && Rested(cfg, s.phases, call, s.clock)
    requires call.caller < |s.phases| && call.k < Attempts(s.phases[call.caller])
    ensures Rested(cfg, Step(cfg, s, m).phases, call, m.now)
  {
  }

  lemma StepLogged(cfg: Config, s: State, m: Move)
    requires Enabled(s, m) && Logged(s)
    ensures Logged(Step(cfg, s, m))
  {
  }

  lemma TimesSnoc(calls: seq<Call>, call: Call)
    ensures Times(calls + [call]) == Times(calls) + [call.at]
  {
  }

  lemma StepSpaced(cfg: Config, s: State, m: Move)
    requires Inv(cfg, s) && Enabled(s, m)
    ensures var t := Step(cfg, s, m);
            && Ordered(Times(t.calls)) && Spaced(Times(t.calls), cfg.limit, cfg.window)
            && (t.calls != [] ==> t.calls[|t.calls| - 1].at <= t.clock)
  {
    var history, cutoff := Times(s.calls), Cutoff(m.now, cfg.window);
    if s.phases[m.caller].Queued? && Recent(history, cutoff) < cfg.limit {
      GrantSpaced(history, cfg.limit, cfg.window, m.now, cutoff);
      TimesSnoc(s.calls, Call(m.caller, s.phases[m.caller].k, m.now));
    }
  }

  lemma StepBackedOff(cfg: Config, s: State, m: Move)
    requires Inv(cfg, s) && Enabled(s, m)
    ensures BackedOff(cfg, Step(cfg, s, m))
  {
    var t := Step(cfg, s, m);
    forall i | 0 <= i < |s.calls| ensures Rested(cfg, t.phases, s.calls[i], m.now) {
      StepRested(cfg, s, m, s.calls[i]);
    }
  }

  lemma StepBounds(cfg: Config, s: State, m: Move)
    requires Inv(cfg, s) && Enabled(s, m)
    ensures var t := Step(cfg, s, m); forall c :: 0 <= c < |t.phases| ==> InBounds(cfg, t.phases[c])
  {
    assert InBounds(cfg, s.phases[m.caller]);
  }

  lemma StepInv(cfg: Config, s: State, m: Move)
    requires Inv(cfg, s) && Enabled(s, m)
    ensures Inv(cfg, Step(cfg, s, m))
  {
    StepSpaced(cfg, s, m);
    StepLogged(cfg, s, m);
    StepBackedOff(cfg, s, m);
    StepBounds(cfg, s, m);
  }

  lemma {:induction false} RunInv(cfg: Config, s: State, ms: seq<Move>)
    requires Inv(cfg, s) && EnabledAll(cfg, s, ms)
    ensures Inv(cfg, Run(cfg, s, ms))
    decreases |ms|
  {
    if ms != [] {
      StepInv(cfg, s, ms[0]);
      RunInv(cfg, Step(cfg, s, ms[0]), ms[1..]);
    }
  }

  /** In every interleaving of any number of callers: no window holds more upstream attempts than the
      limit, retries included; no caller makes more attempts than allowed, each of its attempts taking
      one slot; and a caller's next attempt comes no sooner than the backoff of the failed one. */
  lemma UpstreamAttemptsBounded(cfg: Config, callers: nat, now: real, ms: seq<Move>, t: real)
    requires cfg.Valid() && EnabledAll(cfg, Initial(callers, now), ms)
    ensures var s := Run(cfg, Initial(callers, now), ms);
            && Within(Times(s.calls), t, cfg.window) <= cfg.limit
            && (forall i :: 0 <= i < |s.calls| ==> s.calls[i].k <= cfg.maxRetries)
            && (forall i, j :: 0 <= i < j < |s.calls| && s.calls[i].caller == s.calls[j].caller ==>
                  s.calls[i].k < s.calls[j].k && s.calls[j].at >= s.calls[i].at + Backoff(cfg, s.calls[i].k))
  {
    InitialInv(cfg, callers, now);
    RunInv(cfg, Initial(callers, now), ms);
    var s := Run(cfg, Initial(callers, now), ms);
    WindowHolds(Times(s.calls), cfg.limit, cfg.window, t);
    forall i | 0 <= i < |s.calls| ensures s.calls[i].k <= cfg.maxRetries {
      assert InBounds(cfg, s.phases[s.calls[i].caller]);
    }
  }

  /** A move of the caller had this outcome. */
  predicate CameOut(ms: seq<Move>, caller: nat, outcome: Outcome) {
    exists j :: 0 <= j < |ms| && ms[j].caller == caller && ms[j].outcome == outcome
  }

  lemma CameOutLater(ms: seq<Move>, caller: nat, outcome: Outcome)
    requires ms != [] && CameOut(ms[1..], caller, outcome)
    ensures CameOut(ms, caller, outcome)
  {
    var j :| 0 <= j < |ms[1..]| && ms[1..][j].caller == caller && ms[1..][j].outcome == outcome;
    assert ms[j + 1].caller == caller;
  }

  /** A caller finishes well only when an attempt of its own succeeded, and gives up only on a failure that is
      not to be retried or after its last attempt. */
  lemma {:induction false} FinishesFor(cfg: Config, s: State, ms: seq<Move>, caller: nat)
    requires EnabledAll(cfg, s, ms) && caller < |s.phases| && !s.phases[caller].Finished?
    requires InBounds(cfg, s.phases[caller])
    ensures caller < |Run(cfg, s, ms).phases|
    ensures match Run(cfg, s, ms).phases[caller]
            case Finished(attempts, true) => CameOut(ms, caller, Succeeded)
            case Finished(attempts, false) => CameOut(ms, caller, Fatal) || attempts == cfg.maxRetries + 1
            case _ => true
    decreases |ms|
  {
    if ms != [] {
      var after := Step(cfg, s, ms[0]);
      if after.phases[caller].Finished? {
        StaysFinished(cfg, after, ms[1..], caller);
        assert ms[0].caller == caller;
      } else {
        PhaseInBounds(cfg, s, ms[0], caller);
        FinishesFor(cfg, after, ms[1..], caller);
        if CameOut(ms[1..], caller, Succeeded) {
          CameOutLater(ms, caller, Succeeded);
        }
        if CameOut(ms[1..], caller, Fatal) {
          CameOutLater(ms, caller, Fatal);
        }
      }
    }
  }

  lemma PhaseInBounds(cfg: Config, s: State, m: Move, caller: nat)
    requires Enabled(s, m) && caller < |s.phases| && InBounds(cfg, s.phases[caller])
    ensures InBounds(cfg, Step(cfg, s, m).phases[caller])
  {
  }

  lemma {:induction false} StaysFinished(cfg: Config, s: State, ms: seq<Move>, caller: nat)
    requires EnabledAll(cfg, s, ms) && caller < |s.phases| && s.phases[caller].Finished?
    ensures caller < |Run(cfg, s, ms).phases| && Run(cfg, s, ms).phases[caller] == s.phases[caller]
    decreases |ms|
  {
    if ms != [] {
      StaysFinished(cfg, Step(cfg, s, ms[0]), ms[1..], caller);
    }
  }
}
