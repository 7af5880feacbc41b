/** The strict sliding-window limiter (core/rate_limit.py): its short list of recent times decides as the
    whole history would, and no window ever holds more than the limit. */
module SlidingWindow {

  /** Clock readings that never go back. */
  predicate Ordered(ts: seq<real>) {
    |ts| <= 1 || (ts[|ts| - 2] <= ts[|ts| - 1] && Ordered(ts[..|ts| - 1]))
  }

  /** Acquisitions up to here have left the window. */
  function Cutoff(now: real, w: real): real {
    now - w
  }

  /** The acquisitions after `cutoff`. */
  function Recent(history: seq<real>, cutoff: real): nat {
    if history == [] then 0
    else Recent(history[..|history| - 1], cutoff) + if history[|history| - 1] > cutoff then 1 else 0
  }

  /** The acquisitions in the half-open window of length `w` that starts at `t`. */
  function Within(history: seq<real>, t: real, w: real): nat {
    if history == [] then 0
    else
      var last := history[|history| - 1];
      Within(history[..|history| - 1], t, w) + if t <= last < t + w then 1 else 0
  }

  /** Each acquisition is at least `w` after the one `n` places before it. */
  predicate Spaced(history: seq<real>, n: nat, w: real) {
    history == [] ||
    (&& Spaced(history[..|history| - 1], n, w)
     && (|history| > n ==> history[|history| - 1] - history[|history| - 1 - n] >= w))
  }

  lemma {:induction false} OrderedAt(ts: seq<real>, i: nat, j: nat)
    requires Ordered(ts) && i <= j < |ts|
    ensures ts[i] <= ts[j]
    decreases |ts|
  {
    if i < j {
      var init := ts[..|ts| - 1];
      if j == |ts| - 1 {
        OrderedAt(init, i, j - 1);
        assert init[i] == ts[i] && init[j - 1] == ts[j - 1];
      } else {
        OrderedAt(init, i, j);
        assert init[i] == ts[i] && init[j] == ts[j];
      }
    }
  }

  lemma {:induction false} SpacedAt(history: seq<real>, n: nat, w: real, i: nat, j: nat)
    requires Ordered(history) && Spaced(history, n, w) && i + n <= j < |history|
    ensures history[j] - history[i] >= w
    decreases |history|
  {
    var init := history[..|history| - 1];
    if j < |init| {
      assert |history| > 1;
      SpacedAt(init, n, w, i, j);
      assert init[i] == history[i] && init[j] == history[j];
    } else {
      OrderedAt(history, i, j - n);
    }
  }

  // ----- one turn of `acquire`, with the lock held -----

  /** The pops at the front. */
  function Prune(times: seq<real>, cutoff: real): (r: seq<real>)
    ensures r != [] ==> r[0] > cutoff
  {
    if times == [] || times[0] > cutoff then times else Prune(times[1..], cutoff)
  }

  /** The times are the last entries of the history; the entries before them are not after `cutoff`. */
  predicate Trails(times: seq<real>, history: seq<real>, cutoff: real) {
    && |times| <= |history| && times == history[|history| - |times|..]
    && (|times| < |history| ==> history[|history| - |times| - 1] <= cutoff)
  }

  /** The limiter's state, beside the whole history and the last clock reading. */
  predicate Sound(times: seq<real>, history: seq<real>, n: nat, w: real, clock: real) {
    && n > 0 && w > 0.0
    && Ordered(history) && Spaced(history, n, w)
    && Trails(times, history, Cutoff(clock, w))
    && (history != [] ==> history[|history| - 1] <= clock)
  }

  lemma {:induction false} RecentNone(history: seq<real>, cutoff: real)
    requires Ordered(history) && (history != [] ==> history[|history| - 1] <= cutoff)
    ensures Recent(history, cutoff) == 0
    decreases |history|
  {
    if history != [] {
      RecentNone(history[..|history| - 1], cutoff);
    }
  }

  /** Of a history whose first `k` entries are old and the next one is recent, the others count. */
  lemma {:induction false} RecentFrom(history: seq<real>, cutoff: real, k: nat)
    requires Ordered(history) && k <= |history|
    requires k > 0 ==> history[k - 1] <= cutoff
    requires k < |history| ==> history[k] > cutoff
    ensures Recent(history, cutoff) == |history| - k
    decreases |history|
  {
    if k == |history| {
      RecentNone(history, cutoff);
    } else {
      OrderedAt(history, k, |history| - 1);
      RecentFrom(history[..|history| - 1], cutoff, k);
    }
  }

  lemma PopTrails(times: seq<real>, history: seq<real>, past: real, cutoff: real)
    requires Trails(times, history, past) && times != [] && times[0] <= cutoff
    ensures Trails(times[1..], history, cutoff)
  {
    var d := |history| - |times|;
    assert history[d] == times[0];
    assert history[d..][1..] == history[d + 1..];
  }

  lemma {:induction false} PruneTrails(times: seq<real>, history: seq<real>, past: real, cutoff: real)
    requires Trails(times, history, past) && past <= cutoff
    ensures Trails(Prune(times, cutoff), history, cutoff)
    decreases |times|
  {
    if times != [] && times[0] <= cutoff {
      PopTrails(times, history, past, cutoff);
      PruneTrails(times[1..], history, cutoff, cutoff);
    }
  }

  lemma TrailsCount(kept: seq<real>, history: seq<real>, cutoff: real)
    requires Ordered(history) && Trails(kept, history, cutoff) && (kept != [] ==> kept[0] > cutoff)
    ensures |kept| == Recent(history, cutoff)
  {
    var d := |history| - |kept|;
    assert kept != [] ==> history[d] == kept[0];
    RecentFrom(history, cutoff, d);
  }

  /** After the pops, what is kept are exactly the acquisitions of the last `w` seconds. */
  lemma PruneSound(times: seq<real>, history: seq<real>, n: nat, w: real, clock: real, now: real)
    requires Sound(times, history, n, w, clock) && clock <= now
    ensures var kept := Prune(times, Cutoff(now, w));
            Sound(kept, history, n, w, now) && |kept| == Recent(history, Cutoff(now, w))
  {
    PruneTrails(times, history, Cutoff(clock, w), Cutoff(now, w));
    TrailsCount(Prune(times, Cutoff(now, w)), history, Cutoff(now, w));
  }

  lemma {:induction false} RecentAtLeast(history: seq<real>, cutoff: real, i: nat)
    requires Ordered(history) && i < |history| && history[i] > cutoff
    ensures Recent(history, cutoff) >= |history| - i
    decreases |history|
  {
    OrderedAt(history, i, |history| - 1);
    var init := history[..|history| - 1];
    if i < |init| {
      assert init[i] == history[i];
      RecentAtLeast(init, cutoff, i);
    }
  }

  lemma GrantSpaced(history: seq<real>, n: nat, w: real, now: real, cutoff: real)
    requires n > 0 && Ordered(history) && Spaced(history, n, w) && (history != [] ==> history[|history| - 1] <= now)
    requires cutoff == now - w && Recent(history, cutoff) < n
    ensures Ordered(history + [now]) && Spaced(history + [now], n, w)
  {
    var after := history + [now];
    assert after[..|after| - 1] == history;
    if |history| >= n && history[|history| - n] > cutoff {
      RecentAtLeast(history, cutoff, |history| - n);
    }
  }

  lemma SnocTrails(times: seq<real>, history: seq<real>, cutoff: real, now: real)
    requires Trails(times, history, cutoff)
    ensures Trails(times + [now], history + [now], cutoff)
  {
    assert (history + [now])[|history| - |times|..] == history[|history| - |times|..] + [now];
  }

  /** An acquisition that finds fewer than `n` in the last `w` seconds keeps everything so. */
  lemma GrantSound(times: seq<real>, history: seq<real>, n: nat, w: real, now: real)
    requires Sound(times, history, n, w, now) && Recent(history, Cutoff(now, w)) < n
    ensures Sound(times + [now], history + [now], n, w, now)
  {
    GrantSpaced(history, n, w, now, Cutoff(now, w));
    SnocTrails(times, history, Cutoff(now, w), now);
  }

  /** A whole turn. */
  lemma TurnSound(times: seq<real>, history: seq<real>, n: nat, w: real, clock: real, now: real, kept: seq<real>)
    requires Sound(times, history, n, w, clock) && clock <= now && kept == Prune(times, Cutoff(now, w))
    ensures |kept| == Recent(history, Cutoff(now, w))
    ensures |kept| < n ==> Sound(kept + [now], history + [now], n, w, now)
    ensures |kept| >= n ==> Sound(kept, history, n, w, now) && kept != [] && kept[0] > Cutoff(now, w)
  {
    PruneSound(times, history, n, w, clock, now);
    if |kept| < n {
      GrantSound(kept, history, n, w, now);
    }
  }

  // ----- windows -----

  lemma {:induction false} WithinAtMost(history: seq<real>, t: real, w: real, from: nat)
    requires Ordered(history) && from <= |history| && (from > 0 ==> history[from - 1] < t)
    ensures Within(history, t, w) <= |history| - from
    decreases |history|
  {
    if history != [] {
      var init := history[..|history| - 1];
      if from == |history| {
        assert |init| > 0 ==> init[|init| - 1] <= history[|history| - 1];
        WithinAtMost(init, t, w, from - 1);
      } else {
        WithinAtMost(init, t, w, from);
      }
    }
  }

  /** No half-open window of length `w` holds more than `n` acquisitions. */
  lemma {:induction false} WindowHolds(history: seq<real>, n: nat, w: real, t: real)
    requires n > 0 && Ordered(history) && Spaced(history, n, w)
    ensures Within(history, t, w) <= n
    decreases |history|
  {
    if history != [] {
      var m := |history| - 1;
      if t <= history[m] < t + w {
        WithinAtMost(history, t, w, if m < n then 0 else m - n + 1);
      } else {
        WindowHolds(history[..m], n, w, t);
      }
    }
  }

  /** Once the oldest time kept has left the window, there is room. */
  lemma OldestLeaves(times: seq<real>, history: seq<real>, n: nat, w: real, now: real)
    requires Sound(times, history, n, w, now) && times != [] && times[0] > Cutoff(now, w)
    ensures Recent(history, times[0]) < n
  {
    var d := |history| - |times|;
    assert history[d] == times[0];
    if |times| > n {
      SpacedAt(history, n, w, d, d + n);
      OrderedAt(history, d + n, |history| - 1);
    }
    LeftAfter(history, d);
  }

  lemma {:induction false} RecentFewer(history: seq<real>, early: real, late: real)
    requires early <= late
    ensures Recent(history, late) <= Recent(history, early)
    decreases |history|
  {
    if history != [] {
      RecentFewer(history[..|history| - 1], early, late);
    }
  }

  /** Fewer than all from position `d` on are after the time at `d`. */
  lemma {:induction false} LeftAfter(history: seq<real>, d: nat)
    requires Ordered(history) && d < |history|
    ensures Recent(history, history[d]) < |history| - d
    decreases |history|
  {
    var init := history[..|history| - 1];
    if d == |init| {
      RecentNone(history, history[d]);
    } else {
      assert init[d] == history[d];
      LeftAfter(init, d);
    }
  }

  class StrictSlidingWindowLimiter {
    const rateLimit: nat
    const rateWindow: real
    var times: seq<real>

    ghost var acquired: seq<real>     // every acquisition so far
    ghost var clock: real             // the last clock reading

    ghost predicate Valid()
      reads this
    {
      Sound(times, acquired, rateLimit, rateWindow, clock)
    }

    constructor (rateLimit: nat, rateWindow: real, ghost now: real)
      requires rateLimit > 0 && rateWindow > 0.0
      ensures Valid() && acquired == [] && clock == now
      ensures this.rateLimit == rateLimit && this.rateWindow == rateWindow
    {
      this.rateLimit, this.rateWindow := rateLimit, rateWindow;
      times, acquired, clock := [], [], now;
    }

    /** The pops at the front. */
    method PopOld(cutoff: real)
      modifies `times
      ensures times == Prune(old(times), cutoff)
    {
      while times != [] && times[0] <= cutoff
        invariant Prune(times, cutoff) == Prune(old(times), cutoff)
        decreases |times|
      {
        times := times[1..];
      }
    }

    /** One turn of `acquire` at clock reading `now`: a slot is given exactly when fewer than the limit
        were in the last window; otherwise `wait` is the positive time until the oldest leaves it. */
    method TryAcquire(now: real) returns (got: bool, wait: real)
      requires Valid() && clock <= now
      modifies this
      ensures Valid() && clock == now
      ensures got <==> Recent(old(acquired), Cutoff(now, rateWindow)) < rateLimit
      ensures acquired == if got then old(acquired) + [now] else old(acquired)
      ensures !got ==> times != [] && times[0] > Cutoff(now, rateWindow)
      ensures !got ==> wait == times[0] + rateWindow - now && wait > 0.0
    {
      TurnSound(times, acquired, rateLimit, rateWindow, clock, now, Prune(times, Cutoff(now, rateWindow)));
      PopOld(Cutoff(now, rateWindow));
      clock := now;
      if |times| < rateLimit {
        times := times + [now];
        acquired := acquired + [now];
        return true, 0.0;
      }
      return false, times[0] + rateWindow - now;
    }

    /** A caller that was refused and waited is served, unless someone else took a slot meanwhile; the
        sleep may last longer than asked for. */
    method TryAgain(now: real, overslept: real) returns (wait: real, got: bool)
      requires Valid() && clock <= now && overslept >= 0.0
      modifies this
      ensures Valid() && got && wait >= 0.0
      ensures acquired == old(acquired) + [if wait == 0.0 then now else now + wait + overslept]
    {
      got, wait := TryAcquire(now);
      if got {
        return 0.0, true;
      }
      OldestLeaves(times, acquired, rateLimit, rateWindow, now);
      assert now + wait - rateWindow == times[0];
      RecentFewer(acquired, times[0], now + wait + overslept - rateWindow);
      var again;
      got, again := TryAcquire(now + wait + overslept);
    }
  }

  /** The same decisions taken with the whole history at hand. */
  function Grants(n: nat, w: real, readings: seq<real>): seq<real> {
    if readings == [] then []
    else
      var now, before := readings[|readings| - 1], Grants(n, w, readings[..|readings| - 1]);
      if Recent(before, Cutoff(now, w)) < n then before + [now] else before
  }

  lemma GrantsNext(n: nat, w: real, readings: seq<real>, k: nat)
    requires k < |readings|
    ensures var before := Grants(n, w, readings[..k]);
            Grants(n, w, readings[..k + 1]) ==
            if Recent(before, Cutoff(readings[k], w)) < n then before + [readings[k]] else before
  {
    assert readings[..k + 1][..k] == readings[..k];
  }

  /** Any number of callers, in any interleaving: their turns take the lock one at a time, at clock
      readings that never go back. The turns granted are those a limiter with the whole history would
      grant, those `n` places apart are at least `w` apart in time, and no window of length `w` ever
      holds more than `n` of them. */
  method RunTurns(n: nat, w: real, readings: seq<real>) returns (acquired: seq<real>)
    requires n > 0 && w > 0.0 && Ordered(readings)
    ensures acquired == Grants(n, w, readings)
    ensures forall i, j :: 0 <= i && i + n <= j < |acquired| ==> acquired[j] - acquired[i] >= w
    ensures forall t :: Within(acquired, t, w) <= n
  {
    acquired := [];
    if readings != [] {
      var limiter := new StrictSlidingWindowLimiter(n, w, readings[0]);
      for k := 0 to |readings|
        invariant limiter.Valid() && limiter.acquired == acquired && limiter.rateLimit == n && limiter.rateWindow == w
        invariant acquired == Grants(n, w, readings[..k])
        invariant limiter.clock == if k == 0 then readings[0] else readings[k - 1]
      {
        GrantsNext(n, w, readings, k);
        OrderedAt(readings, if k == 0 then 0 else k - 1, k);
        var got, wait := limiter.TryAcquire(readings[k]);
        if got {
          acquired := acquired + [readings[k]];
        }
      }
      AllWindowsHold(acquired, n, w);
    }
    assert readings[..|readings|] == readings;
  }

  lemma AllWindowsHold(history: seq<real>, n: nat, w: real)
    requires n > 0 && Ordered(history) && Spaced(history, n, w)
    ensures forall i, j :: 0 <= i && i + n <= j < |history| ==> history[j] - history[i] >= w
    ensures forall t :: Within(history, t, w) <= n
  {
    forall i, j | 0 <= i && i + n <= j < |history| ensures history[j] - history[i] >= w {
      SpacedAt(history, n, w, i, j);
    }
    forall t ensures Within(history, t, w) <= n {
      WindowHolds(history, n, w, t);
    }
  }
}
