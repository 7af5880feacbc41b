/** The response cache's exact path (core/reliability/cache.py): least recently used out first, entries
    that expire, compared with what the history of calls says. */
module ResponseCaches {
  import opened OrderedDict

  type Key = string

  datatype Entry = Entry(chunks: seq<string>, expiresAt: real)

  type Cache = Dict<Key, Entry>

  const FOREVER: real := 999999999.0

  function ExpiresAt(now: real, ttl: int): real {
    now + if ttl > 0 then ttl as real else FOREVER
  }

  /** What was called, and how a lookup came out. */
  datatype Happening =
    | WasSet(key: Key, entry: Entry)
    | Hit(key: Key)
    | Missed(key: Key, at: real)
    | Cleared

  // ----- the calls -----

  /** `move_to_end`. */
  function MoveToEnd(c: Cache, key: Key): Cache
    requires key in c.at
  {
    Dict(Without(c.keys, key) + [key], c.at)
  }

  /** `get` without semantic matching: the cache after it, and what it returns. */
  function Get(c: Cache, key: Key, now: real): (Cache, Option<seq<string>>) {
    if key !in c.at then (c, None)
    else if c.at[key].expiresAt > now then (MoveToEnd(c, key), Some(c.at[key].chunks))
    else (c.Remove(key), None)
  }

  /** Make room for a new key. */
  function Evict(c: Cache, key: Key, maxSize: nat): Cache {
    if key in c.at then c.Remove(key)
    else if |c.keys| >= maxSize && c.keys != [] then Dict(c.keys[1..], c.at - {c.keys[0]})
    else c
  }

  /** `set`. */
  function Set(c: Cache, key: Key, entry: Entry, maxSize: nat): Cache {
    var room := Evict(c, key, maxSize);
    Dict(room.keys + [key], room.at[key := entry])
  }

  // ----- what the history says -----

  /** The entry last set for a key, since the cache was last cleared. */
  function LatestSet(h: seq<Happening>, key: Key): Option<Entry> {
    if h == [] then None
    else
      match h[|h| - 1]
      case WasSet(k, entry) => if k == key then Some(entry) else LatestSet(h[..|h| - 1], key)
      case Cleared => None
      case _ => LatestSet(h[..|h| - 1], key)
  }

  predicate Uses(e: Happening, key: Key) {
    (e.WasSet? || e.Hit?) && e.key == key
  }

  /** When a key was last set or hit, since the cache was last cleared; -1 if it was not. */
  function LastUse(h: seq<Happening>, key: Key): (r: int)
    ensures -1 <= r < |h|
    ensures r >= 0 ==> Uses(h[r], key)
  {
    if h == [] || h[|h| - 1].Cleared? then -1
    else if Uses(h[|h| - 1], key) then |h| - 1
    else LastUse(h[..|h| - 1], key)
  }

  /** The other keys set or hit since a key was. */
  function UsedSince(h: seq<Happening>, key: Key): set<Key> {
    if h == [] || h[|h| - 1].Cleared? || Uses(h[|h| - 1], key) then {}
    else
      var e := h[|h| - 1];
      UsedSince(h[..|h| - 1], key) + if e.WasSet? || e.Hit? then {e.key} else {}
  }

  predicate Alive(h: seq<Happening>, key: Key, now: real) {
    LatestSet(h, key).Some? && LatestSet(h, key).value.expiresAt > now
  }

  /** Since a key was last set, a lookup of it came at or after the time its entry expires. */
  predicate LookedUpLate(h: seq<Happening>, key: Key) {
    h != [] &&
    var init := h[..|h| - 1];
    match h[|h| - 1]
    case WasSet(k, _) => k != key && LookedUpLate(init, key)
    case Hit(_) => LookedUpLate(init, key)
    case Missed(k, at) =>
      (k == key && LatestSet(init, key).Some? && LatestSet(init, key).value.expiresAt <= at) || LookedUpLate(init, key)
    case Cleared => false
  }

  // ----- the cache and its history agree -----

  /** From least to most recently used. */
  ghost predicate ByUse(keys: seq<Key>, h: seq<Happening>) {
    keys == [] || (ByUse(keys[1..], h) && forall k :: k in keys[1..] ==> LastUse(h, keys[0]) < LastUse(h, k))
  }

  /** The entry of a key may be gone: it was found expired, or enough others were used since. */
  predicate Droppable(h: seq<Happening>, key: Key, maxSize: nat) {
    LookedUpLate(h, key) || |UsedSince(h, key)| >= maxSize
  }

  /** The cache holds the latest set of a key, or its entry may be gone. */
  predicate Holds(at: map<Key, Entry>, h: seq<Happening>, maxSize: nat, k: Key) {
    && (k in at ==> LatestSet(h, k) == Some(at[k]) && LastUse(h, k) >= 0 && !LookedUpLate(h, k))
    && (LatestSet(h, k).Some? ==> k in at || Droppable(h, k, maxSize))
  }

  ghost predicate Inv(c: Cache, h: seq<Happening>, maxSize: nat) {
    c.Valid() && |c.keys| <= maxSize && ByUse(c.keys, h) && forall k :: Holds(c.at, h, maxSize, k)
  }

  lemma HistorySnoc(h: seq<Happening>, e: Happening, key: Key)
    ensures LatestSet(h + [e], key) == if e.WasSet? && e.key == key then Some(e.entry)
                                       else if e.Cleared? then None else LatestSet(h, key)
    ensures LastUse(h + [e], key) == if e.Cleared? then -1 else if Uses(e, key) then |h| else LastUse(h, key)
    ensures UsedSince(h + [e], key) == if e.Cleared? || Uses(e, key) then {}
                                       else UsedSince(h, key) + if e.WasSet? || e.Hit? then {e.key} else {}
    ensures LookedUpLate(h + [e], key) <==>
            || (LookedUpLate(h, key) && !e.Cleared? && !(e.WasSet? && e.key == key))
            || (e.Missed? && e.key == key && LatestSet(h, key).Some? && LatestSet(h, key).value.expiresAt <= e.at)
  {
    assert (h + [e])[..|h|] == h;
  }

  /** A key used later is among those used since. */
  lemma {:induction false} UsedLater(h: seq<Happening>, a: Key, b: Key)
    requires LastUse(h, a) < LastUse(h, b)
    ensures b in UsedSince(h, a)
    decreases |h|
  {
    if !Uses(h[|h| - 1], b) {
      UsedLater(h[..|h| - 1], a, b);
    }
  }

  lemma {:induction false} NotAmongOthers(h: seq<Happening>, a: Key)
    ensures a !in UsedSince(h, a)
    decreases |h|
  {
    if h != [] {
      NotAmongOthers(h[..|h| - 1], a);
    }
  }

  lemma {:induction false} WithoutByUse(keys: seq<Key>, x: Key, h: seq<Happening>)
    requires ByUse(keys, h)
    ensures ByUse(Without(keys, x), h)
    decreases |keys|
  {
    if keys != [] {
      WithoutByUse(keys[1..], x, h);
      var rest := Without(keys[1..], x);
      assert ([keys[0]] + rest)[1..] == rest;
    }
  }

  /** Events that use none of the keys do not change their order. */
  lemma {:induction false} SameByUse(keys: seq<Key>, h: seq<Happening>, h': seq<Happening>)
    requires ByUse(keys, h) && forall k :: k in keys ==> LastUse(h', k) == LastUse(h, k)
    ensures ByUse(keys, h')
    decreases |keys|
  {
    if keys != [] {
      assert forall k :: k in keys[1..] ==> k in keys;
      SameByUse(keys[1..], h, h');
    }
  }

  /** A key just used goes last. */
  lemma {:induction false} UsedLast(keys: seq<Key>, key: Key, h: seq<Happening>)
    requires ByUse(keys, h) && forall k :: k in keys ==> LastUse(h, k) < LastUse(h, key)
    ensures ByUse(keys + [key], h)
    decreases |keys|
  {
    if keys == [] {
      assert [key][1..] == [] && keys + [key] == [key];
    } else {
      assert forall k :: k in keys[1..] ==> k in keys;
      UsedLast(keys[1..], key, h);
      assert (keys + [key])[1..] == keys[1..] + [key];
    }
  }

  // ----- every call keeps it -----

  lemma MissInv(c: Cache, h: seq<Happening>, maxSize: nat, key: Key, now: real)
    requires Inv(c, h, maxSize) && (key in c.at ==> c.at[key].expiresAt <= now)
    ensures Inv(c.Remove(key), h + [Missed(key, now)], maxSize)
  {
    var e := Missed(key, now);
    var c' := c.Remove(key);
    forall k ensures Holds(c'.at, h + [e], maxSize, k) && LastUse(h + [e], k) == LastUse(h, k) {
      assert Holds(c.at, h, maxSize, k);
      HistorySnoc(h, e, k);
    }
    WithoutByUse(c.keys, key, h);
    SameByUse(c'.keys, h, h + [e]);
  }

  lemma UseKeepsOthers(h: seq<Happening>, e: Happening, k: Key)
    requires e.WasSet? || e.Hit?
    ensures k != e.key ==> LatestSet(h + [e], k) == LatestSet(h, k) && LastUse(h + [e], k) == LastUse(h, k)
    ensures k != e.key ==> UsedSince(h + [e], k) == UsedSince(h, k) + {e.key} && LookedUpLate(h + [e], k) == LookedUpLate(h, k)
    ensures k == e.key ==> LookedUpLate(h + [e], k) == (e.Hit? && LookedUpLate(h, k))
    ensures k == e.key ==> LastUse(h + [e], k) == |h|
    ensures |UsedSince(h, k)| <= |UsedSince(h, k) + {e.key}|
  {
    HistorySnoc(h, e, k);
    SubsetSize(UsedSince(h, k), UsedSince(h, k) + {e.key});
  }

  lemma SubsetSize(a: set<Key>, b: set<Key>)
    requires a <= b
    ensures |a| <= |b|
  {
    if a != {} {
      var x :| x in a;
      SubsetSize(a - {x}, b - {x});
    }
  }

  lemma HitInv(c: Cache, h: seq<Happening>, maxSize: nat, key: Key)
    requires Inv(c, h, maxSize) && key in c.at
    ensures Inv(MoveToEnd(c, key), h + [Hit(key)], maxSize)
  {
    var e := Hit(key);
    var others := Without(c.keys, key);
    forall k ensures Holds(c.at, h + [e], maxSize, k) && (k != key ==> LastUse(h + [e], k) == LastUse(h, k)) {
      assert Holds(c.at, h, maxSize, k);
      UseKeepsOthers(h, e, k);
      HistorySnoc(h, e, k);
    }
    HistorySnoc(h, e, key);
    WithoutByUse(c.keys, key, h);
    SameByUse(others, h, h + [e]);
    UsedLast(others, key, h + [e]);
  }

  /** What making room leaves. */
  lemma EvictInv(c: Cache, h: seq<Happening>, maxSize: nat, key: Key)
    requires Inv(c, h, maxSize) && maxSize >= 1
    ensures var room := Evict(c, key, maxSize);
            && room.Valid() && |room.keys| < maxSize && key !in room.at && ByUse(room.keys, h)
            && (forall k :: k in room.at ==> k in c.at && room.at[k] == c.at[k])
            && (forall k :: k in c.at && k != key && k !in room.at ==> key !in c.at && |UsedSince(h, k) + {key}| >= maxSize)
  {
    if key in c.at {
      WithoutByUse(c.keys, key, h);
      assert key in c.keys;
    } else if |c.keys| >= maxSize {
      EvictedOldest(c, h, key, maxSize);
    }
  }

  lemma EvictedOldest(c: Cache, h: seq<Happening>, key: Key, maxSize: nat)
    requires c.Valid() && ByUse(c.keys, h) && |c.keys| == maxSize >= 1 && key !in c.at
    ensures var room := Evict(c, key, maxSize);
            && room.Valid() && |room.keys| < maxSize && ByUse(room.keys, h)
            && (forall k :: k in room.at <==> k in c.at && k != c.keys[0])
    ensures |UsedSince(h, c.keys[0]) + {key}| >= maxSize
  {
    var oldest, rest := c.keys[0], c.keys[1..];
    assert c.keys == [oldest] + rest;
    forall k | k in rest ensures k in UsedSince(h, oldest) {
      UsedLater(h, oldest, k);
    }
    DistinctSize(rest);
    var others := set k | k in rest;
    assert key !in others;
    assert |others + {key}| == |rest| + 1;
    SubsetSize(others + {key}, UsedSince(h, oldest) + {key});
  }

  lemma {:induction false} DistinctSize(keys: seq<Key>)
    requires Distinct(keys)
    ensures |set k | k in keys| == |keys|
    decreases |keys|
  {
    if keys == [] {
      assert (set k | k in keys) == {};
    } else {
      var rest := keys[1..];
      assert Distinct(rest) && keys[0] !in rest && keys == [keys[0]] + rest;
      DistinctSize(rest);
      assert (set k | k in keys) == (set k | k in rest) + {keys[0]};
    }
  }

  lemma SetOrder(c: Cache, h: seq<Happening>, maxSize: nat, key: Key, entry: Entry)
    requires Inv(c, h, maxSize) && maxSize >= 1
    ensures var c' := Set(c, key, entry, maxSize);
            c'.Valid() && |c'.keys| <= maxSize && ByUse(c'.keys, h + [WasSet(key, entry)])
  {
    var e := WasSet(key, entry);
    var room := Evict(c, key, maxSize);
    EvictInv(c, h, maxSize, key);
    forall k | k in room.keys ensures LastUse(h + [e], k) == LastUse(h, k) {
      UseKeepsOthers(h, e, k);
    }
    HistorySnoc(h, e, key);
    SameByUse(room.keys, h, h + [e]);
    UsedLast(room.keys, key, h + [e]);
  }

  lemma SetKeeps(c: Cache, h: seq<Happening>, maxSize: nat, key: Key, entry: Entry, k: Key)
    requires Inv(c, h, maxSize) && maxSize >= 1
    ensures Holds(Set(c, key, entry, maxSize).at, h + [WasSet(key, entry)], maxSize, k)
  {
    assert Holds(c.at, h, maxSize, k);
    EvictInv(c, h, maxSize, key);
    UseKeepsOthers(h, WasSet(key, entry), k);
    HistorySnoc(h, WasSet(key, entry), k);
  }

  lemma SetInv(c: Cache, h: seq<Happening>, maxSize: nat, key: Key, entry: Entry)
    requires Inv(c, h, maxSize) && maxSize >= 1
    ensures Inv(Set(c, key, entry, maxSize), h + [WasSet(key, entry)], maxSize)
  {
    SetOrder(c, h, maxSize, key, entry);
    forall k ensures Holds(Set(c, key, entry, maxSize).at, h + [WasSet(key, entry)], maxSize, k) {
      SetKeeps(c, h, maxSize, key, entry, k);
    }
  }

  lemma ClearInv(h: seq<Happening>, maxSize: nat)
    ensures Inv(Dict([], map[]), h + [Cleared], maxSize)
  {
    forall k ensures LatestSet(h + [Cleared], k) == None {
      HistorySnoc(h, Cleared, k);
    }
  }

  /** A lookup that hits returns what was last set, unexpired. One that misses an unexpired key does so
      because the key was crowded out or had been found expired, and in the latter case it always does. */
  lemma LookupTellsLatest(c: Cache, h: seq<Happening>, maxSize: nat, key: Key, now: real)
    requires Inv(c, h, maxSize)
    ensures var found := Get(c, key, now).1;
            && (found.Some? ==> Alive(h, key, now) && found.value == LatestSet(h, key).value.chunks)
            && (found.None? && Alive(h, key, now) ==> Droppable(h, key, maxSize))
            && (LookedUpLate(h, key) ==> found.None?)
  {
    assert Holds(c.at, h, maxSize, key);
  }

  // ----- any sequence of calls -----

  datatype Call = DoGet(key: Key, now: real) | DoSet(key: Key, entry: Entry, now: real) | DoClear(now: real)

  function Step(c: Cache, call: Call, maxSize: nat): Cache {
    match call
    case DoGet(key, now) => Get(c, key, now).0
    case DoSet(key, entry, _) => Set(c, key, entry, maxSize)
    case DoClear(_) => Dict([], map[])
  }

  function Happens(c: Cache, call: Call): Happening {
    match call
    case DoGet(key, now) => if Get(c, key, now).1.Some? then Hit(key) else Missed(key, now)
    case DoSet(key, entry, _) => WasSet(key, entry)
    case DoClear(_) => Cleared
  }

  /** The cache after the calls, and their history. */
  function Run(calls: seq<Call>, maxSize: nat): (Cache, seq<Happening>) {
    if calls == [] then (Dict([], map[]), [])
    else
      var before, call := Run(calls[..|calls| - 1], maxSize), calls[|calls| - 1];
      (Step(before.0, call, maxSize), before.1 + [Happens(before.0, call)])
  }

  lemma RunSnoc(calls: seq<Call>, call: Call, maxSize: nat)
    ensures var before := Run(calls, maxSize);
            Run(calls + [call], maxSize) == (Step(before.0, call, maxSize), before.1 + [Happens(before.0, call)])
  {
    assert (calls + [call])[..|calls|] == calls;
  }

  lemma StepInv(c: Cache, h: seq<Happening>, maxSize: nat, call: Call)
    requires Inv(c, h, maxSize) && maxSize >= 1
    ensures Inv(Step(c, call, maxSize), h + [Happens(c, call)], maxSize)
  {
    match call
    case DoGet(key, now) =>
      if key in c.at && c.at[key].expiresAt > now {
        HitInv(c, h, maxSize, key);
      } else {
        MissInv(c, h, maxSize, key, now);
        if key !in c.at {
          RemoveAbsent(c, key);
        }
      }
    case DoSet(key, entry, _) => SetInv(c, h, maxSize, key, entry);
    case DoClear(_) => ClearInv(h, maxSize);
  }

  lemma {:induction false} RunInv(calls: seq<Call>, maxSize: nat)
    requires maxSize >= 1
    ensures Inv(Run(calls, maxSize).0, Run(calls, maxSize).1, maxSize)
    decreases |calls|
  {
    if calls != [] {
      var init, call := calls[..|calls| - 1], calls[|calls| - 1];
      RunInv(init, maxSize);
      StepInv(Run(init, maxSize).0, Run(init, maxSize).1, maxSize, call);
    }
  }

  /** After any calls, whatever the clock reads: the cache is within its size, a lookup that hits returns
      the chunks of the key's latest set before they expire, and an unexpired key since whose last use
      fewer distinct other keys than the cache holds were set or hit is missed exactly when, since its
      latest set, it was looked up at or after the time it expires. */
  lemma EverySequenceTellsLatest(calls: seq<Call>, maxSize: nat, key: Key, now: real)
    requires maxSize >= 1
    ensures var (c, h) := Run(calls, maxSize);
            var found := Get(c, key, now).1;
            && |c.keys| <= maxSize
            && (found.Some? ==> Alive(h, key, now) && found.value == LatestSet(h, key).value.chunks)
            && (Alive(h, key, now) && |UsedSince(h, key)| < maxSize ==> (found.None? <==> LookedUpLate(h, key)))
            && key !in UsedSince(h, key)
  {
    RunInv(calls, maxSize);
    LookupTellsLatest(Run(calls, maxSize).0, Run(calls, maxSize).1, maxSize, key, now);
    NotAmongOthers(Run(calls, maxSize).1, key);
  }

  /** Clock readings that never go back, from `start` on. */
  predicate InTime(calls: seq<Call>, start: real) {
    calls == [] ||
    (InTime(calls[..|calls| - 1], start) && Clock(calls[..|calls| - 1], start) <= calls[|calls| - 1].now)
  }

  function Clock(calls: seq<Call>, start: real): real {
    if calls == [] then start else calls[|calls| - 1].now
  }

  lemma {:induction false} LateIsExpired(calls: seq<Call>, maxSize: nat, start: real, key: Key)
    requires InTime(calls, start) && LookedUpLate(Run(calls, maxSize).1, key)
    ensures var latest := LatestSet(Run(calls, maxSize).1, key); latest.Some? && latest.value.expiresAt <= Clock(calls, start)
    decreases |calls|
  {
    var init, call := calls[..|calls| - 1], calls[|calls| - 1];
    var before := Run(init, maxSize);
    HistorySnoc(before.1, Happens(before.0, call), key);
    if LookedUpLate(before.1, key) {
      LateIsExpired(init, maxSize, start, key);
    }
  }

  /** While the clock never goes back, an unexpired key is missed only if at least as many distinct other
      keys as the cache holds were set or hit since it was. */
  lemma ForwardClockMisses(calls: seq<Call>, maxSize: nat, start: real, key: Key, now: real)
    requires maxSize >= 1 && InTime(calls, start) && Clock(calls, start) <= now
    ensures var (c, h) := Run(calls, maxSize);
            Get(c, key, now).1.None? && Alive(h, key, now) ==> |UsedSince(h, key)| >= maxSize
  {
    EverySequenceTellsLatest(calls, maxSize, key, now);
    if LookedUpLate(Run(calls, maxSize).1, key) {
      LateIsExpired(calls, maxSize, start, key);
    }
  }

  /** When the clock goes back, an unexpired key can be missed that nothing crowded out: a lookup found it
      expired and dropped it. */
  lemma ClockSteppedBack(key: Key, entry: Entry, maxSize: nat, late: real, now: real)
    requires maxSize >= 1 && now < entry.expiresAt <= late
    ensures var (c, h) := Run([DoSet(key, entry, now), DoGet(key, late)], maxSize);
            Get(c, key, now).1 == None && Alive(h, key, now) && UsedSince(h, key) == {}
  {
    var first, lookup := DoSet(key, entry, now), DoGet(key, late);
    RunSnoc([], first, maxSize);
    RunSnoc([] + [first], lookup, maxSize);
    assert [] + [first] + [lookup] == [first, lookup];
    var h := [] + [WasSet(key, entry)];
    HistorySnoc([], WasSet(key, entry), key);
    HistorySnoc(h, Missed(key, late), key);
  }

  lemma RemoveAbsent(c: Cache, key: Key)
    requires c.Valid() && key !in c.at
    ensures c.Remove(key) == c
  {
    assert key !in c.keys && c.at - {key} == c.at;
  }

  // ----- the cache object -----

  class ResponseCache {
    const ttl: int
    const maxSize: nat
    var cache: Cache
    ghost var history: seq<Happening>

    ghost predicate Valid()
      reads this
    {
      maxSize >= 1 && Inv(cache, history, maxSize)
    }

    constructor (ttl: int, maxSize: nat)
      requires maxSize >= 1
      ensures Valid() && cache == Dict([], map[]) && history == []
    {
      this.ttl, this.maxSize := ttl, maxSize;
      cache, history := Dict([], map[]), [];
    }

    /** `get`, exact path, whatever the clock reads. */
    method Lookup(key: Key, now: real) returns (found: Option<seq<string>>)
      requires Valid()
      modifies this
      ensures Valid() && (cache, found) == Get(old(cache), key, now)
      ensures history == old(history) + [if found.Some? then Hit(key) else Missed(key, now)]
      ensures found.Some? ==> Alive(old(history), key, now) && found.value == LatestSet(old(history), key).value.chunks
      ensures Alive(old(history), key, now) && |UsedSince(old(history), key)| < maxSize ==>
                (found.None? <==> LookedUpLate(old(history), key))
    {
      LookupTellsLatest(cache, history, maxSize, key, now);
      if key in cache.at && cache.at[key].expiresAt > now {
        HitInv(cache, history, maxSize, key);
        found := Some(cache.at[key].chunks);
        cache := MoveToEnd(cache, key);
        history := history + [Hit(key)];
        return;
      }
      MissInv(cache, history, maxSize, key, now);
      if key in cache.at {
        cache := cache.Remove(key);
      } else {
        RemoveAbsent(cache, key);
      }
      found := None;
      history := history + [Missed(key, now)];
    }

    /** `set`. */
    method Store(key: Key, chunks: seq<string>, customTtl: Option<int>, now: real)
      requires Valid()
      modifies this
      ensures Valid() && |cache.keys| <= maxSize
      ensures var entry := Entry(chunks, ExpiresAt(now, if customTtl.Some? then customTtl.value else ttl));
              cache == Set(old(cache), key, entry, maxSize) && history == old(history) + [WasSet(key, entry)]
    {
      var lifetime := if customTtl.Some? then customTtl.value else ttl;
      var entry := Entry(chunks, ExpiresAt(now, lifetime));
      SetInv(cache, history, maxSize, key, entry);
      if key in cache.at {
        cache := cache.Remove(key);
      } else if |cache.keys| >= maxSize {
        cache := Dict(cache.keys[1..], cache.at - {cache.keys[0]});
      }
      cache := Dict(cache.keys + [key], cache.at[key := entry]);
      history := history + [WasSet(key, entry)];
    }

    method Clear()
      requires Valid()
      modifies this
      ensures Valid() && cache == Dict([], map[]) && history == old(history) + [Cleared]
    {
      ClearInv(history, maxSize);
      cache := Dict([], map[]);
      history := history + [Cleared];
    }
  }
}
