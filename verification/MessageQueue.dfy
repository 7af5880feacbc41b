/** The compacting message queue (messaging/limiter.py): one worker, any number of enqueuers, in any
    interleaving. A second task for a queued key replaces its function and joins its waiters. */
module MessageQueue {
  import opened OrderedDict

  type Key = string
  type Func = int
  type Future = int

  /** What waits under a key: the function to run and the futures to settle with its outcome. */
  datatype Entry = Entry(func: Func, futures: seq<Future>)

  /** What the worker has taken off the queue and not finished. */
  datatype Hand = Hand(key: Key, entry: Entry)

  datatype Happening = Enqueued(key: Key, func: Func, future: Future, front: bool) | Taken(key: Key) | Ran(key: Key, func: Func)

  /** `settled` maps a future to the function whose outcome it was given. */
  datatype Queue = Queue(list: seq<Key>, entries: map<Key, Entry>, hand: Option<Hand>, settled: map<Future, Func>)

  const EMPTY := Queue([], map[], None, map[])

  // ----- the steps -----

  /** `_enqueue_internal`. */
  function Enqueue(q: Queue, key: Key, func: Func, future: Future, front: bool): Queue {
    if key in q.entries then q.(entries := q.entries[key := Entry(func, q.entries[key].futures + [future])])
    else q.(entries := q.entries[key := Entry(func, [future])], list := if front then [key] + q.list else q.list + [key])
  }

  /** The worker takes the first key. */
  function Take(q: Queue): Queue
    requires q.list != [] && q.list[0] in q.entries
  {
    var key := q.list[0];
    q.(list := q.list[1..], entries := q.entries - {key}, hand := Some(Hand(key, q.entries[key])))
  }

  /** Futures that are done stay as they are. */
  function SettleAll(settled: map<Future, Func>, futures: seq<Future>, func: Func): map<Future, Func> {
    if futures == [] then settled
    else
      var before := SettleAll(settled, futures[..|futures| - 1], func);
      var f := futures[|futures| - 1];
      if f in before then before else before[f := func]
  }

  /** The worker ran what it holds; its result or its exception goes to all the futures. */
  function Settle(q: Queue): Queue
    requires q.hand.Some?
  {
    var entry := q.hand.value.entry;
    q.(hand := None, settled := SettleAll(q.settled, entry.futures, entry.func))
  }

  datatype Move = DoEnqueue(key: Key, func: Func, future: Future, front: bool) | DoTake | DoSettle

  /** The worker takes when it holds nothing and something waits; it settles what it holds. */
  predicate Enabled(q: Queue, m: Move) {
    match m
    case DoEnqueue(_, _, _, _) => true
    case DoTake => q.hand.None? && q.list != [] && q.list[0] in q.entries
    case DoSettle => q.hand.Some?
  }

  function Step(q: Queue, m: Move): Queue
    requires Enabled(q, m)
  {
    match m
    case DoEnqueue(key, func, future, front) => Enqueue(q, key, func, future, front)
    case DoTake => Take(q)
    case DoSettle => Settle(q)
  }

  function Happens(q: Queue, m: Move): Happening
    requires Enabled(q, m)
  {
    match m
    case DoEnqueue(key, func, future, front) => Enqueued(key, func, future, front)
    case DoTake => Taken(q.list[0])
    case DoSettle => Ran(q.hand.value.key, q.hand.value.entry.func)
  }

  // ----- what the history says should wait -----

  /** The last function enqueued for a key. */
  function LastFunc(h: seq<Happening>, key: Key): Func {
    if h == [] then 0
    else
      var e := h[|h| - 1];
      if e.Enqueued? && e.key == key then e.func else LastFunc(h[..|h| - 1], key)
  }

  /** The futures enqueued for a key since it was last taken. */
  function Batch(h: seq<Happening>, key: Key): seq<Future> {
    if h == [] then []
    else
      var e := h[|h| - 1];
      if e.Taken? && e.key == key then []
      else Batch(h[..|h| - 1], key) + if e.Enqueued? && e.key == key then [e.future] else []
  }

  /** The position of the first enqueue for a key since it was last taken; -1 if there is none. */
  function FirstWaiting(h: seq<Happening>, key: Key): (r: int)
    ensures -1 <= r < |h|
  {
    if h == [] then -1
    else
      var e, before := h[|h| - 1], FirstWaiting(h[..|h| - 1], key);
      if e.Taken? && e.key == key then -1
      else if e.Enqueued? && e.key == key && before == -1 then |h| - 1
      else before
  }

  /** Every future ever enqueued. */
  function Issued(h: seq<Happening>): seq<Future> {
    if h == [] then []
    else Issued(h[..|h| - 1]) + if h[|h| - 1].Enqueued? then [h[|h| - 1].future] else []
  }

  /** No enqueue at the front. */
  predicate AllBack(h: seq<Happening>) {
    forall i :: 0 <= i < |h| && h[i].Enqueued? ==> !h[i].front
  }

  /** The futures waiting in the queue, key by key. */
  function Waiting(list: seq<Key>, entries: map<Key, Entry>): seq<Future> {
    if list == [] then []
    else (if list[0] in entries then entries[list[0]].futures else []) + Waiting(list[1..], entries)
  }

  function InHand(q: Queue): seq<Future> {
    if q.hand.None? then [] else q.hand.value.entry.futures
  }

  // ----- the queue holds what the history says -----

  ghost predicate Keyed(q: Queue) {
    Distinct(q.list) && forall k :: k in q.list <==> k in q.entries
  }

  /** Each key waits with its latest function and all its waiters; no other key waits. */
  ghost predicate Latest(q: Queue, h: seq<Happening>) {
    && (forall k :: k in q.entries ==> q.entries[k] == Entry(LastFunc(h, k), Batch(h, k)))
    && (forall k :: k in q.entries <==> FirstWaiting(h, k) >= 0)
  }

  /** Keys wait in the order they were first enqueued. */
  ghost predicate InOrder(q: Queue, h: seq<Happening>) {
    AllBack(h) ==> forall i, j :: 0 <= i < j < |q.list| ==> FirstWaiting(h, q.list[i]) < FirstWaiting(h, q.list[j])
  }

  /** Every future issued waits in the queue, is in hand, or is settled, and only one of these. */
  ghost predicate Placed(q: Queue, h: seq<Happening>) {
    multiset(Waiting(q.list, q.entries)) + multiset(InHand(q)) + multiset(q.settled.Keys) == multiset(Issued(h))
  }

  ghost predicate Inv(q: Queue, h: seq<Happening>) {
    Keyed(q) && Latest(q, h) && InOrder(q, h) && Placed(q, h)
  }

  lemma EmptyInv()
    ensures Inv(EMPTY, [])
  {
  }

  /** An event for another key changes nothing for this one. */
  lemma OtherKey(h: seq<Happening>, e: Happening, key: Key)
    requires e.Ran? || e.key != key
    ensures LastFunc(h + [e], key) == LastFunc(h, key)
    ensures Batch(h + [e], key) == Batch(h, key)
    ensures FirstWaiting(h + [e], key) == FirstWaiting(h, key)
  {
    assert (h + [e])[..|h|] == h;
    assert Batch(h, key) + [] == Batch(h, key);
  }

  lemma SameKey(h: seq<Happening>, e: Happening)
    ensures e.Enqueued? ==> LastFunc(h + [e], e.key) == e.func && Batch(h + [e], e.key) == Batch(h, e.key) + [e.future]
    ensures e.Enqueued? ==> FirstWaiting(h + [e], e.key) ==
                            (if FirstWaiting(h, e.key) == -1 then |h| else FirstWaiting(h, e.key))
    ensures e.Taken? ==> FirstWaiting(h + [e], e.key) == -1
    ensures Issued(h + [e]) == Issued(h) + if e.Enqueued? then [e.future] else []
  {
    assert (h + [e])[..|h|] == h;
  }

  lemma {:induction false} NothingWaits(h: seq<Happening>, key: Key)
    ensures FirstWaiting(h, key) == -1 <==> Batch(h, key) == []
  {
    if h != [] {
      NothingWaits(h[..|h| - 1], key);
    }
  }

  // ----- futures -----

  lemma {:induction false} WaitingConcat(a: seq<Key>, b: seq<Key>, entries: map<Key, Entry>)
    ensures Waiting(a + b, entries) == Waiting(a, entries) + Waiting(b, entries)
    decreases |a|
  {
    if a == [] {
      assert a + b == b;
    } else {
      assert (a + b)[0] == a[0] && (a + b)[1..] == a[1..] + b;
      WaitingConcat(a[1..], b, entries);
    }
  }

  lemma {:induction false} WaitingSame(list: seq<Key>, a: map<Key, Entry>, b: map<Key, Entry>)
    requires forall i :: 0 <= i < |list| ==> (list[i] in a <==> list[i] in b) && (list[i] in a ==> a[list[i]] == b[list[i]])
    ensures Waiting(list, a) == Waiting(list, b)
    decreases |list|
  {
    if list != [] {
      WaitingSame(list[1..], a, b);
    }
  }

  lemma {:induction false} WaitingJoins(list: seq<Key>, entries: map<Key, Entry>, key: Key, func: Func, future: Future)
    requires Distinct(list) && key in list && key in entries
    ensures multiset(Waiting(list, entries[key := Entry(func, entries[key].futures + [future])])) ==
            multiset(Waiting(list, entries)) + multiset{future}
    decreases |list|
  {
    var entries' := entries[key := Entry(func, entries[key].futures + [future])];
    var rest := list[1..];
    assert list == [list[0]] + rest;
    if list[0] == key {
      assert key !in rest;
      WaitingSame(rest, entries, entries');
      JoinMultisets(entries[key].futures, future, Waiting(rest, entries));
    } else {
      assert Distinct(rest);
      WaitingJoins(rest, entries, key, func, future);
    }
  }

  lemma JoinMultisets(a: seq<Future>, f: Future, rest: seq<Future>)
    ensures multiset(a + [f] + rest) == multiset(a + rest) + multiset{f}
  {
  }

  lemma OneMore(s: set<Future>, f: Future)
    requires f !in s
    ensures multiset(s + {f}) == multiset(s) + multiset{f}
  {
    forall x ensures multiset(s + {f})[x] == (multiset(s) + multiset{f})[x] {
    }
  }

  lemma {:induction false} SettledHas(settled: map<Future, Func>, futures: seq<Future>, func: Func)
    requires forall i :: 0 <= i < |futures| ==> futures[i] !in settled
    ensures var after := SettleAll(settled, futures, func);
            && (forall f :: f in after <==> f in settled || f in futures)
            && (forall f :: f in settled ==> after[f] == settled[f])
            && (forall f :: f in futures ==> after[f] == func)
    decreases |futures|
  {
    if futures != [] {
      var init, f := futures[..|futures| - 1], futures[|futures| - 1];
      SettledHas(settled, init, func);
      assert futures == init + [f];
    }
  }

  lemma {:induction false} SettledKeys(settled: map<Future, Func>, futures: seq<Future>, func: Func)
    requires Distinct(futures) && forall i :: 0 <= i < |futures| ==> futures[i] !in settled
    ensures multiset(SettleAll(settled, futures, func).Keys) == multiset(settled.Keys) + multiset(futures)
    decreases |futures|
  {
    if futures == [] {
      assert SettleAll(settled, futures, func) == settled;
    } else {
      var init, f := futures[..|futures| - 1], futures[|futures| - 1];
      SettledKeys(settled, init, func);
      SettledHas(settled, init, func);
      assert futures == init + [f] && f !in init;
      SettledOneMore(SettleAll(settled, init, func), settled, init, f, func);
    }
  }

  lemma SettledOneMore(before: map<Future, Func>, settled: map<Future, Func>, init: seq<Future>, f: Future, func: Func)
    requires f !in before && multiset(before.Keys) == multiset(settled.Keys) + multiset(init)
    ensures multiset(before[f := func].Keys) == multiset(settled.Keys) + multiset(init + [f])
  {
    assert before[f := func].Keys == before.Keys + {f};
    OneMore(before.Keys, f);
    assert multiset(init + [f]) == multiset(init) + multiset{f};
  }

  // ----- every step keeps it -----

  lemma EnqueueLatest(q: Queue, h: seq<Happening>, key: Key, func: Func, future: Future, front: bool)
    requires Keyed(q) && Latest(q, h)
    ensures Keyed(Enqueue(q, key, func, future, front))
    ensures Latest(Enqueue(q, key, func, future, front), h + [Enqueued(key, func, future, front)])
  {
    var e := Enqueued(key, func, future, front);
    var q' := Enqueue(q, key, func, future, front);
    SameKey(h, e);
    NothingWaits(h, key);
    forall k | k != key
      ensures (k in q'.entries <==> FirstWaiting(h + [e], k) >= 0)
      ensures k in q'.entries ==> q'.entries[k] == Entry(LastFunc(h + [e], k), Batch(h + [e], k))
    {
      OtherKey(h, e, k);
    }
    assert [] + [future] == [future];
  }

  lemma EnqueueInOrder(q: Queue, h: seq<Happening>, key: Key, func: Func, future: Future, front: bool)
    requires Keyed(q) && Latest(q, h) && InOrder(q, h)
    ensures InOrder(Enqueue(q, key, func, future, front), h + [Enqueued(key, func, future, front)])
  {
    var e := Enqueued(key, func, future, front);
    var h' := h + [e];
    var q' := Enqueue(q, key, func, future, front);
    if AllBack(h') {
      assert AllBack(h) by {
        assert forall i :: 0 <= i < |h| ==> h'[i] == h[i];
      }
      assert h'[|h|] == e && !front;
      SameKey(h, e);
      forall i, j | 0 <= i < j < |q'.list| ensures FirstWaiting(h', q'.list[i]) < FirstWaiting(h', q'.list[j]) {
        assert q.list[i] == q'.list[i];
        KeepsPlace(h, e, q.list[i]);
        if j < |q.list| {
          KeepsPlace(h, e, q.list[j]);
        }
      }
    }
  }

  /** A key that waits keeps its place when something is enqueued. */
  lemma KeepsPlace(h: seq<Happening>, e: Happening, key: Key)
    requires e.Enqueued? && FirstWaiting(h, key) >= 0
    ensures FirstWaiting(h + [e], key) == FirstWaiting(h, key)
  {
    if key == e.key {
      SameKey(h, e);
    } else {
      OtherKey(h, e, key);
    }
  }

  lemma NewKeyWaits(list: seq<Key>, entries: map<Key, Entry>, key: Key, func: Func, future: Future)
    requires key !in entries && key !in list
    ensures var entries' := entries[key := Entry(func, [future])];
            && Waiting(list + [key], entries') == Waiting(list, entries) + [future]
            && Waiting([key] + list, entries') == [future] + Waiting(list, entries)
  {
    var entries' := entries[key := Entry(func, [future])];
    WaitingSame(list, entries, entries');
    WaitingConcat(list, [key], entries');
    WaitingConcat([key], list, entries');
    assert [key][1..] == [] && Waiting([], entries') == [];
    assert Waiting([key], entries') == [future] + [];
  }

  lemma EnqueueWaits(q: Queue, key: Key, func: Func, future: Future, front: bool)
    requires Keyed(q)
    ensures var q' := Enqueue(q, key, func, future, front);
            multiset(Waiting(q'.list, q'.entries)) == multiset(Waiting(q.list, q.entries)) + multiset{future}
  {
    if key in q.entries {
      WaitingJoins(q.list, q.entries, key, func, future);
    } else {
      NewKeyWaits(q.list, q.entries, key, func, future);
    }
  }

  lemma EnqueuePlaced(q: Queue, h: seq<Happening>, key: Key, func: Func, future: Future, front: bool)
    requires Keyed(q) && Placed(q, h)
    ensures Placed(Enqueue(q, key, func, future, front), h + [Enqueued(key, func, future, front)])
  {
    SameKey(h, Enqueued(key, func, future, front));
    EnqueueWaits(q, key, func, future, front);
    var q' := Enqueue(q, key, func, future, front);
    assert InHand(q') == InHand(q) && q'.settled == q.settled;
  }

  lemma TakeKeyed(q: Queue)
    requires Keyed(q) && q.list != []
    ensures q.list[0] in q.entries && Keyed(Take(q))
  {
    var key, rest := q.list[0], q.list[1..];
    assert key in q.list && q.list == [key] + rest;
  }

  lemma TakeLatest(q: Queue, h: seq<Happening>)
    requires Latest(q, h) && q.list != [] && q.list[0] in q.entries
    ensures Latest(Take(q), h + [Taken(q.list[0])])
  {
    var e := Taken(q.list[0]);
    var q' := Take(q);
    SameKey(h, e);
    forall k | k != q.list[0]
      ensures (k in q'.entries <==> FirstWaiting(h + [e], k) >= 0)
      ensures k in q'.entries ==> q'.entries[k] == Entry(LastFunc(h + [e], k), Batch(h + [e], k))
    {
      OtherKey(h, e, k);
    }
  }

  lemma TakeWaits(q: Queue)
    requires Distinct(q.list) && q.list != [] && q.list[0] in q.entries
    ensures Waiting(q.list, q.entries) == q.entries[q.list[0]].futures + Waiting(Take(q).list, Take(q).entries)
  {
    WaitingSame(q.list[1..], q.entries, Take(q).entries);
  }

  lemma TakePlaced(q: Queue, h: seq<Happening>)
    requires Distinct(q.list) && Placed(q, h) && q.hand.None? && q.list != [] && q.list[0] in q.entries
    ensures Placed(Take(q), h + [Taken(q.list[0])])
  {
    var futures := q.entries[q.list[0]].futures;
    SameKey(h, Taken(q.list[0]));
    assert Issued(h) + [] == Issued(h);
    TakeWaits(q);
    var q' := Take(q);
    assert multiset(Waiting(q.list, q.entries)) == multiset(futures) + multiset(Waiting(q'.list, q'.entries));
    assert multiset(InHand(q)) == multiset{} && InHand(q') == futures;
  }

  lemma TakeInOrder(q: Queue, h: seq<Happening>)
    requires InOrder(q, h) && Distinct(q.list) && q.list != [] && q.list[0] in q.entries
    ensures InOrder(Take(q), h + [Taken(q.list[0])])
  {
    var key := q.list[0];
    var e := Taken(key);
    var h' := h + [e];
    var q' := Take(q);
    if AllBack(h') {
      assert AllBack(h) by {
        assert forall i :: 0 <= i < |h| ==> h'[i] == h[i];
      }
      forall i, j | 0 <= i < j < |q'.list| ensures FirstWaiting(h', q'.list[i]) < FirstWaiting(h', q'.list[j]) {
        assert q'.list[i] == q.list[i + 1] && q'.list[j] == q.list[j + 1];
        OtherKey(h, e, q'.list[i]);
        OtherKey(h, e, q'.list[j]);
      }
    }
  }

  /** Running what is in hand settles exactly its futures, none of which was settled before, with the
      outcome of the function in hand. */
  lemma SettlesOnce(q: Queue, h: seq<Happening>)
    requires Placed(q, h) && q.hand.Some? && Distinct(Issued(h))
    ensures var entry, after := q.hand.value.entry, Settle(q).settled;
            && (forall f :: f in after <==> f in q.settled || f in entry.futures)
            && (forall f :: f in q.settled ==> after[f] == q.settled[f])
            && (forall f :: f in entry.futures ==> f !in q.settled && after[f] == entry.func)
            && multiset(after.Keys) == multiset(q.settled.Keys) + multiset(entry.futures)
  {
    var entry := q.hand.value.entry;
    InHandOnly(Issued(h), Waiting(q.list, q.entries), entry.futures, q.settled.Keys);
    SettledKeys(q.settled, entry.futures, entry.func);
    SettledHas(q.settled, entry.futures, entry.func);
  }

  lemma RanChangesNothing(h: seq<Happening>, key: Key, func: Func)
    ensures var h' := h + [Ran(key, func)];
            && (forall k :: LastFunc(h', k) == LastFunc(h, k) && Batch(h', k) == Batch(h, k) && FirstWaiting(h', k) == FirstWaiting(h, k))
            && Issued(h') == Issued(h) && (AllBack(h') <==> AllBack(h))
  {
    var e := Ran(key, func);
    forall k ensures LastFunc(h + [e], k) == LastFunc(h, k) && Batch(h + [e], k) == Batch(h, k) &&
                     FirstWaiting(h + [e], k) == FirstWaiting(h, k)
    {
      OtherKey(h, e, k);
    }
    SameKey(h, e);
    assert Issued(h) + [] == Issued(h);
    assert forall i :: 0 <= i < |h| ==> (h + [e])[i] == h[i];
  }

  lemma SettledFromHand(waiting: multiset<Future>, hand: multiset<Future>, settled: multiset<Future>)
    ensures waiting + multiset{} + (settled + hand) == waiting + hand + settled
  {
  }

  lemma SettlePlaced(q: Queue, h: seq<Happening>)
    requires Placed(q, h) && q.hand.Some? && Distinct(Issued(h))
    ensures Placed(Settle(q), h + [Happens(q, DoSettle)])
  {
    SettlesOnce(q, h);
    IssuedAsBefore(h, q.hand.value.key, q.hand.value.entry.func);
    SettledFromHand(multiset(Waiting(q.list, q.entries)), multiset(InHand(q)), multiset(q.settled.Keys));
    var q' := Settle(q);
    assert multiset(InHand(q')) == multiset{};
  }

  lemma IssuedAsBefore(h: seq<Happening>, key: Key, func: Func)
    ensures Issued(h + [Ran(key, func)]) == Issued(h)
  {
    RanChangesNothing(h, key, func);
  }

  lemma SettleKeepsQueue(q: Queue, q': Queue, h: seq<Happening>, key: Key, func: Func)
    requires q'.list == q.list && q'.entries == q.entries && Keyed(q) && Latest(q, h) && InOrder(q, h)
    ensures var h' := h + [Ran(key, func)]; Keyed(q') && Latest(q', h') && InOrder(q', h')
  {
    RanChangesNothing(h, key, func);
  }

  lemma SettleKeeps(q: Queue, h: seq<Happening>)
    requires Inv(q, h) && q.hand.Some? && Distinct(Issued(h))
    ensures Inv(Settle(q), h + [Happens(q, DoSettle)])
  {
    SettlePlaced(q, h);
    SettleKeepsQueue(q, Settle(q), h, q.hand.value.key, q.hand.value.entry.func);
  }

  lemma CountOne(s: seq<Future>, f: Future)
    requires Distinct(s)
    ensures multiset(s)[f] <= 1
  {
    if s != [] {
      var init := s[..|s| - 1];
      assert s == init + [s[|s| - 1]];
      CountOne(init, f);
    }
  }

  lemma {:induction false} DistinctIfCounted(s: seq<Future>)
    requires forall f :: multiset(s)[f] <= 1
    ensures Distinct(s)
  {
    if s != [] {
      var init, last := s[..|s| - 1], s[|s| - 1];
      assert s == init + [last];
      assert multiset(s) == multiset(init) + multiset{last};
      assert forall f :: multiset(init)[f] <= multiset(s)[f];
      DistinctIfCounted(init);
      assert multiset(init)[last] == 0;
      assert last !in init;
    }
  }

  /** Futures in hand are distinct and not settled yet. */
  lemma InHandOnly(issued: seq<Future>, waiting: seq<Future>, hand: seq<Future>, settled: set<Future>)
    requires Distinct(issued) && multiset(waiting) + multiset(hand) + multiset(settled) == multiset(issued)
    ensures Distinct(hand) && forall i :: 0 <= i < |hand| ==> hand[i] !in settled
  {
    forall f ensures multiset(hand)[f] + multiset(settled)[f] <= 1 {
      CountOne(issued, f);
      assert (multiset(waiting) + multiset(hand) + multiset(settled))[f] == multiset(issued)[f];
    }
    DistinctIfCounted(hand);
    forall i | 0 <= i < |hand| ensures hand[i] !in settled {
      assert hand[i] in multiset(hand);
    }
  }

  lemma StepInv(q: Queue, h: seq<Happening>, m: Move)
    requires Inv(q, h) && Enabled(q, m) && Distinct(Issued(h))
    ensures Inv(Step(q, m), h + [Happens(q, m)])
  {
    match m
    case DoEnqueue(key, func, future, front) =>
      EnqueueLatest(q, h, key, func, future, front);
      EnqueueInOrder(q, h, key, func, future, front);
      EnqueuePlaced(q, h, key, func, future, front);
    case DoTake =>
      TakeKeyed(q);
      TakeLatest(q, h);
      TakePlaced(q, h);
      TakeInOrder(q, h);
    case DoSettle =>
      SettleKeeps(q, h);
  }

  // ----- whole runs -----

  predicate EnabledAll(q: Queue, ms: seq<Move>)
    decreases |ms|
  {
    ms == [] || (Enabled(q, ms[0]) && EnabledAll(Step(q, ms[0]), ms[1..]))
  }

  /** The queue after some moves, and what happened. */
  function Run(q: Queue, h: seq<Happening>, ms: seq<Move>): (Queue, seq<Happening>)
    requires EnabledAll(q, ms)
    decreases |ms|
  {
    if ms == [] then (q, h) else Run(Step(q, ms[0]), h + [Happens(q, ms[0])], ms[1..])
  }

  function FuturesOf(ms: seq<Move>): seq<Future> {
    if ms == [] then [] else (if ms[0].DoEnqueue? then [ms[0].future] else []) + FuturesOf(ms[1..])
  }

  lemma {:induction false} RunInv(q: Queue, h: seq<Happening>, ms: seq<Move>)
    requires Inv(q, h) && EnabledAll(q, ms) && Distinct(Issued(h) + FuturesOf(ms))
    ensures Inv(Run(q, h, ms).0, Run(q, h, ms).1)
    ensures Issued(Run(q, h, ms).1) == Issued(h) + FuturesOf(ms)
    decreases |ms|
  {
    if ms == [] {
      assert Issued(h) + [] == Issued(h);
    } else {
      var m := ms[0];
      var e := Happens(q, m);
      assert Distinct(Issued(h)) by {
        assert forall i :: 0 <= i < |Issued(h)| ==> Issued(h)[i] == (Issued(h) + FuturesOf(ms))[i];
      }
      StepInv(q, h, m);
      SameKey(h, e);
      ConcatAssoc(Issued(h), if m.DoEnqueue? then [m.future] else [], FuturesOf(ms[1..]));
      RunInv(Step(q, m), h + [e], ms[1..]);
    }
  }

  /** In every interleaving of enqueues and worker steps, each enqueue with a future of its own: the
      queue's keys are distinct and are the map's keys; a key waits with the function enqueued last for
      it and with every future enqueued since it was last taken, and keys wait in the order of their
      first enqueue as long as none was put in front; every future issued is waiting, in hand or
      settled, exactly one of them. */
  lemma EveryRunKeeps(ms: seq<Move>)
    requires EnabledAll(EMPTY, ms) && Distinct(FuturesOf(ms))
    ensures var (q, h) := Run(EMPTY, [], ms);
            && Keyed(q) && Latest(q, h) && InOrder(q, h)
            && multiset(Waiting(q.list, q.entries)) + multiset(InHand(q)) + multiset(q.settled.Keys) == multiset(FuturesOf(ms))
  {
    EmptyInv();
    assert [] + FuturesOf(ms) == FuturesOf(ms);
    RunInv(EMPTY, [], ms);
  }

  /** What the worker takes is the key that has waited longest, if none was put in front, with its
      latest function and every future enqueued for it since it was last taken. */
  lemma TakesOldestAndLatest(q: Queue, h: seq<Happening>)
    requires Inv(q, h) && Enabled(q, DoTake)
    ensures var hand := Step(q, DoTake).hand.value;
            && hand == Hand(q.list[0], Entry(LastFunc(h, q.list[0]), Batch(h, q.list[0])))
            && (AllBack(h) ==> forall k :: k in q.entries && k != hand.key ==> FirstWaiting(h, hand.key) < FirstWaiting(h, k))
  {
    forall k | AllBack(h) && k in q.entries && k != q.list[0] ensures FirstWaiting(h, q.list[0]) < FirstWaiting(h, k) {
      var j :| 0 <= j < |q.list| && q.list[j] == k;
    }
  }

  /** A key put in front that was not waiting is taken next, with its function, whatever waited before; one
      that was waiting keeps its place. */
  lemma FrontGoesFirst(q: Queue, h: seq<Happening>, key: Key, func: Func, future: Future)
    requires Inv(q, h)
    ensures var next := Step(q, DoEnqueue(key, func, future, true));
            if key in q.entries then next.list == q.list
            else next.list != [] && next.list[0] == key && next.entries[key] == Entry(func, [future])
  {
  }

  // ----- the limiter object -----

  /** The limiter's queue and what its worker holds; each method is one step. */
  class MessagingRateLimiter {
    var queueList: seq<Key>
    var queueMap: map<Key, Entry>
    var hand: Option<Hand>
    var settled: map<Future, Func>

    ghost function State(): Queue
      reads this
    {
      Queue(queueList, queueMap, hand, settled)
    }

    constructor ()
      ensures State() == EMPTY
    {
      queueList, queueMap, hand, settled := [], map[], None, map[];
    }

    /** `_enqueue_internal`, with the condition held. */
    method EnqueueInternal(func: Func, future: Future, key: Key, front: bool)
      modifies this
      ensures State() == Enqueue(old(State()), key, func, future, front)
    {
      if key in queueMap {
        queueMap := queueMap[key := Entry(func, queueMap[key].futures + [future])];
      } else {
        queueMap := queueMap[key := Entry(func, [future])];
        if front {
          queueList := [key] + queueList;
        } else {
          queueList := queueList + [key];
        }
      }
    }

    /** The worker takes the first key. */
    method TakeNext()
      requires Enabled(State(), DoTake)
      modifies this
      ensures State() == Take(old(State()))
    {
      var key := queueList[0];
      var entry := queueMap[key];
      queueList := queueList[1..];
      queueMap := queueMap - {key};
      hand := Some(Hand(key, entry));
    }

    /** The worker has run the function: every future still pending is given its outcome. */
    method SettleFutures()
      requires Enabled(State(), DoSettle)
      modifies this
      ensures State() == Settle(old(State()))
    {
      var entry := hand.value.entry;
      ghost var before := settled;
      for n := 0 to |entry.futures|
        invariant settled == SettleAll(before, entry.futures[..n], entry.func)
        invariant queueList == old(queueList) && queueMap == old(queueMap) && hand == old(hand)
      {
        assert entry.futures[..n + 1][..n] == entry.futures[..n];
        if entry.futures[n] !in settled {
          settled := settled[entry.futures[n] := entry.func];
        }
      }
      assert entry.futures[..|entry.futures|] == entry.futures;
      hand := None;
    }
  }
}
