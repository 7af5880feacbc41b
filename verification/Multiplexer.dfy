/** One upstream stream read by many (api/services.py, `StreamMultiplexer`), as steps between the points
    where a task may be suspended. A reader hands its chunk on while it holds the lock. */
module Multiplexer {
  import opened OrderedDict

  type Chunk = string

  /** Where `_consume` is: reading the source, about to append a chunk, about to wake the readers after
      an error, about to wake them for the last time, or finished. */
  datatype ConsumerPc = Reading | Appending(chunk: Chunk) | Failing | Closing | Stopped

  /** Where a reader is in `iterate`. */
  datatype ReaderPc = Joining | Looping | Yielding | Waiting | Leaving(ok: bool) | Finished(ok: bool)

  /** A reader: `event` is its wakeup, `received` what it has handed on. */
  datatype Reader = Reader(pc: ReaderPc, idx: nat, event: bool, received: seq<Chunk>)

  /** `produced` are the chunks the source has given so far; `holder` is the reader that holds the lock
      across a suspension. */
  datatype Mux = Mux(chunks: seq<Chunk>, done: bool, failed: bool, consumer: ConsumerPc, holder: Option<nat>,
                     readers: seq<Reader>, produced: seq<Chunk>)

  const START := Mux([], false, false, Reading, None, [], [])

  datatype Move = Produce(chunk: Chunk) | SourceEnds | SourceFails | ConsumerRuns | Join | ReaderRuns(r: nat)

  /** The reader's event is among the waiters. */
  predicate Registered(r: Reader) {
    r.pc.Looping? || r.pc.Yielding? || r.pc.Waiting? || r.pc.Leaving?
  }

  function Wake(r: Reader): Reader {
    if Registered(r) then r.(event := true) else r
  }

  /** `for waiter in self._waiters: waiter.set()`. */
  function WakeAll(readers: seq<Reader>): (r: seq<Reader>)
    ensures |r| == |readers| && forall i :: 0 <= i < |r| ==> r[i] == Wake(readers[i])
  {
    if readers == [] then [] else WakeAll(readers[..|readers| - 1]) + [Wake(readers[|readers| - 1])]
  }

  /** What may run next. Taking the lock needs it free. */
  predicate Enabled(m: Mux, move: Move) {
    match move
    case Produce(_) => m.consumer.Reading?
    case SourceEnds => m.consumer.Reading?
    case SourceFails => m.consumer.Reading?
    case ConsumerRuns => m.holder.None? && (m.consumer.Appending? || m.consumer.Failing? || m.consumer.Closing?)
    case Join => true
    case ReaderRuns(r) =>
      r < |m.readers| &&
      match m.readers[r].pc
      case Yielding => m.holder == Some(r)
      case Waiting => m.readers[r].event
      case Finished(_) => false
      case _ => m.holder.None?
  }

  /** One turn of a reader, from one suspension to the next. */
  function ReaderStep(m: Mux, r: nat): Mux
    requires Enabled(m, ReaderRuns(r))
  {
    var reader := m.readers[r];
    match reader.pc
    case Joining => m.(readers := m.readers[r := reader.(pc := Looping)])
    case Looping =>
      if reader.idx < |m.chunks| then
        m.(readers := m.readers[r := reader.(pc := Yielding, received := reader.received + [m.chunks[reader.idx]])], holder := Some(r))
      else if m.done then m.(readers := m.readers[r := reader.(pc := Leaving(!m.failed))])
      else m.(readers := m.readers[r := reader.(pc := Waiting, event := false)])
    case Yielding => m.(readers := m.readers[r := reader.(pc := Looping, idx := reader.idx + 1)], holder := None)
    case Waiting => m.(readers := m.readers[r := reader.(pc := Looping)])
    case Leaving(ok) => m.(readers := m.readers[r := reader.(pc := Finished(ok))])
    case Finished(_) => m
  }

  function ConsumerStep(m: Mux): Mux
    requires Enabled(m, ConsumerRuns)
  {
    match m.consumer
    case Appending(chunk) => m.(chunks := m.chunks + [chunk], consumer := Reading, readers := WakeAll(m.readers))
    case Failing => m.(consumer := Closing, done := true, readers := WakeAll(m.readers))
    case Closing => m.(consumer := Stopped, readers := WakeAll(m.readers))
    case _ => m
  }

  function Step(m: Mux, move: Move): Mux
    requires Enabled(m, move)
  {
    match move
    case Produce(chunk) => m.(consumer := Appending(chunk), produced := m.produced + [chunk])
    case SourceEnds => m.(consumer := Closing, done := true)
    case SourceFails => m.(consumer := Failing, failed := true)
    case ConsumerRuns => ConsumerStep(m)
    case Join => m.(readers := m.readers + [Reader(Joining, 0, false, [])])
    case ReaderRuns(r) => ReaderStep(m, r)
  }

  // ----- what every step keeps -----

  /** What a reader has handed on are the first chunks; the one it is handing on counts. */
  predicate InStep(m: Mux, reader: Reader) {
    && reader.idx <= |m.chunks|
    && (reader.pc.Yielding? ==> reader.idx < |m.chunks|)
    && reader.received == m.chunks[..if reader.pc.Yielding? then reader.idx + 1 else reader.idx]
  }

  /** A reader that waits without a wakeup has everything, and its wakeup is still to come; one that
      has left has everything recorded. */
  predicate Caught(m: Mux, reader: Reader) {
    && (reader.pc.Waiting? && !reader.event ==> reader.idx == |m.chunks| && (m.done ==> m.consumer.Closing?))
    && (reader.pc.Leaving? || reader.pc.Finished? ==> m.done && reader.idx == |m.chunks| && reader.pc.ok == !m.failed)
  }

  predicate ConsumerAgrees(m: Mux) {
    && m.produced == m.chunks + (if m.consumer.Appending? then [m.consumer.chunk] else [])
    && (m.done <==> m.consumer.Closing? || m.consumer.Stopped?)
    && (m.consumer.Reading? || m.consumer.Appending? ==> !m.failed)
    && (m.consumer.Failing? ==> m.failed)
  }

  ghost predicate Inv(m: Mux) {
    && ConsumerAgrees(m)
    && (forall r :: 0 <= r < |m.readers| ==> InStep(m, m.readers[r]) && Caught(m, m.readers[r]))
    && (forall r :: 0 <= r < |m.readers| ==> (m.readers[r].pc.Yielding? <==> m.holder == Some(r)))
    && (m.holder.Some? ==> m.holder.value < |m.readers|)
  }

  lemma StartInv()
    ensures Inv(START)
  {
  }

  lemma ReaderItself(m: Mux, r: nat)
    requires Inv(m) && Enabled(m, ReaderRuns(r))
    ensures InStep(ReaderStep(m, r), ReaderStep(m, r).readers[r]) && Caught(ReaderStep(m, r), ReaderStep(m, r).readers[r])
  {
    var reader := m.readers[r];
    assert InStep(m, reader) && Caught(m, reader);
    if reader.pc.Looping? && reader.idx < |m.chunks| {
      assert m.chunks[..reader.idx + 1] == m.chunks[..reader.idx] + [m.chunks[reader.idx]];
    }
  }

  lemma ReaderInv(m: Mux, r: nat)
    requires Inv(m) && Enabled(m, ReaderRuns(r))
    ensures Inv(ReaderStep(m, r))
  {
    var m' := ReaderStep(m, r);
    ReaderItself(m, r);
    forall k | 0 <= k < |m'.readers| && k != r ensures InStep(m', m'.readers[k]) && Caught(m', m'.readers[k]) {
      SameForOthers(m, m', m.readers[k]);
    }
  }

  /** A reader's own standing depends only on the chunks and the consumer. */
  lemma SameForOthers(m: Mux, m': Mux, reader: Reader)
    requires m'.chunks == m.chunks && m'.done == m.done && m'.failed == m.failed && m'.consumer == m.consumer
    requires InStep(m, reader) && Caught(m, reader)
    ensures InStep(m', reader) && Caught(m', reader)
  {
  }

  lemma ConsumerInv(m: Mux)
    requires Inv(m) && Enabled(m, ConsumerRuns)
    ensures Inv(ConsumerStep(m))
  {
    var m' := ConsumerStep(m);
    forall k | 0 <= k < |m'.readers| ensures InStep(m', m'.readers[k]) && Caught(m', m'.readers[k]) {
      assert InStep(m, m.readers[k]) && Caught(m, m.readers[k]);
      assert m'.chunks[..|m.chunks|] == m.chunks;
      assert m.readers[k].idx <= |m.chunks| ==> m'.chunks[..m.readers[k].idx] == m.chunks[..m.readers[k].idx];
    }
  }

  lemma StepInv(m: Mux, move: Move)
    requires Inv(m) && Enabled(m, move)
    ensures Inv(Step(m, move))
    ensures m.chunks <= Step(m, move).chunks && m.produced <= Step(m, move).produced
  {
    match move
    case ReaderRuns(r) => ReaderInv(m, r);
    case ConsumerRuns => ConsumerInv(m);
    case _ =>
      var m' := Step(m, move);
      forall k | 0 <= k < |m.readers| ensures InStep(m', m.readers[k]) && Caught(m', m.readers[k]) {
        assert InStep(m, m.readers[k]) && Caught(m, m.readers[k]);
      }
  }

  // ----- whole runs -----

  predicate EnabledAll(m: Mux, moves: seq<Move>)
    decreases |moves|
  {
    moves == [] || (Enabled(m, moves[0]) && EnabledAll(Step(m, moves[0]), moves[1..]))
  }

  function Run(m: Mux, moves: seq<Move>): Mux
    requires EnabledAll(m, moves)
    decreases |moves|
  {
    if moves == [] then m else Run(Step(m, moves[0]), moves[1..])
  }

  /** The chunks the source gives in a run. */
  function Source(moves: seq<Move>): seq<Chunk> {
    if moves == [] then [] else Given(moves[0]) + Source(moves[1..])
  }

  function Given(move: Move): seq<Chunk> {
    if move.Produce? then [move.chunk] else []
  }

  lemma StepProduces(m: Mux, move: Move)
    requires Enabled(m, move)
    ensures Step(m, move).produced == m.produced + Given(move)
  {
  }

  lemma {:induction false} RunInv(m: Mux, moves: seq<Move>)
    requires Inv(m) && EnabledAll(m, moves)
    ensures Inv(Run(m, moves)) && Run(m, moves).produced == m.produced + Source(moves)
    decreases |moves|
  {
    if moves == [] {
      assert m.produced + [] == m.produced;
    } else {
      StepInv(m, moves[0]);
      StepProduces(m, moves[0]);
      RunInv(Step(m, moves[0]), moves[1..]);
      ConcatAssoc(m.produced, Given(moves[0]), Source(moves[1..]));
    }
  }

  /** In every interleaving of the consumer and any number of readers, joining at any time: a reader has
      received a prefix of the source; once it has ended it has received everything recorded, which, if
      it ended without an error, is the whole source, and it ends with an error exactly when the source
      did; and a reader that waits on an unset event has received everything recorded and either the
      source is not done or the last wakeup is still to come. */
  lemma EveryReaderIsServed(moves: seq<Move>, r: nat)
    requires EnabledAll(START, moves) && r < |Run(START, moves).readers|
    ensures var m := Run(START, moves);
            var reader := m.readers[r];
            && reader.received <= Source(moves)
            && (reader.pc.Finished? ==> m.done && reader.received == m.chunks == Source(moves) && reader.pc.ok == !m.failed)
            && (reader.pc.Waiting? && !reader.event ==>
                  reader.received == m.chunks && (!m.done || m.consumer.Closing?))
  {
    StartInv();
    RunInv(START, moves);
    var m := Run(START, moves);
    assert [] + Source(moves) == Source(moves);
    var reader := m.readers[r];
    assert InStep(m, reader) && Caught(m, reader);
    assert m.chunks <= m.produced;
    assert m.chunks[..|m.chunks|] == m.chunks;
    assert m.chunks + [] == m.chunks;
  }

  /** Nothing gets stuck: the reader that holds the lock can always go on, and while the lock is free
      every reader that has not finished can, unless it waits for a wakeup that the consumer is still to
      give. */
  lemma NobodyIsStuck(moves: seq<Move>, r: nat)
    requires EnabledAll(START, moves) && r < |Run(START, moves).readers|
    ensures var m := Run(START, moves);
            var reader := m.readers[r];
            && (m.holder.Some? ==> Enabled(m, ReaderRuns(m.holder.value)))
            && (m.holder.None? && !reader.pc.Finished? ==>
                  Enabled(m, ReaderRuns(r)) || (reader.pc.Waiting? && !m.consumer.Stopped?))
  {
    StartInv();
    RunInv(START, moves);
    var m := Run(START, moves);
    assert Caught(m, m.readers[r]);
    assert m.readers[r].pc.Yielding? <==> m.holder == Some(r);
    if m.holder.Some? {
      assert m.readers[m.holder.value].pc.Yielding?;
    }
  }

  /** Nothing but the reader's own turn, which takes its chunk. */
  predicate LeavesOut(moves: seq<Move>, r: nat) {
    forall k :: 0 <= k < |moves| ==> moves[k] != ReaderRuns(r)
  }

  lemma SlowReaderBlocksOne(m: Mux, r: nat, move: Move)
    requires Inv(m) && r < |m.readers| && m.readers[r].pc.Yielding? && Enabled(m, move) && move != ReaderRuns(r)
    ensures var m' := Step(m, move);
            && m'.chunks == m.chunks && |m'.readers| >= |m.readers| && m'.readers[r] == m.readers[r]
            && forall q :: 0 <= q < |m.readers| ==> m'.readers[q].received == m.readers[q].received
  {
    assert m.readers[r].pc.Yielding? <==> m.holder == Some(r);
    assert move.ReaderRuns? && move.r < |m.readers| ==> !m.readers[move.r].pc.Yielding?;
  }

  /** A reader that is slow to take its chunk holds up everyone: until it runs, whatever else happens, no
      chunk is recorded and no other reader is handed anything. */
  lemma {:induction false} SlowReaderBlocks(m: Mux, moves: seq<Move>, r: nat)
    requires Inv(m) && r < |m.readers| && m.readers[r].pc.Yielding? && EnabledAll(m, moves) && LeavesOut(moves, r)
    ensures var m' := Run(m, moves);
            && m'.chunks == m.chunks && |m'.readers| >= |m.readers| && m'.readers[r] == m.readers[r]
            && forall q :: 0 <= q < |m.readers| ==> m'.readers[q].received == m.readers[q].received
    decreases |moves|
  {
    if moves != [] {
      var next := Step(m, moves[0]);
      StepInv(m, moves[0]);
      SlowReaderBlocksOne(m, r, moves[0]);
      SlowReaderBlocks(next, moves[1..], r);
    }
  }

  // ----- the multiplexer object -----

  /** The multiplexer's own fields, the readers' local variables, and the atomic stretches of code. */
  class StreamMultiplexer {
    var chunks: seq<Chunk>
    var done: bool
    var failed: bool
    var consumer: ConsumerPc
    var holder: Option<nat>
    var readers: seq<Reader>
    ghost var produced: seq<Chunk>

    ghost function State(): Mux
      reads this
    {
      Mux(chunks, done, failed, consumer, holder, readers, produced)
    }

    constructor ()
      ensures State() == START
    {
      chunks, done, failed, consumer, holder, readers, produced := [], false, false, Reading, None, [], [];
    }

    /** Set every registered reader's event. */
    method SetWaiters()
      modifies `readers
      ensures readers == WakeAll(old(readers))
    {
      var before := readers;
      for n := 0 to |before|
        invariant |readers| == |before|
        invariant forall k :: 0 <= k < n ==> readers[k] == Wake(before[k])
        invariant forall k :: n <= k < |before| ==> readers[k] == before[k]
      {
        if Registered(before[n]) {
          readers := readers[n := before[n].(event := true)];
        }
      }
    }

    /** The source gives a chunk, ends or fails. */
    method HearSource(move: Move)
      requires Enabled(State(), move) && (move.Produce? || move.SourceEnds? || move.SourceFails?)
      modifies this
      ensures State() == Step(old(State()), move)
    {
      if move.Produce? {
        consumer := Appending(move.chunk);
        produced := produced + [move.chunk];
      } else if move.SourceEnds? {
        done := true;
        consumer := Closing;
      } else {
        failed := true;
        consumer := Failing;
      }
    }

    /** The consumer has the lock. */
    method Consume()
      requires Enabled(State(), ConsumerRuns)
      modifies this
      ensures State() == Step(old(State()), ConsumerRuns)
    {
      if consumer.Appending? {
        chunks := chunks + [consumer.chunk];
        SetWaiters();
        consumer := Reading;
      } else if consumer.Failing? {
        SetWaiters();
        done := true;
        consumer := Closing;
      } else {
        SetWaiters();
        consumer := Stopped;
      }
    }

    /** One reader, from one suspension to the next. */
    method Iterate(r: nat)
      requires Enabled(State(), ReaderRuns(r))
      modifies this
      ensures State() == Step(old(State()), ReaderRuns(r))
    {
      var reader := readers[r];
      match reader.pc
      case Joining =>
        readers := readers[r := reader.(pc := Looping)];
      case Looping =>
        if reader.idx < |chunks| {
          readers := readers[r := reader.(pc := Yielding, received := reader.received + [chunks[reader.idx]])];
          holder := Some(r);
        } else if done {
          readers := readers[r := reader.(pc := Leaving(!failed))];
        } else {
          readers := readers[r := reader.(pc := Waiting, event := false)];
        }
      case Yielding =>
        readers := readers[r := reader.(pc := Looping, idx := reader.idx + 1)];
        holder := None;
      case Waiting =>
        readers := readers[r := reader.(pc := Looping)];
      case Leaving(ok) =>
        readers := readers[r := reader.(pc := Finished(ok))];
    }

    method JoinReader()
      modifies `readers
      ensures State() == Step(old(State()), Join)
    {
      readers := readers + [Reader(Joining, 0, false, [])];
    }

    /** The event loop lets the tasks run in any order: it has served every reader. */
    method Serve(moves: seq<Move>)
      requires State() == START && EnabledAll(START, moves)
      modifies this
      ensures State() == Run(START, moves)
      ensures forall r :: 0 <= r < |readers| ==>
                && readers[r].received <= Source(moves)
                && (readers[r].pc.Finished? && readers[r].pc.ok ==> readers[r].received == Source(moves))
    {
      assert moves[0..] == moves;
      for k := 0 to |moves|
        invariant EnabledAll(State(), moves[k..])
        invariant Run(State(), moves[k..]) == Run(START, moves)
      {
        assert moves[k..][0] == moves[k] && moves[k..][1..] == moves[k + 1..];
        match moves[k]
        case ConsumerRuns => Consume();
        case ReaderRuns(r) => Iterate(r);
        case Join => JoinReader();
        case _ => HearSource(moves[k]);
      }
      forall r | 0 <= r < |readers|
        ensures readers[r].received <= Source(moves)
        ensures readers[r].pc.Finished? && readers[r].pc.ok ==> readers[r].received == Source(moves)
      {
        EveryReaderIsServed(moves, r);
      }
    }
  }
}
