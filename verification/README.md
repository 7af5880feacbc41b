# Streaming, conversion and limiting in an Anthropic-compatible proxy: a Dafny model

The proxy takes Anthropic requests, sends them to OpenAI-compatible or Anthropic-compatible
providers and streams the answer back as Anthropic server-sent events. Whatever the provider does
(overlapping blocks, tool names and arguments in pieces, streams cut short, failed attempts), the
client must be sent one well-formed message. The repository says what well-formed means in an
executable checker (`core/anthropic/stream_contracts.py`, `assert_anthropic_stream_contract`); here
it is a declarative contract by positions in the stream, the checker's loop is proved to decide it,
and both transports are proved to meet it, with the exact conditions under which they do not.

## Layout

- `StreamContract`, `SseFraming`, `Text`, `JsonTexts`, `OrderedDict`: events, the contract, the text
  form of events, and the few library operations used.
- `BlockState`, `SseBuilder`, `ToolCalls`, `ToolFragments`: block bookkeeping and tool-call assembly of
  the OpenAI transport, and one tool's part in it; `StreamRecovery`: holdback, continuation and repair;
  `RepairTexts`: which repair answers are taken. `OpenAIStream`, `OpenAIContract`, `OpenAIRecovery`,
  `OpenAIArguments`, `ToolAddresses`, `OpenAITasks`, `FoundTools`, `FoundShown`, `SpokenWords`,
  `SpokenOrder`, `BlockTurns`, `OpenAIShortfalls`, `OpenAITransport`: what an attempt shows, that it meets
  the contract, what it tells the client of every tool and of every text, how it ends, the rule for Task
  calls, the inputs on which it falls short, and the code.
- `NativePolicy`, `NativeContent`, `NativeKinds`, `NativeSseBlockPolicy`: repairing a native stream;
  `EmittedTracker`, `NativeRecovery`, `NativeContinuation`, `NativeSseTracker`: the tracker, its tails,
  and where a continuation is read; `NativeStream`, `NativeEnds`, `NativeShortfalls`,
  `NativeTransport`: what an attempt shows, how it ends, the inputs on which it falls short, and the code.
- `ThinkTags`: the think-tag parser. `Conversion`, `ConversionOrder`,
  `AnthropicToOpenAIConverter`: message history.
- `SlidingWindow`, `UpstreamRetry`, `MessageQueue`, `Multiplexer`, `CircuitBreakers`,
  `ResponseCaches`: the concurrent and time-driven components, as steps over explicit time and
  interleavings.

Where the source updates objects in place, a class has the same fields and its methods are proved
equal to functions of the old state; the properties are lemmas about those functions. JSON, schemas,
clocks, sizes, identifiers and the answers of recovery requests are parameters.

## Where the code falls short of what it promises

Each has a lemma with an input, and the exact condition beside it.

- OpenAI transport: if the token estimate raises after a recovery has closed the blocks in its own
  state, the error tail no longer stops the open text or thinking block (condition:
  `OpenAIContract.AttemptOutputContract`; input: `RaisingEstimateForgets`).
- OpenAI transport: Task calls are to run in the foreground, but a Task cut before its arguments parse is
  completed on request without that rule, and one whose stream ends normally then is sent `{}`; and a
  tool shown as Task whose registered name is padded, or made longer after the block started, is not held
  to the rule at all (condition: `OpenAITasks.TaskTextsObey`; inputs, in `OpenAIShortfalls`:
  `RepairedTaskEscapes`, `DrainedTaskEscapes`, `PaddedTaskEscapes`, `ExtendedTaskEscapes`).
  The branch for a buffered prefix that is already complete cannot run (`OpenAITasks.BufferedIsIncomplete`).
- OpenAI transport: a recovered stream ends with tool_use when the arguments meet the schema of the
  registered name, which need not be the name shown (conditions: `OpenAIRecovery.ToolUseMeansComplete`,
  `NamesAgree`; input: `OpenAIShortfalls.ShownNameRefuses`).
- Native transport: a recovery that continues a text block started with visible text, or repairs a tool
  block that is already stopped, sends a delta the contract refuses; an upstream that ends without a
  word inside a frame has the rest of that frame passed on, which the contract refuses when it was a
  content block's or the first (condition: `NativeStream.CutStreamContract`; inputs: `FullTextBlockBreaks`,
  `ClosedToolBlockBreaks`, `CutFrameBreaks`, `CutFirstFrameBreaks` in `NativeShortfalls`).
- Native transport: a failure after message_stop is followed by a second end of the message (condition:
  `NativeStream.BrokenAfterStop`; input: `NativeShortfalls.BrokenAfterStopBreaks`).
- Native transport: a continuation may be put in before text that was already there (condition:
  `NativeContinuation.ContinuationLands`; input: `NativeShortfalls.ContinuationGoesBetween`).
- Native policy: a stream all of whose blocks are dropped comes out with no block at all (condition:
  `NativeContent.RepairMeetsContract`; input: `NativeShortfalls.ThinkingOnlyBreaks`).
- History conversion: tool results after the one that answers the last awaited id repeat the held-back
  text (condition: `Conversion.ConversionConserves`; input: `ExtraResultRepeats`), and a lone single
  space before tool calls is lost (`Conversion.ContentShowsParts`).
- Circuit breaker: thresholds below one are accepted and break the counters' bounds
  (`CircuitBreakers.CountersBounded`, `ThresholdsMustBePositive`). The success of a call let in before
  the opening counts towards closing (conditions: `ClosedByTrials`, `EarlierCallsCount`; input:
  `EarlierCallCloses`).
- Response cache: the wall clock may be set back, and then an unexpired entry can be gone (condition:
  `ResponseCaches.EverySequenceTellsLatest`; input: `ClockSteppedBack`).

## Model

| member | source | states |
|---|---|---|
| `StreamContract.AssertStreamContract` | core/anthropic/stream_contracts.py:97-162 | the one-pass checker accepts a stream exactly when the declarative contract holds: blocks start once, take deltas of their own type and their stop only while open, all are stopped, one starts, a message_start occurs, message_stop is last, no error event unless allowed |
| `StreamContract.RunDescribes` | core/anthropic/stream_contracts.py:108-155 | after any events the loop's open and seen blocks, and whether an assertion has failed, are those the positional definitions give |
| `StreamContract.ContractByRun` | core/anthropic/stream_contracts.py:97-162 | the declarative contract in terms of the loop's final state, both directions |
| `SseFraming.PrintedStreamReadsBack` | core/anthropic/sse.py:46-48 | any single-line events, printed, joined, cut anywhere and fed piece by piece, are read back as exactly those events with nothing left in the buffer |
| `SseFraming.ChunkingIsInvisible` | core/anthropic/emitted_sse_tracker.py:50-62 | for any text and any cut, feeding the chunks takes out the frames of the whole text, and what is left holds no complete frame |
| `SseFraming.PrintedBodyParses` | core/anthropic/stream_contracts.py:51-94 | the frame of a printed event parses to that one event |
| `SseFraming.ParseSseLines` | core/anthropic/stream_contracts.py:51-94 | the line loop computes the fold of the line reader over any lines |
| `BlockState.EnsureTextGood` | core/anthropic/sse.py:368-372 | from any state that agrees with the events sent, the text block is open afterwards and state and events still agree |
| `BlockState.EnsureThinkingGood` | core/anthropic/sse.py:362-366 | the same for the thinking block |
| `BlockState.SayTextGood` | core/anthropic/sse.py:311-313 | a text delta goes to the open text block and the accumulator records exactly what was shown |
| `BlockState.SayThinkingGood` | core/anthropic/sse.py:296-300 | the same for thinking |
| `BlockState.StartToolGood` | core/anthropic/sse.py:319-349 | a tool block opens at a fresh index and belongs to that tool alone |
| `BlockState.EmitToolGood` | core/anthropic/sse.py:351-356 | an argument delta goes to the tool's open block, and its recorded contents stay equal to all the argument text shown |
| `BlockState.CloseContentGood` | core/anthropic/sse.py:374-378 | text and thinking are closed and nothing else is |
| `BlockState.EmitHeuristicGood` | providers/openai_compat.py:50-71 | a tool call found in text, its arguments put in the foreground if it is a Task, becomes one whole block at a fresh index and disturbs no other |
| `BlockState.CloseAllCloses` | core/anthropic/sse.py:380-384 | after it nothing is open and the indices used are 0, 1, ..., n - 1 |
| `BlockState.EmitErrorCloses` | core/anthropic/sse.py:386-390 | the error block is whole and at the next fresh index |
| `SseBuilder.SSEBuilder.FlushTaskArgBuffers` | core/anthropic/sse.py:143-169 | the loop over the tool states computes the flush; the builder's other methods (sse.py:85-390) likewise leave the fields and yield the events of their `BlockState` functions, proved sound above |
| `ToolCalls.ProcessToolCallSound` | providers/openai_compat.py:271-353 | any tool-call delta, however names, ids and arguments are split, keeps state and events in agreement, buffered arguments included |
| `ToolCalls.EmitArgSound` | providers/openai_compat.py:231-269 | the same for one argument fragment: shown, buffered for Task, or buffered until its aliases can be undone |
| `ToolCalls.FlushAliasesSound` | providers/openai_compat.py:360-382 | the same for the alias flush at the end |
| `ToolCalls.DrainSound` | core/anthropic/sse.py:143-169 | the Task buffers left at the end belong to started tools, do not parse, and are each replaced by an empty object |
| `ToolFragments.CallsFollow` | providers/openai_compat.py:271-353 | tools do not disturb each other: whatever calls are interleaved, and even if one raises, a tool is called what its own fragments say, shown under its first name, and sent and held back of its arguments what its own fragments make of them |
| `ToolFragments.ShownIsRegistered` | core/anthropic/sse.py:104-120 | of the fragments alone: the name shown is the name registered at last exactly when the first name had no outer white space and no later fragment made it longer |
| `ToolFragments.PiecesJoin` | core/anthropic/sse.py:104-120 | a name that comes in pieces, none of them the start of what came before nor begun by it, is their join |
| `ToolFragments.RepeatsGrow` | core/anthropic/sse.py:104-120 | a name repeated from its start, as far as it is known, is the last one sent |
| `ToolFragments.PlainIsPassedOn` | providers/openai_compat.py:231-269 | of the fragments alone: for a tool never a Task nor aliased once it has a name, none of its arguments is lost, changed or moved |
| `ToolFragments.AliasedIsRestored` | providers/openai_compat.py:251-268 | of the fragments alone: aliased arguments are held back until they parse, all of them, and are then sent once, whole, with the aliases undone |
| `OpenAIRecovery.ChunksFollow` | providers/openai_compat.py:231-353 | the same over any chunks with text, thinking and calls, wherever they stop |
| `ToolAddresses.CallsReachTheirTools` | providers/openai_compat.py:279-288 | read off the calls alone: they are read in order, all of them or up to one that raises (no function record, or Task arguments that are JSON but no object); the fragments of a tool are what the calls with its own index say, in order, a missing index being 0; a negative index goes to as many tools as were known before it |
| `ToolAddresses.ParallelCalls` | providers/openai_compat.py:279-353 | calls with different indices, interleaved as they like, are shown at a normal end as two blocks, each with its own id and name and, if neither Task nor aliased, exactly its own arguments |
| `OpenAIRecovery.ArgumentsConserved` | providers/openai_compat.py:231-353 | over any attempt, the argument text shown for a tool never a Task nor aliased is the ordered concatenation of every fragment received for it, those before its name included |
| `OpenAIRecovery.NamesAgree` | providers/openai_compat.py:303-325 | over any attempt, the client is shown a tool once, with the last id sent by then (a fresh one if there is none) and under its first name, outer white space off; it goes by the name shown exactly under the condition of `ShownIsRegistered` |
| `StreamRecovery.RecoveryHoldbackBuffer.Push` | core/anthropic/stream_recovery.py:67-80 | what comes out and what stays held are together what was held, then the event; it commits exactly at the size or time bound |
| `StreamRecovery.RecoveryHoldbackBuffer.Flush` | core/anthropic/stream_recovery.py:82-91 | everything held comes out, once, and the buffer is committed |
| `StreamRecovery.RecoveryHoldbackBuffer.Discard` | core/anthropic/stream_recovery.py:93-97 | what is held is dropped and the commitment is unchanged |
| `StreamRecovery.HoldEvents` | providers/openai_compat.py:641-649 | any events pushed: nothing is lost, repeated or reordered, nothing shows before the commitment, and the buffer commits exactly when the events make 65536 bytes or one comes 0.75 seconds after the first |
| `StreamRecovery.ComputeContinuationSuffix` | core/anthropic/stream_recovery.py:202-221 | the downward overlap loop computes the longest-overlap definition |
| `StreamRecovery.ContinuationDropsLongestOverlap` | core/anthropic/stream_recovery.py:202-221 | a suffix drops exactly the longest prefix of the candidate that ends the existing text, the startswith path included; none is returned exactly for a long candidate with no overlap |
| `StreamRecovery.ContinuationEndsWithCandidate` | core/anthropic/stream_recovery.py:202-221 | the continued text ends with the whole candidate |
| `StreamRecovery.ReplayAddsNothing` | core/anthropic/stream_recovery.py:202-221 | replaying any end of the existing text adds nothing |
| `StreamRecovery.AcceptRepair` | core/anthropic/stream_recovery.py:185-199 | an accepted suffix completes the prefix to an object the schema accepts; none is accepted only if no candidate does |
| `RepairTexts.AnswerIsTaken` | core/anthropic/stream_recovery.py:317-332 | an answer that says `w`, with white space around it, bare or between Markdown fences, is taken exactly when `w` completes the prefix, or repeats it and is complete; what is taken is `w`, or what is left of it after the prefix |
| `RepairTexts.FencedSays` | core/anthropic/stream_recovery.py:322-328 | between fences, with a language or without, `w` is said as it is when its only line breaks are line feeds; other breaks are read as line feeds |
| `RepairTexts.BlankIsNotTaken` | core/anthropic/stream_recovery.py:318-320 | an answer of white space is never taken |
| `RepairTexts.SaidIsFound` | providers/openai_compat.py:494-514 | a repair is found exactly when one of the five requests is answered with what fits, and neither it nor one before it fails |
| `StreamRecovery.TryRepairCompletes` | providers/openai_compat.py:494-514 | a repair found within the allowed requests completes what was shown |
| `StreamRecovery.RepairIsFound` | providers/openai_compat.py:494-514 | the bounded search finds a repair exactly when one of the five requests, and each before it, is answered, and that one with something that completes the prefix |
| `StreamRecovery.RequestRepair` | providers/openai_compat.py:494-514 | the request loop computes the bounded search |
| `OpenAIContract.ProcessChunksSound` | providers/openai_compat.py:690-775 | after any chunks, or up to an exception in one, state and events agree |
| `OpenAIContract.CompletionContract` | providers/openai_compat.py:874-967 | a stream that ends normally, after anything, meets the contract between its message_start and its end |
| `OpenAIContract.ErrorTailContract` | providers/openai_compat.py:594-603 | the error tail, after any point of a stream, closes it to one that meets the contract |
| `OpenAIContract.RecoveredContract` | providers/openai_compat.py:524-592 | a recovery that succeeds, of tools or of text, ends in a stream that meets the contract |
| `OpenAIContract.AttemptOutputContract` | providers/openai_compat.py:676-967 | for any chunks, failure and recovery answers: one message_start, first, one message_stop, last, and the contract with error events allowed, except exactly when the token estimate raises, a text or thinking block is open, and the started tools are all complete or repairable, or, without tools, the provider goes on with something new |
| `OpenAIContract.RecoversWhen` | providers/openai_compat.py:524-592 | a recovery succeeds exactly when the estimate does not raise and every started tool is complete or is completed within the allowed requests, or, without tools, something was shown and the continuation says something new |
| `OpenAIContract.RaisingEstimateForgets` | providers/openai_compat.py:574-580 | that exception happens: a cut text that is continued, with an estimate that raises, leaves a block that never stops |
| `OpenAIRecovery.ToolUseMeansComplete` | providers/openai_compat.py:534-554 | a failed attempt that ends with tool_use has started a tool and has shown, for every tool it started, arguments complete by the schema of the name registered at last; they are complete by the name shown exactly when the two names agree, or its own schema accepts them |
| `OpenAIRecovery.RecoveredTextContinues` | providers/openai_compat.py:556-592 | a continued stream shows the text and thinking it had shown and then exactly the new suffixes |
| `OpenAITasks.BufferedIsIncomplete` | providers/openai_compat.py:470-484 | over any chunks: a tool that has shown nothing is never complete from its buffer, so that the branch that emits a complete buffered prefix cannot run |
| `OpenAIArguments.ShownArguments` | providers/openai_compat.py:231-592 | however an attempt ends, and whatever the recovery requests answer, the client is shown of every started tool what its own fragments make of its arguments and then what the flush, or the repair, sends last |
| `OpenAITasks.HeldBackSendsOnce` | core/anthropic/sse.py:122-137 | a tool called exactly Task whenever arguments come for it has sent nothing, or all at once, in the foreground |
| `OpenAITasks.TaskArgumentsAreSent` | core/anthropic/sse.py:122-137 | such a tool's arguments are held back, all of them, until they are an object, and this is then sent, in the foreground, whole and once |
| `OpenAITasks.LateArgumentsPass` | providers/openai_compat.py:231-269 | arguments that come once a tool goes by another, unaliased name are passed on as they are, after what was sent before |
| `OpenAITasks.TaskTextsObey` | core/anthropic/sse.py:172-175 | for every block of a streamed call shown as a Task, over whole attempts: called exactly Task whenever arguments come, what is shown of them is in the foreground (or nothing) exactly when they were sent before the end, or what is sent last is; otherwise exactly when the raw arguments and what is sent last happen to be |
| `FoundTools.EveryTaskShown` | providers/openai_compat.py:50-71 | every block of a whole attempt shown as a Task is that of a streamed call, or was found in the text, and then its arguments, if an object, are in the foreground |
| `FoundShown.FoundAreShown` | providers/openai_compat.py:50-71 | every tool call found in the text that was read is shown as a whole block, in order, with its arguments, in the foreground if it is a Task; at a normal end so are those found when the text ended |
| `SpokenWords.ShownIsSaid` | providers/openai_compat.py:688-752 | over any chunks, and up to an exception: the text shown is the text sent, in order, and the thinking shown is each chunk's reasoning and then what its content has between think tags, or nothing when thinking is disabled |
| `SpokenOrder.ShownInOrder` | providers/openai_compat.py:688-752 | the same delta by delta: text and thinking are shown in the order in which they were sent |
| `SpokenWords.NormalEnd` | providers/openai_compat.py:865-967 | at a normal end all text and thinking has been shown, with what the tag parser still held, and a space exactly when the message would have neither blocks of its own nor more than thinking; the message ends once, with the stop reason of the last finish reason |
| `SpokenWords.FailedEnd` | providers/openai_compat.py:787-863 | at a failure that is not retried: a recovery of tools adds no text and ends with tool_use, one of text adds just its suffixes and ends with end_turn, and otherwise the error message is told, as text if no tool has started and as an error event if one has |
| `SpokenWords.SilentEndIsACut` | providers/openai_compat.py:776-780 | a stream that ends without a finish reason is as one cut by a failure that may be retried |
| `SpokenWords.OthersAreErrors` | providers/openai_compat.py:784-863 | a stream that could not be opened, breaks for good, or has a call that raises is told of the error whatever a recovery would answer |
| `BlockTurns.BlocksTakeTurns` | core/anthropic/sse.py:362-378 | while a stream is read, no block starts while a text or thinking block is open: these take turns, and a tool block closes both |
| `OpenAIShortfalls.RepairedTaskEscapes` | providers/openai_compat.py:515-519 | an attempt, cut inside the arguments of a Task and recovered, that shows arguments that are not in the foreground |
| `OpenAIShortfalls.DrainedTaskEscapes` | core/anthropic/sse.py:149-168 | an attempt that ends normally inside the arguments of a Task and shows an empty object for them |
| `OpenAIShortfalls.PaddedTaskEscapes` | providers/openai_compat.py:311-317 | an attempt with a call to a tool named Task with a space after it: a Task is shown with its arguments as they came, not in the foreground |
| `OpenAIShortfalls.ExtendedTaskEscapes` | core/anthropic/sse.py:104-120 | an attempt with a call named Task and then Group: a Task is shown with the arguments of TaskGroup as they came, not in the foreground |
| `OpenAIShortfalls.ShownNameRefuses` | providers/openai_compat.py:448-457 | a cut attempt that ends with tool_use although the arguments shown for a Task are refused by the schema of Task |
| `OpenAITransport.EmitToolArgDelta` | providers/openai_compat.py:231-269 | the code computes the argument function above |
| `OpenAITransport.ProcessOneToolCall` | providers/openai_compat.py:271-353 | the code computes the tool-call function above |
| `OpenAITransport.FlushAliasBuffers` | providers/openai_compat.py:360-382 | the loop computes the alias flush |
| `OpenAITransport.FlushTaskBuffers` | providers/openai_compat.py:355-358 | the loop computes the Task flush |
| `OpenAITransport.EmitChunk` | providers/openai_compat.py:690-775 | one chunk: reasoning, content parts, then its tool calls, as in the stream functions |
| `OpenAITransport.RepairToolArgs` | providers/openai_compat.py:459-522 | the repair loop computes the repairs proved complete above |
| `OpenAITransport.AllToolsComplete` | providers/openai_compat.py:448-457 | true exactly when some tool has started and every started one has complete arguments |
| `OpenAITransport.RecoveryEvents` | providers/openai_compat.py:524-592 | the recovery, exceptions included |
| `OpenAITransport.EmitErrorTail` | providers/openai_compat.py:594-603 | the error tail |
| `OpenAITransport.EmitCompletion` | providers/openai_compat.py:874-967 | everything after the last chunk of a stream that ends normally |
| `OpenAITransport.ReadChunks` | providers/openai_compat.py:676-781 | reading an opened stream to its end or failure: what was shown and what is held are together exactly what the chunks yield |
| `OpenAITransport.RunAttempt` | providers/openai_compat.py:676-872 | an attempt either is retried and has shown nothing, or is the last and shows its whole output |
| `OpenAITransport.CompleteIsKept` | providers/openai_compat.py:789-800 | a cut stream whose tools are complete is not retried, even unseen: it is shown and ended with tool_use, and no repair is asked for |
| `OpenAITransport.StreamResponse` | providers/openai_compat.py:620-967 | the client sees message_start and then one attempt's whole output, in order: that of the first attempt that does not fail early (retryably, with nothing yet shown, its tools not complete), or of the fifth; the message is framed, and meets the contract with its exact exception |
| `NativePolicy.CloseOthersCloses` | core/anthropic/native_sse_block_policy.py:129-150 | exactly the other open segments are closed |
| `NativePolicy.PassStartSimulates` | core/anthropic/native_sse_block_policy.py:188-213 | a block start, overlapping or not, keeps the mirror between the upstream and downstream block states |
| `NativePolicy.ReopenSimulates` | core/anthropic/native_sse_block_policy.py:235-264 | reopening gives a fresh index, sends the delta to it and takes back the stop to be swallowed |
| `NativePolicy.PassDeltaSimulates` | core/anthropic/native_sse_block_policy.py:215-289 | a delta reaches the upstream block's current segment, reopened if need be |
| `NativePolicy.PassStopSimulates` | core/anthropic/native_sse_block_policy.py:291-311 | a stop closes the current segment, or is swallowed if it was closed early |
| `NativePolicy.RepairSimulates` | core/anthropic/native_sse_block_policy.py:172-313 | at any point of any stream whose blocks start once and take their deltas and stop while open: indices are 0, 1, 2, ..., deltas and stops go only to open blocks, and what is open downstream mirrors what is open upstream |
| `NativeContent.FreshIndicesInOrder` | core/anthropic/native_sse_block_policy.py:153-169 | for any upstream at all, the blocks shown have the indices 0, 1, 2, ..., once each and in that order |
| `NativeContent.DroppedAreThinking` | core/anthropic/native_sse_block_policy.py:121-126 | the dropped indices are exactly those started, with thinking disabled, as thinking, redacted thinking or another type that mentions thinking |
| `NativeKinds.KeptIsShown` | core/anthropic/native_sse_block_policy.py:121-126 | every block, or with thinking disabled every text, tool_use and server tool block and every other one that mentions no thinking, is shown from its own start on, with all its deltas in order |
| `NativeKinds.NoThinkingIsShown` | core/anthropic/native_sse_block_policy.py:121-126 | with thinking disabled, no block shown is a thinking block, a redacted one, or another that mentions thinking |
| `NativeKinds.ThinkingIsGone` | core/anthropic/native_sse_block_policy.py:203-206 | with thinking disabled, a block started as one of these has nothing downstream |
| `NativeKinds.StartsArePassedOn` | core/anthropic/native_sse_block_policy.py:195-223 | for any upstream at all, lawful or not, the start of a block to be shown is passed on |
| `NativeKinds.NoneAreShown` | core/anthropic/native_sse_block_policy.py:195-223 | for any upstream at all, with thinking disabled, no redacted thinking and no other type that mentions thinking is started downstream |
| `NativeKinds.DeltasArePassedOn` | core/anthropic/native_sse_block_policy.py:225-286 | for any upstream at all, a delta is passed on unless thinking is disabled and it is for a block started as thinking, or is itself thinking |
| `NativeContent.RepairConservesContent` | core/anthropic/native_sse_block_policy.py:172-313 | each upstream block either was started with a type to drop and owns nothing downstream, or its downstream segments show its start and all its deltas in order, broken only by starts that resume it; with thinking enabled nothing is dropped |
| `NativeContent.RepairMeetsContract` | core/anthropic/native_sse_block_policy.py:172-313 | a stream that meets the contract, overlaps allowed, comes out meeting it exactly when some block is kept |
| `NativeContent.MessageEventsPass` | core/anthropic/native_sse_block_policy.py:172-186 | message-level events pass through |
| `NativeContent.StartStandsAlone` | core/anthropic/native_sse_block_policy.py:188-213 | right after the start of a kept block it is the only one open |
| `NativeSseBlockPolicy.NativeSseBlockPolicyState.SyntheticCloseOtherOpenBlocks` | core/anthropic/native_sse_block_policy.py:129-150 | the loop computes the early closes |
| `NativeSseBlockPolicy.NativeSseBlockPolicyState.AllocateNewSegment` | core/anthropic/native_sse_block_policy.py:153-169 | the fields after it are those of the policy function |
| `NativeSseBlockPolicy.NativeSseBlockPolicyState.TransformEvent` | core/anthropic/native_sse_block_policy.py:172-313 | the whole new state and what is passed on are those of the policy functions |
| `EmittedTracker.TrackKnows` | core/anthropic/emitted_sse_tracker.py:64-149 | after any events that obey the block rules, the stack holds exactly the open blocks, once each, the blocks known are those seen, each with its kind, and no index exceeds the maximum |
| `EmittedTracker.TrackMessage` | core/anthropic/emitted_sse_tracker.py:140-149 | the tracker knows whether the message has ended and whether a stop reason was given |
| `EmittedTracker.TrackShowsJson` | core/anthropic/emitted_sse_tracker.py:103-123 | a tool block's content is all the argument text shown for it |
| `EmittedTracker.CloseUnclosedCloses` | core/anthropic/emitted_sse_tracker.py:155-165 | closing leaves nothing open |
| `EmittedTracker.ErrorTailMeetsContract` | core/anthropic/emitted_sse_tracker.py:319-339 | whatever was shown, the close and error tail completes it to a stream that meets the contract exactly when it obeyed the block rules and had begun; the error block's index was never used |
| `NativeRecovery.AppendIsObserved` | core/anthropic/emitted_sse_tracker.py:206-260 | after appending, the tracker is as if it had observed what it appended |
| `NativeRecovery.ContinuationMeetsContract` | core/anthropic/emitted_sse_tracker.py:206-293 | a continued stream meets the contract exactly when what was shown obeyed the rules, had begun and not ended, and no text is appended to a block that was started with visible text |
| `NativeContinuation.ContinuationLands` | core/anthropic/emitted_sse_tracker.py:206-260 | whatever the suffix, the client reads its old text or thinking followed by it, exactly when no block of that kind started after the continued one shows anything |
| `NativeContinuation.SuffixLands` | core/anthropic/emitted_sse_tracker.py:206-260 | the suffix is read right after what its block showed: before the blocks of its kind started later, and at the very end when a new block is started for it |
| `NativeContinuation.InsertedContinues` | core/anthropic/emitted_sse_tracker.py:206-260 | one suffix continues the text exactly when it may trade places with what is read after it |
| `NativeContinuation.EmittedIsClientText` | core/anthropic/emitted_sse_tracker.py:167-179 | the text and the thinking the tracker joins are what the client reads of the events: its blocks, in the order they started |
| `NativeContinuation.RecoveredTextInserted` | providers/anthropic_messages.py:508-535 | a continued stream reads as the old text and thinking with the new suffixes put in so, and nothing else changed |
| `NativeRecovery.RecoveredToolsAreComplete` | providers/anthropic_messages.py:448-506 | a recovered tool run ends with all the argument text shown for every tracked tool a complete object its schema accepts |
| `NativeEnds.FailedEnd` | providers/anthropic_messages.py:448-535 | a failed attempt is ended by exactly one message_delta: tool_use if it is recovered and a tool block has been shown, end_turn otherwise; a recovery gives none if a stop reason had been shown |
| `NativeEnds.ToolUseMeansComplete` | providers/anthropic_messages.py:448-506 | a failed attempt that newly ends with tool_use has shown a tool block, and for every tool block an id and arguments complete by the schema of the name shown |
| `NativeEnds.TrackedAsStarted` | core/anthropic/emitted_sse_tracker.py:76-105 | a tracked block has the type, id and name it was last started with |
| `NativeEnds.SilentEndIsACut` | providers/anthropic_messages.py:585-600 | an upstream that ends silently is whole if message_stop was among its events, and otherwise as one cut by a failure that may be retried |
| `NativeEnds.FailureIsTold` | providers/anthropic_messages.py:662-723 | a failed attempt that is not recovered says the error message after what it had said |
| `NativeRecovery.ToolRecoveryMeetsContract` | providers/anthropic_messages.py:448-506 | a recovered tool run meets the contract exactly when every block that needed a repair was still open |
| `NativeRecovery.RepairsFit` | core/anthropic/emitted_sse_tracker.py:262-279 | the repairs obey the block rules exactly when each goes to an open block |
| `NativeRecovery.RecoversNativeWhen` | providers/anthropic_messages.py:448-535 | a recovery succeeds exactly when every tool block has an id and a name and is complete or is completed within the allowed requests, or, without tool blocks, something was shown and the continuation says something new |
| `NativeStream.CutStreamContract` | providers/anthropic_messages.py:263-275 | a whole message, overlaps allowed, cut at any point before its end, by a failure between events or without a word anywhere, a frame in part included: the client is sent one message from message_start to message_stop unless the cut went through the first frame, and it meets the contract except exactly then, or when a content block's frame was cut after its name, or when a recovery succeeds and goes to a closed tool block or a block started with visible text |
| `NativeStream.CompleteStreamContract` | providers/anthropic_messages.py:582-611 | a stream that arrives whole is passed on as repaired, and meets the contract exactly when some block is kept |
| `NativeStream.BrokenAfterStop` | providers/anthropic_messages.py:622-713 | a failure after message_stop: the client still has one message exactly when the failure is retryable, the message gave a stop reason and has tool blocks, all usable; otherwise more follows, and the stream contract still holds exactly when that is the error tail |
| `NativeShortfalls.FullTextBlockBreaks` | core/anthropic/emitted_sse_tracker.py:206-232 | an upstream attempt, cut in a text block started with visible text and continued, whose output breaks the contract |
| `NativeShortfalls.ClosedToolBlockBreaks` | core/anthropic/emitted_sse_tracker.py:262-279 | an upstream attempt, cut after a tool block stopped short and repaired, whose output breaks the contract |
| `NativeShortfalls.CutFrameBreaks` | core/anthropic/native_sse_block_policy.py:179-186 | an upstream that ends without a word inside a content block's frame |
| `NativeShortfalls.CutFirstFrameBreaks` | providers/anthropic_messages.py:263-275 | an upstream that ends inside its first frame: no message_start is sent |
| `NativeShortfalls.BrokenAfterStopBreaks` | providers/anthropic_messages.py:694-713 | a whole message followed by a failure: two message_stop events |
| `NativeShortfalls.ContinuationGoesBetween` | core/anthropic/emitted_sse_tracker.py:206-232 | an upstream with two overlapping text blocks, of which the client had read "x": continued with "xy", it reads "yx" |
| `NativeShortfalls.ThinkingOnlyBreaks` | core/anthropic/native_sse_block_policy.py:188-199 | a message that meets the contract and only thinks, with thinking disabled: what is sent does not |
| `NativeSseTracker.PrintedStreamIsTracked` | core/anthropic/emitted_sse_tracker.py:50-62 | events printed, joined, cut anywhere and fed are observed by the tracker as exactly those events |
| `NativeSseTracker.EmittedNativeSseTracker.ObserveEvent` | core/anthropic/emitted_sse_tracker.py:64-149 | the fields after it are those of the tracker function |
| `NativeSseTracker.EmittedNativeSseTracker.Feed` | core/anthropic/emitted_sse_tracker.py:50-62 | the loop observes every frame completed by the chunk and keeps the rest |
| `NativeSseTracker.EmittedNativeSseTracker.FeedAll` | providers/anthropic_messages.py:582-592 | chunk by chunk, the same as the whole text |
| `NativeSseTracker.EmittedNativeSseTracker.CloseUnclosedBlocks` | core/anthropic/emitted_sse_tracker.py:155-165 | the loop computes the closes |
| `NativeSseTracker.EmittedNativeSseTracker.LastOpenBlock` | core/anthropic/emitted_sse_tracker.py:341-346 | the last opened block of that kind still open, if there is one |
| `NativeSseTracker.EmittedNativeSseTracker.AppendSuffixOf` | core/anthropic/emitted_sse_tracker.py:206-260 | the fields and events are those of the continuation function |
| `NativeSseTracker.EmittedNativeSseTracker.AppendToolRepairSuffix` | core/anthropic/emitted_sse_tracker.py:262-279 | the same for a repair |
| `NativeSseTracker.EmittedNativeSseTracker.CanSalvageToolUse` | core/anthropic/emitted_sse_tracker.py:195-204 | true exactly when there is a tool block and every one has an id, a name and complete arguments |
| `NativeSseTracker.EmittedNativeSseTracker.SuccessTailEvents` | core/anthropic/emitted_sse_tracker.py:281-293 | the success tail |
| `NativeSseTracker.EmittedNativeSseTracker.ErrorTailEvents` | core/anthropic/emitted_sse_tracker.py:319-339 | the closes and the error tail |
| `NativeTransport.ReadUpstream` | providers/anthropic_messages.py:572-596 | an opened stream read to its end or failure: what was shown and what is held are together exactly what the policy passes on, and the tracker, fed the printed text, has observed just that |
| `NativeTransport.RepairTools` | providers/anthropic_messages.py:448-503 | the repair loop computes the repairs proved complete above |
| `NativeTransport.RecoveryEvents` | providers/anthropic_messages.py:433-535 | the recovery, exceptions included; a recovery that gives up leaves the error tail as it was |
| `NativeTransport.EndFailed` | providers/anthropic_messages.py:650-723 | what follows a failure that is not retried |
| `NativeTransport.RunAttempt` | providers/anthropic_messages.py:571-723 | an attempt either is retried and has shown nothing, or is the last and shows its whole output |
| `NativeTransport.UsableIsKept` | providers/anthropic_messages.py:622-660 | a cut stream whose tool blocks are all usable is not retried, even unseen: it is shown and ended with tool_use, and no repair is asked for |
| `NativeTransport.StreamResponse` | providers/anthropic_messages.py:537-723 | the client sees one attempt's whole output, in order: that of the first attempt that does not fail early, or of the fifth |
| `ThinkTags.ParseAll` | core/anthropic/thinking.py:42-140 | for any text and any cut, feeding the chunks and flushing shows exactly the (type, character) pairs of a one-pass reference over the whole text, and no empty chunk |
| `ThinkTags.ScanSpells` | core/anthropic/thinking.py:30-31 | the reference removes nothing but tags |
| `ThinkTags.ThinkingIsBetween` | core/anthropic/thinking.py:42-140 | in the reference, what stands between the tags is thinking and what stands outside is text |
| `ThinkTags.PlainWithMore` | core/anthropic/thinking.py:70-94 | no tag can start in what the parser shows, whatever text comes next |
| `ThinkTags.ThinkTagParser.ParseOutsideThink` | core/anthropic/thinking.py:58-99 | one step outside a tag, whatever text follows: what it shows and the new buffer and mode are together what the old buffer and mode would show |
| `ThinkTags.ThinkTagParser.ParseInsideThink` | core/anthropic/thinking.py:101-129 | the same inside a tag |
| `ThinkTags.ThinkTagParser.Feed` | core/anthropic/thinking.py:42-56 | the same for a whole feed, which ends, and holds back only the start of a tag |
| `ThinkTags.ThinkTagParser.Flush` | core/anthropic/thinking.py:131-140 | what is held back is shown in the current mode |
| `Conversion.ConversionConserves` | core/anthropic/conversion.py:172-287 | every assistant text, tool call, user text and tool result appears as often as it is written, and beyond that only repeats of held-back text; there are none exactly when no message has a result after the one that answers the last awaited id |
| `Conversion.AnsweredOnceConserves` | core/anthropic/conversion.py:406-462 | when each result answers a distinct awaited id, nothing is repeated |
| `ConversionOrder.ConversionKeepsOrder` | core/anthropic/conversion.py:172-287 | the whole history comes out in its order, message after message and each message's own parts in theirs, but for the texts after an assistant's first tool call: they come right after the result that answers its last call, or before the next assistant message or user string, or before the next user message once nothing is awaited, or at the end |
| `ConversionOrder.UserPuts` | core/anthropic/conversion.py:242-268 | a user message, in each of these cases |
| `ConversionOrder.UserTextsGroup` | core/anthropic/conversion.py:406-499 | the texts of a user message between two tool results come out as one user message |
| `ConversionOrder.AssistantIsOneMessage` | core/anthropic/conversion.py:289-392 | an assistant message comes out as one message, its texts up to the first tool call together with all its calls, after what was held back |
| `Conversion.RefusedExactly` | core/anthropic/conversion.py:151-170 | a history is refused exactly when it has an image, or a server tool block of the assistant |
| `Conversion.ExtraResultRepeats` | core/anthropic/conversion.py:437-457 | a second result in the message that answers the last call makes the text after the call appear twice |
| `Conversion.InjectionLands` | core/anthropic/conversion.py:427-462 | held-back text comes right after the result that answers the last awaited id, the message's own items keeping their order |
| `Conversion.InjectionWaits` | core/anthropic/conversion.py:449-462 | until then nothing is injected and answered ids are no longer awaited |
| `Conversion.SplitKeepsParts` | core/anthropic/conversion.py:289-343 | splitting an assistant message at its first tool call keeps every text, in order |
| `Conversion.ContentIsJoined` | core/anthropic/conversion.py:346-499 | a user's texts are joined by line feeds, an assistant's by empty lines, a tool result stands as it is |
| `Conversion.ContentShowsParts` | core/anthropic/conversion.py:321-378 | a message's content is its texts joined, except that an empty one becomes a space and that a lone single space before tool calls is lost |
| `Conversion.AwaitedOnce` | core/anthropic/conversion.py:449-457 | results that answer awaited ids inject at most once |
| `AnthropicToOpenAIConverter.Convert` | core/anthropic/conversion.py:172-287 | the loop computes the conversion: refused exactly when a block is of a refused type |
| `AnthropicToOpenAIConverter.ConvertAssistantMessage` | core/anthropic/conversion.py:346-391 | the block loop computes the assistant message |
| `AnthropicToOpenAIConverter.ConvertUserMessage` | core/anthropic/conversion.py:406-498 | the block loop computes the user messages, with or without injection, and refuses images |
| `AnthropicToOpenAIConverter.ConvertAssistantBlocks` | core/anthropic/conversion.py:202-230 | the assistant branch |
| `SlidingWindow.RunTurns` | core/rate_limit.py:33-53 | for any callers and any clock that does not go back: the turns granted are those a limiter remembering everything would grant; acquisitions n places apart are at least the window apart; no half-open window holds more than n |
| `SlidingWindow.WindowHolds` | core/rate_limit.py:10-14 | the promise of the class: no window of the length holds more acquisitions than the limit |
| `SlidingWindow.PruneSound` | core/rate_limit.py:37-41 | after the pops the deque is exactly the acquisitions of the last window |
| `SlidingWindow.StrictSlidingWindowLimiter.TryAcquire` | core/rate_limit.py:33-53 | one turn: a slot is given exactly when fewer than the limit were in the last window, else the wait is until the oldest leaves it, and positive |
| `SlidingWindow.StrictSlidingWindowLimiter.TryAgain` | core/rate_limit.py:33-53 | a refused caller that sleeps at least the computed wait is served if nobody takes a slot meanwhile |
| `UpstreamRetry.UpstreamAttemptsBounded` | providers/rate_limit.py:228-306 | in every interleaving of callers: no window holds more upstream attempts than the limit, retries included; no caller exceeds its attempts; a next attempt waits out the backoff of the failed one |
| `UpstreamRetry.StepInv` | providers/rate_limit.py:155-184 | every step of a caller, reactive wait, slot, call or backoff, keeps these bounds |
| `UpstreamRetry.FinishesFor` | providers/rate_limit.py:249-306 | in every interleaving, a caller finishes well only when an attempt of its own succeeded, and gives up only on a failure not to be retried or after its last attempt |
| `MessageQueue.EveryRunKeeps` | messaging/limiter.py:85-121 | in every interleaving of enqueues and worker steps: the keys are distinct and are the map's, each waits with its latest function and every future since it was last taken, in order of first enqueue, and every future is in exactly one place |
| `MessageQueue.TakesOldestAndLatest` | messaging/limiter.py:98-99 | what the worker takes has waited longest and comes with the function enqueued last |
| `MessageQueue.FrontGoesFirst` | messaging/limiter.py:217-233 | a key put in front that was not waiting is next, whatever waited before; one that was waiting keeps its place |
| `MessageQueue.SettlesOnce` | messaging/limiter.py:112-121 | running settles exactly the futures taken, none of them settled before, with that function's outcome |
| `MessageQueue.MessagingRateLimiter.SettleFutures` | messaging/limiter.py:112-121 | the loop over the futures is the queue step; one enqueue and one take (limiter.py:98-99, 217-233) are likewise |
| `Multiplexer.EveryReaderIsServed` | api/services.py:166-219 | in every interleaving: a reader has received a prefix of the source; one that has ended has received everything, with an error exactly when the source failed; one that waits on an unset event has everything recorded and the last wakeup is still to come |
| `Multiplexer.NobodyIsStuck` | api/services.py:166-219 | the holder of the lock can go on, and else every unfinished reader can, unless the consumer still owes it a wakeup |
| `Multiplexer.SlowReaderBlocks` | api/services.py:205-209 | over any run in which a reader suspended at its yield does not run: no chunk is recorded and no other reader is handed anything |
| `Multiplexer.StreamMultiplexer.HearSource` | api/services.py:178-193 | what the source does next is the state step |
| `Multiplexer.StreamMultiplexer.Consume` | api/services.py:178-193 | a stretch of the consumer under the lock is the state step |
| `Multiplexer.StreamMultiplexer.Iterate` | api/services.py:195-219 | a reader, from one suspension to the next, is the state step |
| `Multiplexer.StreamMultiplexer.Serve` | api/services.py:166-219 | the tasks, run in any order the event loop may choose, leave each reader with a prefix of the source, and with all of it if it ended without error |
| `CircuitBreakers.CountersBounded` | core/reliability/circuit_breaker.py:53-103 | in every interleaving: closed means fewer failures than the threshold, half-open fewer successes than theirs, open exactly the failure threshold |
| `CircuitBreakers.ThresholdsMustBePositive` | core/reliability/circuit_breaker.py:109-121 | the bounds fail for thresholds below one, which the constructor accepts |
| `CircuitBreakers.ForcesTakeHold` | core/reliability/circuit_breaker.py:156-182 | a force takes hold whatever went before: open refuses calls for the timeout, closed and half-open refuse none and count anew |
| `CircuitBreakers.OpensExactly` | core/reliability/circuit_breaker.py:68-105 | in every interleaving, what opens the breaker, other than a force, is a tripping failure: the one that makes the threshold of them since it last closed or a call last succeeded, or any when it is half-open |
| `CircuitBreakers.AdmissionWaits` | core/reliability/circuit_breaker.py:53-66 | a call is refused exactly while the breaker is open and the timeout has not passed since the stamp of the event that opened it |
| `CircuitBreakers.ReportForetellsAdmission` | core/reliability/circuit_breaker.py:144-154 | get_state is open exactly when a call made now would be refused |
| `CircuitBreakers.ClosesAfterSuccesses` | core/reliability/circuit_breaker.py:68-103 | without a force, an open breaker closes only after a half-open period with exactly the success threshold of successes and no tripping failure |
| `CircuitBreakers.ClosedByTrials` | core/reliability/circuit_breaker.py:53-86 | in any run of overlapping calls, each entering and ending once: the successes that close the breaker are all of calls let in since it became half-open exactly when none of them is of a call that had entered before |
| `CircuitBreakers.EarlierCallsCount` | core/reliability/circuit_breaker.py:77-86 | when the breaker has become half-open, a call that entered before may still be among those that close it exactly when one let in before is still running |
| `CircuitBreakers.EarlierCallCloses` | core/reliability/circuit_breaker.py:77-86 | three calls, the first of which closes the breaker that the second opened, while the third, let in to try it, still runs |
| `CircuitBreakers.CircuitBreaker.EnterGuard` | core/reliability/circuit_breaker.py:53-66 | one entry is the breaker step for its provider and touches no other |
| `CircuitBreakers.CircuitBreaker.ExitGuard` | core/reliability/circuit_breaker.py:68-103 | the same for an exit |
| `CircuitBreakers.CircuitBreaker.GetState` | core/reliability/circuit_breaker.py:144-154 | the reported state, for an unknown provider too |
| `CircuitBreakers.CircuitBreaker.Force` | core/reliability/circuit_breaker.py:156-182 | the same for the forces |
| `ResponseCaches.EverySequenceTellsLatest` | core/reliability/cache.py:127-142 | after any calls, whatever the clock reads: the cache is within its size, a hit returns the key's latest set, unexpired, and an unexpired key since whose last use fewer distinct other keys than the cache holds were used is missed exactly when, since its latest set, it was looked up at or after the time it expires |
| `ResponseCaches.ForwardClockMisses` | core/reliability/cache.py:127-142 | while the clock does not go back, an unexpired key is missed only if at least as many distinct other keys as the cache holds were set or hit since it was |
| `ResponseCaches.EvictedOldest` | core/reliability/cache.py:188-194 | the entry thrown out is the least recently used, with at least a cache's worth of other keys used since |
| `ResponseCaches.ClockSteppedBack` | core/reliability/cache.py:131-142 | with a clock that goes back an unexpired key can be missed |
| `ResponseCaches.ResponseCache.Lookup` | core/reliability/cache.py:127-142 | one lookup, at any clock reading, is the cache step, and its outcome is what the history says |
| `ResponseCaches.ResponseCache.Store` | core/reliability/cache.py:174-201 | one set, at any clock reading, is the cache step, within the size |
| `ResponseCaches.ResponseCache.Clear` | core/reliability/cache.py:203-206 | nothing is left |

## Left out

- HTTP, subprocesses, persistence, the admin interface, routes, logging and tracing: input and output only.
- JSON encoding and decoding, schema validation, token counting and identifiers are parameters; any printer whose output is one line without outer white space will do.
- `HeuristicToolParser` depends on regular expressions; it is any source of filtered text and finished tool blocks, per chunk and at the end.
- Provider overrides (`_handle_extra_reasoning`, `_new_stream_state`, `_transform_stream_event`) and per-provider request bodies: only the defaults are modelled.
- Runs that end in cancellation or in an exception from the final token estimate of a normal completion: the run theorems are about runs that return.
- `extra_content` of tool calls and the message's id, model and usage fields: they are carried along and decide nothing.
- Block events without an integer index or a payload object are all one `Malformed` event, which already fails the contract; deltas of unknown types are opaque to the tracker. A content_block_* frame whose payload is JSON but no object makes the native policy raise; here that is a failure of the upstream at that point (`Broke`), not a `Malformed` event.
- OpenAITasks.TaskTextsObey: what the JSON library does with the texts involved is assumed (`JsonRules`).
- NativeTransport.ReadUpstream: pushes whole events through the holdback, where the line mode pushes their lines; a failure raises before the frame in hand is passed on, so that what has been shown and held at it is the same. The part of a frame left by a silent end is one more event, the one it reads as; text that names no event counts as an event without a name.
- `attempt_provider` retries, racing and load balancing in `api/services.py`: random choices over components that are not part of this model.
- `messaging/trees`: not part of this model.
- Semantic cache matching, cost estimates, settings, gateway model ids and blackout windows.
- The reasoning field of converted messages is computed, but no conservation is stated for it: with `reasoning_content` replay a split message carries the same top-level reasoning before and after its tools.
- UpstreamRetry.UpstreamAttemptsBounded: states nothing about the reactive block, because a caller looks at it once and a later failure overwrites it, so it bounds nothing on its own.
- MessageQueue.EveryRunKeeps: futures cancelled by their waiters and the shutdown of the worker are not steps of the model.
- Multiplexer.NobodyIsStuck: says each task can run, not that the scheduler runs it.
