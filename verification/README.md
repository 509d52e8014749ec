# Verified models of the agent runtime

This project models six stateful cores of the repository in Dafny and proves what they promise.

- **Framing and codec** (`Framing.dfy`, `FrameDecoder.dfy`, `Codec.dfy`). The incremental frame decoder, with its header
  and block buffers, refines a recursive parser of the whole byte stream; the message decoder is built on it over an
  abstract wire format.
- **Agent loop** (`AgentEvents.dfy`, `ToolBatch.dfy`, `ToolUpdates.dfy`, `UpdateFlush.dfy`, `AgentLoop.dfy`,
  `AgentTurns.dfy`, `AgentRuns.dfy`, `AgentContexts.dfy`, `Agent.dfy`). The nested loops with their queues, streams, tool
  batches and event trace compute a function of their inputs; what every run of that function guarantees is proved in
  `AgentTurns.dfy` (one turn), `AgentRuns.dfy` and `AgentContexts.dfy` (whole runs), against a recogniser of the trace grammar, a transcript reducer and a record of what
  each turn wrote. Streams, hooks, tools and arriving messages are a finite script with one entry per turn, so every run
  that ends is the run of some script; when a script is long enough for its run to end is proved too.
- **Server sessions and connections** (`Sessions.dfy`, `SessionMembership.dfy`, `ServerConnection.dfy`). State machines
  whose steps are the synchronous stretches between awaits, in any order.
- **Client leases and connection** (`ClientLeases.dfy`, `ClientConnection.dfy`). The lease table as an object updated in
  place, the handles made from its tokens, and the connection lifecycle with its requests, over every run.
- **Terminal input** (`StdinBuffer.dfy`, `StdinChunks.dfy`). The escape sequence splitter and bracketed paste, and runs
  of chunks against the whole text. CSI and control string shapes follow sections 5.4 and 5.6 of ECMA-48.
- **Layout** (`Layout.dfy`, `LayoutBoxes.dfy`). Box trees, clips, scrolling and the hit test, on tree values and on boxes
  updated in place.

Some promises do not hold of the code as it stands. Each of these is stated with its exact condition:

- Extracting sequences from `a + b` and from `a` and then `b` differ exactly when `a` ends in an emitted `ESC ESC` and `b`
  begins with a sequence introducer (`StdinInput.ExtractionComposes`). Text fed in chunks therefore gives what it gives
  at once exactly when no cut is of that kind (`StdinChunks.ChunkingIrrelevantExactly`).
- Text before a paste marker is emitted whole exactly when it ends in no incomplete sequence
  (`StdinChunks.LostBeforePasteExactly`); after one, a cut inside the marker loses the paste (`StdinChunks.MarkerLost`).
- Attaching to a session that was acquired earlier keeps the membership invariant exactly when the session is still in
  service (`SessionMembership.AttachKeepsExactlyInService`). Otherwise the two records disagree, at the latest when the
  session's disposal ends; `SessionMembership.LateAttachReached` is a run that does this.
- `close()` of the session manager does not wait for operations: it disposes of a session with an operation running
  exactly when that session is registered (`Sessions.CloseOvertakesExactly`, reached by
  `Sessions.CloseOvertakesReached`).
- Releasing a lease breaks the counts exactly when its token was invalidated and another one is outstanding
  (`ClientLeases.ReleaseKeepsOkExactly`); next to an exclusive holder it lets a second one in, as in the run of
  `ClientLeases.TwoExclusiveHoldersReached`.
- A handle made from a token that was invalidated while the session was being acquired survives the next lost connection
  (`ClientLeases.DisconnectPassesExactly`).
- The loop over the messages of a chunk does not look at the connection id again, so the rest of a chunk is handled
  against a connection begun in between; it changes nothing exactly while the client is disconnected
  (`ClientConnection.LeftoverHarmlessExactly`, with a run in `ClientConnection.LeftoverReached`).
- An assistant stream leaves exactly its response in the context, and one message bracket in the trace, exactly when it
  has at most one start event (`AgentTurns.ResponseContextExactly`, `AgentTurns.ResponseTraceExactly`).

`dafny verify dfyconfig.toml` checks everything.

## Model

| member | source | states |
|---|---|---|
| `Framing.HeaderRoundTrip` | packages/protocol/src/framing.ts:31-36 | the four header bytes of every 32-bit length read back as that length |
| `Framing.HeaderInjective` | packages/protocol/src/framing.ts:45 | four header bytes are the encoding of the length they denote |
| `Framing.HeaderOrder` | packages/protocol/src/framing.ts:31-36 | headers compare as their lengths do at the first byte in which they differ: big-endian byte order |
| `Framing.CompleteFrameIsOneEncoding` | packages/protocol/src/framing.ts:42-53 | bytes pass the complete-frame check if and only if they are the encoding of one payload within the limit |
| `Framing.ParseAppend` | packages/protocol/src/framing.ts:73-144 | parsing a longer stream is parsing its unparsed tail with the new bytes, after the frames already found |
| `Framing.ParseOfEncodings` | packages/protocol/src/framing.ts:28-39 | the parser reads concatenated encodings back as the payload list with nothing left over |
| `Framing.ParseIsLossless` | packages/protocol/src/framing.ts:73-144 | re-encoding the parsed frames and adding the unparsed tail gives the stream back, and the tail holds no whole frame and no oversize header |
| `Framing.ChunkingIrrelevant` | packages/protocol/src/framing.ts:73-144 | for every cut into chunks the frames of successive pushes concatenate to the parse of the whole stream |
| `Framing.RestIsUnparsed` | packages/protocol/src/framing.ts:58-67 | an open decoder holds exactly the unparsed tail |
| `Framing.FailureIsSticky` | packages/protocol/src/framing.ts:74-75 | after a failure every push and end fails |
| `Framing.PushFailsExactlyAtOversizeHeader` | packages/protocol/src/framing.ts:88-93 | a push fails exactly when its chunk completes the first header above the limit |
| `Framing.EndSucceedsExactlyAtBoundary` | packages/protocol/src/framing.ts:146-153 | end on an open decoder succeeds exactly at a frame boundary |
| `Framing.RoundTrip` | packages/protocol/src/framing.ts:28-39 | every chunking of the encodings of payloads within the limit decodes to exactly those payloads and end succeeds |
| `FrameDecoding.FrameDecoder.constructor` | packages/protocol/src/framing.ts:58-71 | a new decoder is open with nothing pending |
| `FrameDecoding.FrameDecoder.Push` | packages/protocol/src/framing.ts:73-144 | the decoder with its header and block buffers returns the frames, the error and the new state of the reference view |
| `FrameDecoding.FrameDecoder.Advance` | packages/protocol/src/framing.ts:80-142 | one pass of the loop takes header or payload bytes and keeps fields and frames equal to the parse of the input so far |
| `FrameDecoding.FrameDecoder.TakeHeader` | packages/protocol/src/framing.ts:81-103 | header bytes are collected across chunks and a complete header is judged against the limit, as the parser does |
| `FrameDecoding.FrameDecoder.FillPayload` | packages/protocol/src/framing.ts:107-123 | the inner loop appends exactly the payload bytes available, across blocks |
| `FrameDecoding.FrameDecoder.JoinBlocks` | packages/protocol/src/framing.ts:124-135 | a finished frame is the concatenation of its blocks |
| `FrameDecoding.FrameDecoder.End` | packages/protocol/src/framing.ts:146-153 | end gives the result and the new state of the reference view |
| `FrameDecoding.FrameDecoder.Fail` | packages/protocol/src/framing.ts:155-164 | failing clears the pending input and makes the decoder broken |
| `FrameDecoding.ReservationBounded` | packages/protocol/src/framing.ts:108-114 | blocks reserved for an unfinished frame exceed neither the announced length nor the bytes received plus 65535 |
| `Codec.ReadFrames` | packages/protocol/src/codec.ts:105-109 | frames are decoded and validated in order, up to the first failure |
| `Codec.MessageDecoder.Push` | packages/protocol/src/codec.ts:102-115 | the message decoder returns the messages or error and the new state of its reference view |
| `Codec.MessageDecoder.End` | packages/protocol/src/codec.ts:117-125 | end gives the result and the new state of the reference view |
| `Codec.EncodingsAreFrames` | packages/protocol/src/codec.ts:60-76 | encoded messages are the frames of their payloads |
| `Codec.DeliversWholeStream` | packages/protocol/src/codec.ts:102-115 | for every cut into chunks the messages delivered are those of the frames of the whole stream |
| `Codec.MessageRoundTrip` | packages/protocol/src/codec.ts:60-126 | given a wire format that round-trips valid messages, every chunking of encoded messages delivers exactly them and end succeeds |
| `Codec.MessageFailureIsSticky` | packages/protocol/src/codec.ts:102-125 | after a failure every push and end of the message decoder fails |
| `Codec.ReadsExactly` | packages/protocol/src/codec.ts:105-109 | frames read if and only if each of them decodes to a value that passes the check, each as that value |
| `Codec.PushFailsExactly` | packages/protocol/src/codec.ts:102-115 | a push fails, and leaves the decoder failed, if and only if it had failed before, the frame decoder refuses the chunk, or a frame the chunk completes is unreadable |
| `Codec.SucceedsExactly` | packages/protocol/src/codec.ts:102-115 | for every cut into chunks all pushes succeed if and only if the stream has no oversize header and every frame in it is readable |
| `StdinInput.ExtractCompleteSequences` | packages/tui/src/stdin-buffer.ts:192-255 | the two nested loops compute the recursive extraction |
| `StdinInput.FindSequence` | packages/tui/src/stdin-buffer.ts:202-242 | the inner loop finds the shortest complete prefix, or none |
| `StdinInput.ExtractionIsLossless` | packages/tui/src/stdin-buffer.ts:192-255 | sequences and remainder rejoin to the buffer, no sequence is empty, the remainder is empty or an escape sequence with no complete prefix |
| `StdinInput.ExtractionComposes` | packages/tui/src/stdin-buffer.ts:192-255 | extracting a + b is extracting a and then its remainder with b, if and only if no double escape is split |
| `StdinInput.DoubleEscapeSplit` | packages/tui/src/stdin-buffer.ts:217-230 | every introducer after an emitted double escape is such a failure |
| `StdinInput.ControlSequenceToken` | packages/tui/src/stdin-buffer.ts:84-126 | a control sequence is emitted up to its first final byte, and only then |
| `StdinInput.ControlStringToken` | packages/tui/src/stdin-buffer.ts:132-179 | OSC, DCS and APC strings are emitted up to their first terminator, and only then |
| `StdinInput.FixedLengthToken` | packages/tui/src/stdin-buffer.ts:41-77 | old mouse reports are six long, single shifts three, other escape pairs two |
| `StdinInput.MouseReportToken` | packages/tui/src/stdin-buffer.ts:102-120 | a sequence that opens like a new mouse report is emitted exactly where it first is one |
| `StdinInput.MouseReportShape` | packages/tui/src/stdin-buffer.ts:104-119 | what counts as a new mouse report is three decimal numbers between semicolons, closed by M or m |
| `StdinInput.MouseReportAccepted` | packages/tui/src/stdin-buffer.ts:104-109 | every such report counts as one |
| `StdinInput.StdinBuffer.ProcessInput` | packages/tui/src/stdin-buffer.ts:287-387 | the buffer object computes the reference step, paste included; what that step does to a text is stated in the rows of `StdinChunks` |
| `StdinInput.StdinBuffer.EndPaste` | packages/tui/src/stdin-buffer.ts:319-333 | the paste buffer is searched for the end marker and what follows is processed on |
| `StdinInput.StdinBuffer.Flush` | packages/tui/src/stdin-buffer.ts:400-414 | flush hands out the whole buffer and empties it |
| `StdinInput.IndexOfPrefix` | packages/tui/src/stdin-buffer.ts:319 | the first end marker found does not move when more text arrives |
| `StdinInput.PasteAccumulates` | packages/tui/src/stdin-buffer.ts:315-317 | until the end marker is complete the pasted text is only accumulated |
| `StdinInput.PasteSurvivesChunking` | packages/tui/src/stdin-buffer.ts:315-335 | the text up to the first end marker is emitted once and unchanged for every cut into non-empty chunks |
| `StdinChunks.TypedTextSurvives` | packages/tui/src/stdin-buffer.ts:371-376 | text without a start marker, cut in any way, is emitted in order and unchanged, but for what is still buffered |
| `StdinChunks.ChunkingIrrelevantExactly` | packages/tui/src/stdin-buffer.ts:371-376 | text fed in chunks gives the events and the buffer of extracting it at once, if and only if no cut separates an emitted double escape from an introducer |
| `StdinChunks.PasteBegins` | packages/tui/src/stdin-buffer.ts:337-352 | when no incomplete sequence precedes the first start marker, everything before it is emitted and paste mode begins with what follows it, for every cut of the marker |
| `StdinChunks.PasteIsOneEvent` | packages/tui/src/stdin-buffer.ts:313-369 | what is between the markers is one paste event, after the sequences before it and before what follows, for every cut of text and markers |
| `StdinChunks.OpenPasteIsKept` | packages/tui/src/stdin-buffer.ts:313-352 | a paste without an end marker is kept whole |
| `StdinChunks.LostBeforePasteExactly` | packages/tui/src/stdin-buffer.ts:338-346 | in one chunk, the text before the marker is emitted whole if and only if it ends in no incomplete sequence |
| `StdinChunks.MarkerLost` | packages/tui/src/stdin-buffer.ts:337-376 | after an incomplete sequence a cut marker is not seen, while the same text in one chunk begins a paste |
| `AgentEvents.TranscriptIsEndedMessages` | packages/agent/src/agent.ts:540-578 | the reducer's transcript grows by exactly the message_end payloads in order |
| `AgentEvents.StreamingIs` | packages/agent/src/agent.ts:542-552 | the streaming message is the one last started or updated, unless a message or the run has ended since |
| `AgentEvents.PendingIs` | packages/agent/src/agent.ts:554-566 | a tool call is pending if and only if the last event about it is its start |
| `AgentEvents.ErrorIs` | packages/agent/src/agent.ts:568-572 | the error shown is that of the last turn that ended in one |
| `AgentEvents.ScanCollectsEnded` | packages/agent/src/agent-loop.ts:184-304 | in a trace of the grammar the messages collected are the message_end payloads |
| `AgentEvents.AgentEndIsLast` | packages/agent/src/agent-loop.ts:226-303 | a complete run has agent_end exactly as its last event |
| `ToolBatch.ErrorsExactly` | packages/agent/src/agent-loop.ts:652-824 | an outcome is an error if and only if the call did not execute, its after hook threw, or, the hook having the last word, it went wrong |
| `ToolBatch.TerminatesExactly` | packages/agent/src/agent-loop.ts:652-824 | an outcome asks to end the run if and only if the call executed and its result, after the hook, says so |
| `ToolBatch.ResultSays` | packages/agent/src/agent-loop.ts:843-858 | a result message says what the plan of its call makes of it: the fields of the after hook where it gives them, else of the tool; the reason alone if the call was refused or threw |
| `ToolBatch.FailTruncated` | packages/agent/src/agent-loop.ts:426-451 | every call of a truncated message is answered in order with the truncation error and none is executed |
| `ToolBatch.ExecuteSequential` | packages/agent/src/agent-loop.ts:478-532 | the loop answers a source-order prefix with the calls' own outcomes and executes exactly those that were prepared |
| `ToolBatch.SequentialStops` | packages/agent/src/agent-loop.ts:523-525 | the sequential batch stops at the first call that sees an abort and only there |
| `ToolBatch.SequentialBatch` | packages/agent/src/agent-loop.ts:489-521 | the trace of a sequential batch follows the grammar and brackets exactly its results |
| `ToolBatch.StartBatch` | packages/agent/src/agent-loop.ts:557-590 | entries are built for the calls up to the first check that sees an abort; exactly the prepared ones execute |
| `ToolBatch.ExecuteParallel` | packages/agent/src/agent-loop.ts:534-606 | the executor computes the concurrent batch under the given schedule, with its abort flag, events and executed tools |
| `ToolBatch.ConcurrentStops` | packages/agent/src/agent-loop.ts:568-589 | the concurrent batch stops at the first check that sees an abort and only there |
| `ToolBatch.ScheduleKeepsOutcomes` | packages/agent/src/agent-loop.ts:574-594 | under every schedule a finished entry holds the outcome its call has on its own |
| `ToolBatch.FinishesExactly` | packages/agent/src/agent-loop.ts:592-594 | a schedule finishes a batch if and only if it picks every entry as often as the entry needs |
| `ToolBatch.SomeScheduleFinishes` | packages/agent/src/agent-loop.ts:592-594 | every batch has a schedule that finishes it |
| `ToolBatch.ConcurrentBatch` | packages/agent/src/agent-loop.ts:534-606 | for every finishing schedule the trace follows the grammar, leaves only unanswered calls running, and outcomes are the calls' own in source order |
| `ToolBatch.ConcurrentEqualsSequential` | packages/agent/src/agent-loop.ts:478-606 | without an abort the concurrent batch finishes exactly under schedules that pick every call often enough, and then equals the sequential one in outcomes and executed tools |
| `ToolBatch.BatchTerminatesExactly` | packages/agent/src/agent-loop.ts:634-636 | a batch ends the run if and only if it has calls, all executed and all ask for it |
| `ToolUpdates.SequentialUpdates` | packages/agent/src/agent-loop.ts:489-521 | in a sequential batch the updates emitted under a call's own id are those of its execution, all and in order, or none if it did not execute |
| `ToolUpdates.ConcurrentUpdates` | packages/agent/src/agent-loop.ts:557-600 | the same in a concurrent batch, for every schedule that finishes it |
| `UpdateFlush.SpotStep` | packages/agent/src/agent-loop.ts:725-777 | every step keeps the microtask queue and promise chain in one of fourteen shapes |
| `UpdateFlush.FaithfulStep` | packages/agent/src/agent-loop.ts:728-748 | every step keeps emitted updates a subsequence of accepted ones with at most the newest held |
| `UpdateFlush.AcceptedAreReported` | packages/agent/src/agent-loop.ts:741-762 | in every run exactly the updates reported before the tool returned or threw are accepted, in order |
| `UpdateFlush.UpdatesCoalesceSafely` | packages/agent/src/agent-loop.ts:718-777 | in every run updates are emitted in order, never overlapping, and the last accepted one is out before the outcome is returned |
| `UpdateFlush.ReturnedIsFinal` | packages/agent/src/agent-loop.ts:757-765 | in every run nothing more is accepted or emitted after the outcome is returned |
| `UpdateFlush.AwaitingIsNeverStuck` | packages/agent/src/agent-loop.ts:763-769 | while the executor awaits its flushes something can still happen |
| `UpdateFlush.AwaitingReturns` | packages/agent/src/agent-loop.ts:763-777 | every run that has come to the wait for its flushes has a continuation that returns the outcome |
| `AgentLoop.PendingMessageQueue.Enqueue` | packages/agent/src/agent.ts:133-135 | a message is queued last; all ever enqueued is what was drained, then what is queued |
| `AgentLoop.PendingMessageQueue.Drain` | packages/agent/src/agent.ts:141-154 | draining takes all or the first message and keeps the order |
| `AgentLoop.PendingMessageQueue.Clear` | packages/agent/src/agent.ts:156-158 | clearing empties the queue and forgets what was queued |
| `AgentLoop.StreamAssistantResponse` | packages/agent/src/agent-loop.ts:310-417 | the loop over the stream computes the context and the events of the response, for any stream |
| `AgentTurns.ResponseContextExactly` | packages/agent/src/agent-loop.ts:352-417 | the context grows by exactly the response if and only if the stream starts at most once |
| `AgentTurns.ResponseTraceExactly` | packages/agent/src/agent-loop.ts:352-417 | the response is one well-formed bracket if and only if the stream starts at most once; else the trace is bad |
| `AgentLoop.RunTools` | packages/agent/src/agent-loop.ts:236-245 | the tool phase computes the truncated, sequential or concurrent batch and its terminate decision |
| `AgentTurns.ToolsOutcome` | packages/agent/src/agent-loop.ts:236-245 | a source-order prefix is answered with the calls' own outcomes, exactly its prepared calls execute, none of a truncated message; an unanswered call means an abort, and a turn without one has none |
| `AgentTurns.ToolsAnswer` | packages/agent/src/agent-loop.ts:247-250 | results carry the ids of that prefix |
| `AgentTurns.ToolsSay` | packages/agent/src/agent-loop.ts:236-250 | and their content, details, usage and error flag are those its call and plan determine; the notice for calls of a truncated message |
| `AgentTurns.TerminatesWhen` | packages/agent/src/agent-loop.ts:245 | after the tools of a turn nothing is left to report if and only if all answered calls executed and ask to end the run |
| `AgentTurns.ToolsTrace` | packages/agent/src/agent-loop.ts:426-606 | the tools' events bracket exactly the results and leave only unanswered calls running |
| `AgentTurns.ToolsFinishExactly` | packages/agent/src/agent-loop.ts:592-594 | the tools of a turn end if and only if the schedule picks every entry often enough |
| `AgentLoop.Inject` | packages/agent/src/agent-loop.ts:211-219 | pending messages are bracketed and pushed on context and new messages in order |
| `AgentLoop.RunTurn` | packages/agent/src/agent-loop.ts:203-253 | a turn from its pending messages to its turn_end computes the turn function |
| `AgentTurns.TurnIs` | packages/agent/src/agent-loop.ts:203-253 | a turn writes its pending messages, its scripted response and the tools' results to the new messages, and to the context if the stream keeps its contract; it asks for another turn if and only if its results are to be reported |
| `AgentTurns.TurnTrace` | packages/agent/src/agent-loop.ts:203-253 | a turn is well bracketed and closes on its response and that response's results |
| `AgentLoop.LoopTurn` | packages/agent/src/agent-loop.ts:203-289 | one pass of the inner loop computes the pass function while the queues in place stay in step with it, in what they hold, took in and handed out |
| `AgentLoop.ServeFollowUps` | packages/agent/src/agent-loop.ts:291-297 | follow-ups found become the pending messages and the poll is recorded with its mode and what it left |
| `AgentLoop.RunLoop` | packages/agent/src/agent-loop.ts:184-304 | the nested loops compute the run function; the queues end as it says, having taken in exactly what arrived and handed out exactly what its polls found |
| `AgentLoop.RunAgentLoop` | packages/agent/src/agent-loop.ts:124-147 | the same from prompts |
| `AgentLoop.RunAgentLoopContinue` | packages/agent/src/agent-loop.ts:149-172 | the same without prompts; refused exactly on an empty context or one that ends in an assistant message |
| `AgentRuns.EveryRun` | packages/agent/src/agent-loop.ts:184-304 | every run, for every script, keeps all invariants and comes to an end or runs out of script |
| `AgentRuns.RunWrites` | packages/agent/src/agent-loop.ts:124-304 | new messages are the prompts, then turn by turn the injected messages, the scripted response and its results |
| `AgentRuns.RunIsWellFormed` | packages/agent/src/agent-loop.ts:184-304 | a run that ends emits a trace of the grammar, closes with its new messages, and these are its message_end payloads |
| `AgentRuns.RunAgrees` | packages/agent/src/agent-loop.ts:253-274 | at every turn_end new messages and message_end payloads are prompts and everything written; the context is that after the initial messages unless an earlier turn's prepareNextTurn replaced it, and exactly then the flag says so |
| `AgentRuns.ContextIsTranscript` | packages/agent/src/agent-loop.ts:184-304 | without an earlier replacement, the context at each turn_end is the initial messages, the prompts and everything written so far |
| `AgentContexts.ContextSinceReplacement` | packages/agent/src/agent-loop.ts:253-274 | in every run the context at a turn_end is the last replacement, or the initial messages and prompts, followed by everything written since |
| `AgentRuns.TurnAnswers` | packages/agent/src/agent-loop.ts:225-251 | in every run each turn's results answer a source-order prefix, complete unless failed or aborted; executed are exactly the answered calls that were prepared, none of a truncated message |
| `AgentRuns.TurnResultsSay` | packages/agent/src/agent-loop.ts:247-250 | in every run each result of a turn says what the plan of its call makes of it |
| `AgentRuns.CalmTurns` | packages/agent/src/agent-loop.ts:478-606 | up to any turn without an abort in the script, every call of a non-failed message is answered |
| `AgentRuns.TurnInjects` | packages/agent/src/agent.ts:471-478 | each turn injects what its own poll found, at most one message in one-at-a-time mode, in the mode set before the poll; follow-ups only after a poll that found the steering queue empty |
| `AgentRuns.NothingInFlight` | packages/agent/src/agent-loop.ts:288-303 | when a run ends each queue has handed out exactly what the turns injected, in order |
| `AgentRuns.QueueConserved` | packages/agent/src/agent-loop.ts:196-301 | for every run and either queue, in order: what was queued and what the script sent is what the turns injected, then what is in flight, then what is still queued |
| `AgentRuns.ArrivesAsSent` | packages/agent/src/agent.ts:471-478 | what arrives during a run is what the script sends before the polls that are made, and nothing else |
| `AgentRuns.StopEndsRun` | packages/agent/src/agent-loop.ts:225-229 | a run whose tools end is over no later than the first turn that fails or is told to stop |
| `AgentRuns.DryEndsRun` | packages/agent/src/agent-loop.ts:199-301 | a run whose tools end takes at most one turn, one per response with tool calls and one per queued message, so it ends within any longer script |
| `AgentRuns.LostOnlyByScript` | packages/agent/src/agent-loop.ts:184-304 | a run that is not complete was given too few turns or a tool that never ends |
| `AgentRuns.WhyItEnded` | packages/agent/src/agent-loop.ts:225-303 | a complete run ended with a failed or stopped turn, or with no results to report and both queues found empty |
| `AgentRuns.ToolsGetATurn` | packages/agent/src/agent-loop.ts:203-245 | in a complete run a turn that called tools is followed by another one, unless it stopped the run or every answered call executed and asked to end it |
| `AgentRuns.TurnHasReason` | packages/agent/src/agent-loop.ts:199-203 | every turn but the first has results of the turn before to report, or injects messages |
| `AgentRuns.SkippedPoll` | packages/agent/src/agent.ts:471-477 | when continue has drained the steering queue itself the first turn injects nothing |
| `Agents.Agent.Steer` | packages/agent/src/agent.ts:283-285 | a steering message is queued last, during a run or between runs |
| `Agents.Agent.FollowUp` | packages/agent/src/agent.ts:288-290 | a follow-up message is queued last, during a run or between runs |
| `Agents.Agent.ProcessEvent` | packages/agent/src/agent.ts:540-578 | the object's fields change as the reducer says |
| `Agents.Agent.RunPrompts` | packages/agent/src/agent.ts:405-419 | the result is that of the run function; the transcript becomes the old one, the prompts and what the turns wrote; the queues hold, took in and handed out what the run says |
| `Agents.Agent.RunContinuation` | packages/agent/src/agent.ts:421-431 | the same without prompts, from a user message or a tool result |
| `Agents.Agent.Prompt` | packages/agent/src/agent.ts:346-354 | refused without any change while active; else the result, transcript and queues are those of the run function, and after an ended run every message ever queued was injected in order or is still queued |
| `Agents.Agent.Continue` | packages/agent/src/agent.ts:357-384 | after an assistant message a run prompted with exactly what the steering queue, else the follow-up queue hands out, refused exactly if both give nothing; after any other message a run without prompts; result, transcript and queues are those of the run function |
| `Agents.RunTranscript` | packages/agent/src/agent.ts:540-578 | reducing the events of an ended run gives the initial messages, the prompts and what the turns wrote |
| `Agents.TranscriptAgreesAtTurnEnds` | packages/agent/src/agent.ts:540-578 | at each turn_end the reduced transcript is the initial messages, the prompts and what was written, and the loop's own context when no earlier turn had it replaced |
| `Sessions.StepKeepsInv` | packages/server/src/sessions.ts:193-253 | every step keeps an unsettled creation its id's opening and, while open, an undisposed session its id's live session |
| `Sessions.OneRuntimePerId` | packages/server/src/sessions.ts:193-253 | over every run while open, an id has at most one unfinished opening or undisposed runtime |
| `Sessions.AcquirersShareTheOpening` | packages/server/src/sessions.ts:204-213 | acquirers of one id that await unfinished openings await the same one |
| `Sessions.EveryStepAllowed` | packages/server/src/sessions.ts:316-352 | sessions only move forward, operations start on held runtimes, and while open dispose is called only on a registered, unused, idle or terminal session; when operations end is stated by `Sessions.OperationsAreRunning` |
| `Sessions.RunEvolves` | packages/server/src/sessions.ts:194-213 | over every run an acquirer gets the opening it waited for or its failure, and leaves a disposing session only once it is disposed of |
| `Sessions.DisposedAtMostOnce` | packages/server/src/sessions.ts:159-176 | every runtime is disposed of at most once, closing included |
| `Sessions.NoOperationDuringDisposal` | packages/server/src/sessions.ts:178-191 | while open a session with a running operation is registered and nothing has disposed of it |
| `Sessions.OperationsAreRunning` | packages/server/src/sessions.ts:178-191 | over every run the operation count of a session is the number of operations started on it less those ended since |
| `Sessions.UnusedIsDisposedOf` | packages/server/src/sessions.ts:331-352 | over every run a session without a connection and without an unended operation, idle or terminal, is disposed of and off the list after maybeDispose and the end of the disposal |
| `Sessions.LastDetachDisposes` | packages/server/src/sessions.ts:80-93 | the detach of the last connection, then the same, disposes of an idle session |
| `Sessions.AcquirerLooksAgain` | packages/server/src/sessions.ts:194-213 | an acquirer that saw a disposal finish is refused if and only if the id has a terminal session; else it has or awaits one of its id |
| `Sessions.FailedIsRefused` | packages/server/src/sessions.ts:196-198 | a session whose runtime has failed is refused to acquirers and operations |
| `Sessions.FailedCreationDisposes` | packages/server/src/sessions.ts:216-253 | a creation that fails with a runtime disposes of it once and changes nothing else |
| `Sessions.FailedCreationRefuses` | packages/server/src/sessions.ts:208-212 | and its acquirer is refused and takes the opening off the list |
| `Sessions.CloseOvertakesExactly` | packages/server/src/sessions.ts:159-176 | close disposes of a session not yet disposed of if and only if it is registered, operations running or not |
| `Sessions.CloseOvertakesReached` | packages/server/src/sessions.ts:159-176 | a run from the start in which close disposes of a session with an operation running |
| `SessionMembership.AttachKeepsExactlyInService` | packages/server/src/sessions.ts:307-314 | an attach keeps the membership invariant if and only if the session is registered and not disposing |
| `SessionMembership.CloseKeepsExactlyUnattached` | packages/server/src/sessions.ts:159-176 | close keeps the membership invariant if and only if no connection lists a session |
| `SessionMembership.MembershipOverRuns` | packages/server/src/sessions.ts:127-137 | every run whose attaches find their session in service keeps the invariant: a connection lists an id exactly when the id's live session lists it, and only sessions in service have connections |
| `SessionMembership.ReachedMembership` | packages/server/src/sessions.ts:307-314 | the same for every state the server reaches from its start |
| `SessionMembership.AcquiredIsInService` | packages/server/src/sessions.ts:194-203 | what acquire returns without waiting is in service |
| `SessionMembership.OpenedIsInService` | packages/server/src/sessions.ts:204-213 | while open, what an opening delivers is in service exactly if it is not being disposed of |
| `SessionMembership.LateAttachBreaksMembership` | packages/server/src/sessions.ts:71-79 | a disposal between acquire and attach leaves a connection listing a session that is not live |
| `SessionMembership.LateAttachReached` | packages/server/src/sessions.ts:71-79 | a run from the start that does this |
| `ServerConnection.StepKeepsInv` | packages/server/src/server.ts:165-336 | every step keeps stage, flags, timer, tasks and history consistent |
| `ServerConnection.StageMovesForward` | packages/server/src/server.ts:277-286 | over every run the stage only moves forward and a disconnect is never undone |
| `ServerConnection.RunsAreLawful` | packages/server/src/server.ts:180-264 | every run's history is lawful |
| `ServerConnection.DispatchedBetween` | packages/server/src/server.ts:204-214 | in a lawful history a dispatch follows the hello and precedes every closing and the disconnect |
| `ServerConnection.OnceOnly` | packages/server/src/server.ts:247-264 | in a lawful history the hello, each dispatch, each answer and the disconnect happen at most once |
| `ServerConnection.FinishedIsAnswered` | packages/server/src/server.ts:247-308 | a finished request was answered unless the connection is gone |
| `ServerConnection.BecomesReady` | packages/server/src/server.ts:225-245 | a handshake whose snapshot and hello get through makes the connection ready |
| `ServerConnection.ReceivedIsTaken` | packages/server/src/server.ts:204-214 | a request on a ready connection is dispatched at once, one during the handshake is queued |
| `ServerConnection.QueuedIsDispatchedExactly` | packages/server/src/server.ts:209-213 | a queued request is dispatched if and only if the handshake has settled and the connection is ready |
| `ServerConnection.SettledIsAnsweredExactly` | packages/server/src/server.ts:247-308 | a settled command is answered if and only if its answer encodes and the connection is alive; an answer that does not encode ends the connection |
| `ServerConnection.ReadyHasLostNothing` | packages/server/src/server.ts:204-214 | over every run a ready connection has dispatched every request it received or still has it queued |
| `ServerConnection.EndsExactly` | packages/server/src/server.ts:165-336 | a connection becomes terminal in exactly the listed steps, and its timer is then off |
| `ServerConnection.TimerNeverFiresWhenReady` | packages/server/src/server.ts:233-237 | the handshake timeout does nothing once the connection is ready |
| `ClientLeases.LeaseTable.Reserve` | packages/client/src/client.ts:381-393 | the table refuses or takes a new token as the reference says |
| `ClientLeases.LeaseTable.Release` | packages/client/src/client.ts:395-400 | the table releases as the reference says |
| `ClientLeases.LeaseTable.Invalidate` | packages/client/src/client.ts:402-407 | the table forgets a session's leases and passes its generation |
| `ClientLeases.LeaseTable.InvalidateAll` | packages/client/src/client.ts:409-412 | the loop over the map it deletes from invalidates exactly the sessions that had a count |
| `ClientLeases.RefusesExactly` | packages/client/src/client.ts:382-388 | exclusive is refused exactly if a token is outstanding, shared exactly if an exclusive one is |
| `ClientLeases.ReleaseKeepsOkExactly` | packages/client/src/client.ts:395-400 | a release keeps counts and exclusion right if and only if its token is outstanding or none is |
| `ClientLeases.StaleReleaseBreaksExclusion` | packages/client/src/client.ts:395-400 | a stale release next to an exclusive holder lets a second exclusive holder in |
| `ClientLeases.TwoExclusiveHoldersReached` | packages/client/src/client.ts:151-177 | a run from the start that ends with two exclusive tokens of one session outstanding |
| `ClientLeases.PassedNeverActive` | packages/client/src/client.ts:209-225 | over every run a handle whose generation has been passed is never active again |
| `ClientLeases.TimelyRunKeepsInv` | packages/client/src/client.ts:209-292 | over every run with timely releases counts equal outstanding tokens, exclusive tokens are alone and current handles hold theirs |
| `ClientLeases.ExclusiveMeansAlone` | packages/client/src/client.ts:381-412 | over every such run two active handles of one session are both shared |
| `ClientLeases.LastReleaseDetachesExactly` | packages/client/src/client.ts:227-255 | a release goes through a detach, and keeps its token until that is done, if and only if no other token of the session is outstanding |
| `ClientLeases.FailedDetach` | packages/client/src/client.ts:256-268 | a failed detach leaves the handle invalidated, gives its token back, or makes it active with its token again, as the case is |
| `ClientLeases.DisconnectPassesExactly` | packages/client/src/client.ts:409-412 | a lost connection leaves an active handle current if and only if its session has no count |
| `ClientLeases.DisconnectPassesAll` | packages/client/src/client.ts:321-326 | over every timely run no handle survives a lost connection |
| `ClientLeases.LateHandleSurvivesDisconnect` | packages/client/src/client.ts:151-177 | a handle made from an invalidated token survives the next lost connection |
| `ClientConnection.StepKeepsInv` | packages/client/src/connection.ts:66-231 | every step keeps promises, requests, transports and the lifecycle consistent |
| `ClientConnection.RequestsSettleOnce` | packages/client/src/client.ts:294-340 | over every run a request is pending, on a live connection, or has been resolved or rejected once and for all; none is pending while disconnected |
| `ClientConnection.SettledExactly` | packages/client/src/client.ts:294-340 | a pending request is resolved by a successful response to it, rejected by a failure response to it or the loss of the connection, and by nothing else |
| `ClientConnection.ResponseSettles` | packages/client/src/client.ts:300-318 | a response settles the request it names and changes no other and no connection; one for another command or no pending request ends the connection |
| `ClientConnection.RequestWaitsExactly` | packages/client/src/client.ts:189-207 | a new request waits if and only if the client is connected, not disposed of and can encode it |
| `ClientConnection.ResolvedExactlyByItsResponse` | packages/client/src/client.ts:294-318 | over every run a request is resolved if and only if a successful response to it was handled while it was pending |
| `ClientConnection.LostExactly` | packages/client/src/connection.ts:142-231 | a connection is lost in exactly the listed steps; its promise has then settled, nothing is pending and its transport is about to be closed or closed itself |
| `ClientConnection.ConnectsSettleOnce` | packages/client/src/connection.ts:66-90 | over every run a connect promise is held by the lifecycle or has settled once and for all |
| `ClientConnection.TransportsAccountedFor` | packages/client/src/connection.ts:119-140 | every transport is the current one, was closed by the client exactly once, is about to be, or reported its own close |
| `ClientConnection.SupersededForever` | packages/client/src/connection.ts:233-235 | a superseded connection id is never current again |
| `ClientConnection.SupersededCallbackIgnored` | packages/client/src/connection.ts:79-87 | a callback with a superseded id changes nothing the client goes by; a late transport is closed |
| `ClientConnection.LeftoverHarmlessExactly` | packages/client/src/connection.ts:156-159 | a message left over from a superseded connection changes nothing if and only if the client is disconnected |
| `ClientConnection.LeftoverFailsReconnect` | packages/client/src/connection.ts:162-176 | it fails a reconnect that has no transport yet |
| `ClientConnection.LeftoverReached` | packages/client/src/connection.ts:142-204 | a run, in the order of the synchronous loop, that reaches such a state |
| `Layout.IntersectCovers` | packages/tui/src/layout.ts:54-60 | an intersection covers exactly the cells of both rectangles |
| `Layout.UpdateClipsExact` | packages/tui/src/layout.ts:95-98 | updating clips makes every clip in the tree exact, whatever it was before |
| `Layout.LayoutExact` | packages/tui/src/layout.ts:100-241 | in every laid-out tree each clip covers exactly the enclosing clip within the box's own rectangle |
| `Layout.FrameClips` | packages/tui/src/layout.ts:345-364 | in a frame a box's clip covers exactly the cells of the viewport in the rectangles of the box and all its ancestors |
| `Layout.ScrollIsDirectLayout` | packages/tui/src/layout.ts:130-162 | content shifted and clipped again is the content laid out at the new scroll position in the first place |
| `Layout.StackPlaces` | packages/tui/src/layout.ts:181-190 | children of a vertical stack keep its left edge and width, each the gap below the one before |
| `Layout.StackFits` | packages/tui/src/layout.ts:170-173 | a vertical stack that is given no height ends exactly with its last child |
| `Layout.RowStackPlaces` | packages/tui/src/layout.ts:213-239 | children of a horizontal stack are each the gap to the right of the one before |
| `Layout.RowChildPlace` | packages/tui/src/layout.ts:214-236 | a child of a row has the width allotted and stays within the row's height on the side its alignment says |
| `Layout.RowHeightIsHighest` | packages/tui/src/layout.ts:198-204 | a row that is given no height is as high as its highest child |
| `Layout.LeafHolds` | packages/tui/src/layout.ts:110-128 | text keeps the height given or has as many lines as it renders at its own width |
| `Layout.StackHolds` | packages/tui/src/layout.ts:164-193 | a laid-out vertical stack, with or without height, holds its components, each laid out in its own place below the one before |
| `Layout.RowHolds` | packages/tui/src/layout.ts:195-241 | a laid-out horizontal stack holds its components side by side, aligned within its height at their natural heights unless stretched; one without width holds nothing |
| `Layout.RowNaturalHeight` | packages/tui/src/layout.ts:198-204 | a row laid out without height is as high as the highest child at the width each gets |
| `Layout.ScrollHolds` | packages/tui/src/layout.ts:130-162 | a scroll container holds its content at the content width and natural height, shifted up by the scroll position |
| `Layout.HitTestIsSearch` | packages/tui/src/layout.ts:392-399 | the pruned visit of a frame finds what the search of the whole tree by rectangles finds, in the same order |
| `Layout.SearchFindsPath` | packages/tui/src/layout.ts:392-402 | what that search finds is a scroll view with the cell in its rectangle and all enclosing ones |
| `Layout.SearchFindsAll` | packages/tui/src/layout.ts:392-402 | every such scroll view is found, with its depth |
| `Layout.DeepestFirst` | packages/tui/src/layout.ts:400 | the finds come deepest first |
| `Layout.DeepestFirstPermutes` | packages/tui/src/layout.ts:400 | sorting loses, adds and doubles nothing |
| `Layout.DeepestFirstIsStable` | packages/tui/src/layout.ts:400 | finds at one depth keep their order |
| `Layout.ViewsAt` | packages/tui/src/layout.ts:401 | the result lists the view of each find at its place |
| `Layout.VisitInto` | packages/tui/src/layout.ts:393-399 | the visitor appends exactly what the pruned visit finds |
| `Layout.GetScrollViewsAt` | packages/tui/src/layout.ts:392-402 | on a frame the result is, place by place, the views found by the search of the whole tree, deepest first |
| `LayoutBoxes.LayoutBox.TranslateBox` | packages/tui/src/layout.ts:90-93 | the shift in place turns the tree into the translated one and touches no other box |
| `LayoutBoxes.LayoutBox.UpdateBoxClips` | packages/tui/src/layout.ts:95-98 | the clip pass in place turns the tree into the reclipped one and touches no other box |
| `LayoutBoxes.LayoutInPlace` | packages/tui/src/layout.ts:100-241 | the boxes built and rewritten in place hold the tree of the layout function |
| `LayoutBoxes.Enclose` | packages/tui/src/layout.ts:141-161 | a scroll container shifts, reclips and takes in its content as the function says |
| `LayoutBoxes.LayoutEntriesDown` | packages/tui/src/layout.ts:181-190 | the loop over a vertical stack places its children as the function says |
| `LayoutBoxes.LayoutEntriesAcross` | packages/tui/src/layout.ts:213-239 | the loop over a horizontal stack places its children as the function says, those without width included |

## Left out

- Resolution of the frame limit option: the decoder takes a limit of at most 32 bits.
- The CBOR codec, the schema checks and `isProtocolValue`: an abstract wire format with an assumed round trip of valid messages stands for them.
- Sockets, listeners and timers: they are steps such as a timeout firing, a send failing or a transport closing.
- Where the abort signal is raised matters only at the points the loop looks at it: when a response is complete, at each preparation and after each call.
- Throwing hooks and listeners of the agent, and the failure trace of `handleRunFailure`: trace properties are for runs that end normally.
- Reset of the agent, and clearing a queue during a run: conservation is stated for runs without them.
- Null tool updates: the coalescer treats null as no update, so updates are taken to be values.
- Timestamps, added tool names, usage accounting beyond one field, and model or reasoning changes between turns.
- Preparation of concurrent calls is one batch in the code although the documentation describes it as one call after another; the model follows the code.
- Suppression of duplicate Kitty key events after extraction, and conversion of single high bytes.
- Order between requests queued during the handshake and requests that arrive just after it: the code does not fix it.
- `ServerConnection`, `Sessions` and `ClientConnection` are state machines on values rather than objects: they show every interleaving of synchronous stretches, not aliasing inside one stretch.
- The `ready` flag of a live session: it guards the stretch between subscribing and registering, which is one step here.
- Broadcasts of snapshots to connections, session listing and summaries.
- Sets of sessions that need cleanup after a failed detach, and the reconciliation request: they do not touch counts or generations.
- `FrameDecoding.FrameDecoder.Push`: returned frames are byte sequences, so that a single block is handed out without a copy is not shown.
- Refused calls of connect settle at once and are not recorded in the model.
- Allocation of stack sizes, filtering of visible entries, rendering, painting, the scrollbar and images: layout takes sizes and line counts as functions.
- `Layout.LayoutExact`: widths and heights are integers, so rounding down of fractional sizes is not modelled.
- The event stream wrapper `agentLoop`, `streamProxy`, model catalogs, authentication, pricing, the command line, packages and migrations.
- Kill ring, undo stack, keybindings, fuzzy scoring and autocomplete: they would only add easy members.
