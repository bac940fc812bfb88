# Davinci agent: a verified model

A Dafny model of the Davinci agent and of the protocols around it, with proofs of what they promise. Run
`dafny verify dfyconfig.toml` in this directory to check all of it.

## What is modelled

**The bridge** (`davinci/caspar_bridge.py`). `BigEndian` and `Wire` give the frame format byte by byte: the u32
length, the 25-byte header, the 64 KiB chunks and the ceiling division. `Reassembly` gives `_dispatch_frame`.
`BridgeClient` has the client as a class over a socket that may cut and delay its input in any way. The reader is
proved equal to "parse the stream, reassemble, route", and from there to deliver each answer to its own waiter.
`Outbox` carries everything a client sends to the other end.

**The two correlation layers** (`davinci/caspar_bridge.py`, `davinci/caspar_runtime.py`). `Matcher` is the waiter
table that both layers keep under a lock, `ToolExecutor` the executor's critical sections and what reaches them from
the bridge, and `Correlation` a state machine in which one step is one critical section, or one return from a wait,
of some thread. Its theorems hold for every schedule of callers, reader and timeouts, whether the reader leaves its
loop or is killed. Each table is characterised, at every moment, by the history of arrivals alone.

**The agent** (`davinci/engine.py`, `planning.py`, `observability.py`, `permissions.py`). `Engine` gives `run` turn by
turn, as functions of whatever the reasoner, the tools and the clock answer. `DavinciAgent` is the same loop as a class
that changes an agent, a plan, a budget and a tracer in place; its methods are proved to compute those functions and
to end. `TurnLaws` says what one step and one turn do and exactly why a run stops. `Replay` proves the trace
faithful, `RunLaws` gives termination, budget bounds and execution safety,
`Lifecycle` the life of each step and the meaning of `success`, and `AgentLife` joins them over any number of runs.
`History` is the normalisation of the conversation a run is given.

**Bounded memories** (`davinci/memory.py`). `Memory` has the rolling window and the compaction, `Sessions` and
`SessionStore` the least-recently-written store of conversations.

**The sandbox tool** (`tools/vercel_sandbox/tool.py`). `SandboxServer` is the remote service, `SandboxSessions` the
session cache with its single retry, `SandboxRuns` whole runs beside everything else that happens to the service, and
`SandboxTool` the tool as a class.

**Smaller algorithms.** `WorkerPlan` and `Orchestrator` (the hierarchical worker plan), `ToolPlan` (the planner over
running tools), `SqlSplit` (the statement splitter, with `TextTools` for `str.strip`) and `LlmFallback` (models and
retries). `Common` holds what several modules share.

## What the proofs found

These are places where the code does less than its names or comments suggest. The code is modelled as it is. Each has
its exact condition, for all inputs, and most a concrete input.

- `_action_stop` returns before it forgets the session when the sandbox no longer exists
  (`SandboxRuns.StopForgetsIff`, `SandboxRuns.StopCanLeaveAnId`). The id left behind does not show in any later reply
  (`SandboxRuns.RunsAreUncachedIff`).
- `_with_session` takes any 404, 409 or 410 as the end of the session. An operation that a *running* session answers
  so, such as reading a file that is not there, is carried out twice. When the two answers differ, so does the result
  (`SandboxSessions.CacheIsInvisibleIff`, `SandboxRuns.RunningSessionIsCalledTwice`).
- `WorkingMemory` keeps its window exactly when `max_items` is at least 2 (`Memory.WindowIsKeptIff`), `replace` bounds a
  conversation exactly when `max_messages` is at least 1 (`Sessions.ReplaceIsBoundedIff`), and `compact_messages` caps
  an item exactly when the cap is at least 2 (`Memory.CapsSizeIff`): in each case the slice `[-0:]` is the whole list.
- Two kinds of frame kill the reader thread, which then wakes nobody: one that fills the count of its message but
  leaves a gap, on which the join raises `KeyError`, and one that hands on a payload which is not text, on which
  `json.loads` raises `UnicodeDecodeError` (`BridgeClient.FrameKillsIff`, `Reassembly.MisnumberedFramesKillTheReader`,
  `BridgeClient.UndecodableAnswerKillsTheReader`, `BridgeClient.CasparBridgeClient.ReadLoop`).
- A call that registers after the reader has left its loop is never woken, and no waiter is when the reader was killed
  (`Correlation.WhoSleepsAfterExit`, `Correlation.LateCallSleeps`). Calls whose send failed, timed-out handshakes and
  invocations that gave up before their wait stay in the tables, and nobody else does (`Correlation.WhoIsLeftBehind`,
  `Correlation.TimedOutHandshakeStays`, `Correlation.UnsignalledInvocationStays`).
- Two worker roles can be given one machine id (`WorkerPlan.MachinesCollideIff`, `WorkerPlan.MachinesCanCollide`).

## Model

| member | source | states |
|---|---|---|
| BigEndian.UnpackPack | davinci/caspar_bridge.py:243-244 | a number that fits its field survives big-endian packing |
| BigEndian.PackUnpack | davinci/caspar_bridge.py:295 | unpacking a field loses nothing: packing again gives the same bytes |
| BigEndian.PackDigit | davinci/caspar_bridge.py:243-244 | the most significant byte comes first: byte i is the i-th base-256 digit |
| Wire.BodyRoundTrip | davinci/caspar_bridge.py:243-296 | the reader recovers every header field and the chunk of a packed frame |
| Wire.ParseBodyRoundTrip | davinci/caspar_bridge.py:295-296 | no two bodies read as the same frame |
| Wire.BodyLayout | davinci/caspar_bridge.py:243-244 | which bytes of a body hold the opcode, the message, the correlation, the chunk number, the chunk count and the chunk |
| Wire.ParseNone | davinci/caspar_bridge.py:276-286 | what ends the stream or is skipped: a zero length is a keep-alive; a length under 25 or over 32 MiB, or a body cut short, ends it |
| Wire.Total | davinci/caspar_bridge.py:239 | one chunk at least, otherwise exactly as many as the payload needs |
| Wire.ChunkIs | davinci/caspar_bridge.py:241-242 | chunk i is the payload from 64 KiB times i on, 64 KiB long but for the last |
| Wire.JoinOfChunks | davinci/caspar_bridge.py:241-305 | the chunks of a payload, joined in order, are the payload |
| Wire.CutIsTransmissible | davinci/caspar_bridge.py:234-283 | every frame that can be packed has 25 to 25 + 64 KiB bytes and passes the receiver's length guard |
| Wire.FrameOnTheWire | davinci/caspar_bridge.py:243-245 | a frame travels as the length of its body in four bytes, then the body |
| Wire.StreamDecodes | davinci/caspar_bridge.py:274-287 | any sequence of frames and zero-length keep-alives decodes to exactly those frames, whatever follows |
| Wire.CutSurvivesTheStream | davinci/caspar_bridge.py:234-287 | what is written for a message reads back as the frames it was cut into |
| Reassembly.FeedIsFaithful | davinci/caspar_bridge.py:294-306 | after any prefix of any interleaving, the messages handed on are exactly the complete ones, once each and as sent, and the partials are exactly the chunks of the incomplete ones |
| Reassembly.Reassembles | davinci/caspar_bridge.py:234-306 | cutting and reassembling undo each other for any set of messages and any order of their frames; nothing is left over |
| Reassembly.StreamDelivers | davinci/caspar_bridge.py:234-306 | the same from the bytes on the socket to the messages handed on |
| Reassembly.DispatchRaisesIff | davinci/caspar_bridge.py:300-305 | exactly which frame makes the join raise: it fills the count and a chunk number is missing |
| Reassembly.MisnumberedFramesKillTheReader | davinci/caspar_bridge.py:300-305 | two frames that do so |
| Matcher.WakeOne | davinci/caspar_bridge.py:290-292 | one round of the wake-up loop |
| Matcher.LookupAfter | davinci/caspar_bridge.py:216-232 | registering, completing, taking and waking touch one id each; a wake-up never replaces an answer |
| BridgeClient.CasparBridgeClient.AllocId | davinci/caspar_bridge.py:210-214 | ids are handed out in order and never twice, and the ids of what was sent stay below the counter |
| BridgeClient.CasparBridgeClient.Register | davinci/caspar_bridge.py:216-220 | adds a waiter whose event is not set |
| BridgeClient.CasparBridgeClient.Take | davinci/caspar_bridge.py:222-225 | removes waiter and result and returns the result, or None |
| BridgeClient.CasparBridgeClient.Complete | davinci/caspar_bridge.py:227-232 | stores an answer and sets the event only for an id that waits |
| BridgeClient.CasparBridgeClient.WakeWaiters | davinci/caspar_bridge.py:288-292 | wakes every waiter present and gives None to those without an answer |
| BridgeClient.CasparBridgeClient.Send | davinci/caspar_bridge.py:234-245 | writes exactly the stream of the message's frames, or nothing when not connected or when a number does not fit; what is on the wire stays exactly what was sent, under ascending ids |
| BridgeClient.CasparBridgeClient.RecvAll | davinci/caspar_bridge.py:247-272 | returns exactly the next n bytes however the socket cuts them; timeouts alone never end it |
| BridgeClient.CasparBridgeClient.OnMessage | davinci/caspar_bridge.py:308-323 | a response, welcome, pong or error stores for its waiter None when it is empty and else its payload, and sets the event; a signal with an object payload goes to the handler; anything else goes nowhere; a payload that cannot be decoded raises out of the reader |
| BridgeClient.CasparBridgeClient.DispatchFrame | davinci/caspar_bridge.py:294-306 | one frame, in place, is one step of reassembly and routing, with both ways it can raise |
| BridgeClient.CasparBridgeClient.NextBody | davinci/caspar_bridge.py:276-286 | takes one length-prefixed frame off the stream, skips a keep-alive, and stops only where the stream has no further frame |
| BridgeClient.CasparBridgeClient.ReadLoop | davinci/caspar_bridge.py:274-292 | for every cutting of the stream, with any timeouts while open, reads exactly the frames of the stream, then wakes every waiter unless a frame killed it, in which case it wakes nobody |
| BridgeClient.FrameKillsIff | davinci/caspar_bridge.py:294-314 | exactly which frame kills the reader: it fills a count but leaves a gap, or hands on a payload that cannot be decoded |
| BridgeClient.UndecodableAnswerKillsTheReader | davinci/caspar_bridge.py:308-314 | an answer of the single byte 0xFF does, if it cannot be decoded, and its waiter is not woken |
| BridgeClient.ReadFramesReassembles | davinci/caspar_bridge.py:274-314 | the reader dies iff reassembly raises or hands on a payload that cannot be decoded; otherwise what it takes in is what reassembly gives |
| BridgeClient.ReadFramesRoutes | davinci/caspar_bridge.py:294-323 | and the tables and signals are what routing those messages gives |
| BridgeClient.RouteAllDelivers | davinci/caspar_bridge.py:308-316 | a waiter ends with the payload of the last response, welcome, pong or error under its own id, None for an empty one; no other message touches it |
| BridgeClient.SignalsInOrder | davinci/caspar_bridge.py:317-323 | the handler is called once for each signal with an object payload, in the order they were handed on |
| Outbox.SentIsTraffic | davinci/caspar_bridge.py:234-245 | the frames of any number of sends are exactly those of distinct messages, none twice |
| Outbox.SentIsDelivered | davinci/caspar_bridge.py:234-306 | the bytes of any number of sends are handed on as exactly the messages sent, each once, with nothing left over |
| BridgeClient.AnswersReachTheirWaiters | davinci/caspar_bridge.py:234-323 | from the peer's messages through bytes, chunks and interleaving: the reader dies iff some payload cannot be decoded; otherwise every waiter is woken and holds the payload of a response, welcome, pong or error sent under its own id, or None when that was empty or there was none |
| Correlation.TablesMirrorHistory | davinci/caspar_bridge.py:154-292 | over every schedule, both tables hold exactly what the history of arrivals calls for |
| Correlation.WhoGetsToWait | davinci/caspar_runtime.py:281-302 | over every schedule: an invocation is unsignalled iff it has hung up and its host call could not be sent or raised, rejected iff the call returned a rejection, and in every other case that has hung up it waits, has been woken, has timed out or has ended |
| Correlation.CallReturnsItsOwnAnswer | davinci/caspar_bridge.py:154-168 | a call returns the last reply under its own id between registration and return, or None when there was none and the reader's orderly exit woke it |
| Correlation.InvocationGetsItsOwnResult | davinci/caspar_runtime.py:242-302 | a delivered invocation returns the last result signalled under its own correlation id, never another's; and its host call had returned no rejection |
| Correlation.LastSinceArrived | davinci/caspar_runtime.py:230-240 | that value did arrive under that id after the registration |
| Correlation.WhoIsLeftBehind | davinci/caspar_runtime.py:281-298 | exactly which ids are in the tables; an event is set iff its id has a result; results only for pending ids |
| Correlation.WhoSleepsAfterExit | davinci/caspar_bridge.py:274-292 | once the reader no longer runs, a waiter sleeps on iff no reply had come and the reader was killed or had left its loop before the waiter registered |
| Correlation.LateCallSleeps | davinci/caspar_bridge.py:288-292 | a schedule with such a late call |
| Correlation.TimedOutHandshakeStays | davinci/caspar_bridge.py:110-116 | a schedule after which a timed-out handshake is still in the table |
| Correlation.UnsignalledInvocationStays | davinci/caspar_runtime.py:281-287 | a schedule after which an invocation that could not be signalled is still in the table, and its host call too |
| Correlation.StrayArrivalsChangeNothing | davinci/caspar_bridge.py:227-232 | a reply nobody waits for, such as one to a timed-out call, changes neither table |
| Correlation.NoReplyIsLost | davinci/caspar_bridge.py:154-168 | once a reply has arrived for a registered call, even before its send returns, then over every continuation the call never times out: while it waits it can wake and cannot expire, and it returns that reply or a newer one of its own |
| Correlation.NoResultIsLost | davinci/caspar_runtime.py:281-302 | the same for a result signalled to an invocation between posting its waiter and its wait: it is returned, or a newer one, unless the host call could not be sent, raised or returned a rejection |
| Correlation.SentIsAnswered | davinci/caspar_bridge.py:154-168 | after any schedule a call that has been sent, and whose reply then comes, returns that reply and leaves the table |
| Correlation.CallIsAnswered | davinci/caspar_bridge.py:154-168 | a host call from its first id to its reply, step by step |
| Correlation.AcknowledgedIsDelivered | davinci/caspar_runtime.py:284-302 | after any schedule an invocation whose host call returned no rejection, and whose result then comes, returns that result and leaves the table |
| Correlation.InvocationIsDelivered | davinci/caspar_runtime.py:281-302 | one invocation from posting to its result, acknowledgement included, step by step |
| Correlation.SentMayTimeOut | davinci/caspar_bridge.py:160-168 | after any schedule a sent host call without a reply can time out, and leaves nothing behind |
| Correlation.WaitingMayGiveUp | davinci/caspar_runtime.py:295-301 | after any schedule a waiting invocation without a result can time out, and leaves nothing behind |
| Correlation.ReaderMayGo | davinci/caspar_bridge.py:274-292 | after any schedule a reader that is killed wakes nobody, and one that leaves its loop wakes every waiter and takes away no answer |
| Correlation.IdsAreFresh | davinci/caspar_bridge.py:210-214 | no id is given out twice, to calls or to messages; every call has one that was given out, and the next is new |
| ToolExecutor.BridgeCreatureExecutor.HandleSignal | davinci/caspar_runtime.py:230-240 | only a tools/result signal with a waiting id completes anything |
| ToolExecutor.BridgeCreatureExecutor.Post | davinci/caspar_runtime.py:281-283 | registers the invocation's waiter |
| ToolExecutor.BridgeCreatureExecutor.Reap | davinci/caspar_runtime.py:296-302 | leaves neither waiter nor result, delivered or timed out, and returns its own result |
| ToolExecutor.HandleAllDelivers | davinci/caspar_runtime.py:230-240 | an invocation ends with the last result signalled under its own id; no other signal touches it |
| ToolExecutor.ResultsReachTheirInvocations | davinci/caspar_runtime.py:230-240 | from the peer's bytes to the invocation: it is woken with the result of a signal under its own id, or waits on when there was none |
| Permissions.CheckMeans | davinci/permissions.py:106-147 | denied iff a guardrail objects or a deny rule matches, in any mode; else allowed iff listed or within the mode's unattended risk |
| Permissions.ObjectionIsNamed | davinci/permissions.py:109-113 | a denial by guardrail gives the first objecting guardrail's text |
| Permissions.RuleIsNamed | davinci/permissions.py:115-123 | a decision by rule names the first matching rule: an allow rule only when nothing forbids, a deny rule only when no guardrail objects |
| Permissions.TighteningOnlyDenies | davinci/permissions.py:99-126 | one more guardrail and one more deny rule can only turn a decision into a denial |
| Permissions.ValidateResultMeans | davinci/permissions.py:149-155 | a result passes iff no output guardrail objects |
| Planning.NextPending | davinci/planning.py:57-61 | the first pending step |
| Planning.AddAllAppends | davinci/planning.py:51-54 | added steps come last, numbered on from the counter, pending; nothing else changes |
| Planning.ReplanKeepsNumbers | davinci/planning.py:92-99 | replanning supersedes exactly the failed steps, appends the new ones, counts one revision and keeps ids at position + 1 |
| PlanObject.Plan.AddStep | davinci/planning.py:51-54 | appends one pending step with the next id |
| PlanObject.Plan.NextPending | davinci/planning.py:57-61 | returns the first pending step, or None |
| PlanObject.Plan.Mark | davinci/planning.py:82-90 | sets status and result of the one step with this id; an unknown id changes nothing |
| PlanObject.Plan.StartAttempt | davinci/planning.py:79-80 | puts the one step in progress and counts the attempt |
| PlanObject.Plan.ReplanFailed | davinci/planning.py:92-99 | the replan, in place |
| Observability.ExceededMeans | davinci/observability.py:111-121 | no limit is reported iff none is used up; the one reported is used up and none before it is |
| Observability.ExceededStays | davinci/observability.py:94-121 | a limit once reached stays reached |
| Observability.Tracer.Emit | davinci/observability.py:174-194 | appends one event with the next sequence number |
| DavinciAgent.Agent.Record | davinci/engine.py:433-435 | every event goes to the trace and, the same, to the episodic log |
| DavinciAgent.Agent.Execute | davinci/engine.py:375-399 | the executor call and each of its four outcomes |
| DavinciAgent.GatedMeans | davinci/engine.py:352-378 | the executor is called, and a tool call charged, iff the action was proposed few enough times and the policy allows it; the proposal is counted in any case |
| DavinciAgent.JudgedMeans | davinci/engine.py:360-378 | a decision leads to one executor call, one review, or neither; a denied step has failed, one under review is done |
| TurnLaws.ThoughtMeans | davinci/engine.py:321-346 | a step without a tool is done; its answer is remembered as the assistant's, and is the run's iff no step is left pending |
| TurnLaws.HeldBackMeans | davinci/engine.py:347-373 | a step whose action was proposed too often or is forbidden fails, and one that is not cleared is put under review; nothing runs, and the proposal is counted |
| TurnLaws.CalledMeans | davinci/engine.py:375-399 | otherwise the action put together from the tool's descriptor and the proposed arguments is executed and charged; the step is done iff the call succeeded and no output guardrail objects, and then the output is remembered and charged a token per four characters, at least one |
| DavinciAgent.Agent.RunStep | davinci/engine.py:321-399 | the step, in place, is the step's effect applied to the agent |
| DavinciAgent.Agent.Turn | davinci/engine.py:271-293 | one round of the loop, in place, is one turn of the engine; it stops iff a limit is used up, the last pending step was answered directly, or nothing is pending and the reflection is satisfied, no replan is left or no title came |
| DavinciAgent.Agent.Reflect | davinci/engine.py:278-287 | the exhausted plan: stop, or replan and count it |
| DavinciAgent.Agent.Loop | davinci/engine.py:271-293 | the loop always ends, after the first turn of the engine that stops |
| DavinciAgent.Agent.Run | davinci/engine.py:222-318 | a whole run, in place, is begin, turns until stopped, end; with a step still pending it ends only for a limit used up, and otherwise for a limit, a delivered answer or a reflection that settles it; and an agent that has executed only what its policy allows, with a faithful and gap-free trace, stays so |
| DavinciAgent.Agent.Finish | davinci/engine.py:295-309 | success and the final answer |
| DavinciAgent.InPlaceIsRunStep | davinci/engine.py:321-399 | the step told in execution order equals the step told as one effect |
| Engine.TurnsKeep | davinci/engine.py:271-293 | what one turn keeps for every answer of the outside, every run keeps |
| TurnLaws.TurnStopsIff | davinci/engine.py:271-293 | exactly when a turn ends the run: a limit is used up, the last pending step was answered directly, or nothing was pending and the reflection settles it |
| TurnLaws.SpentTurnMeans | davinci/engine.py:272-275 | with a limit used up a turn only records the first such limit |
| TurnLaws.StepTurnMeans | davinci/engine.py:277-293 | otherwise, with a step pending, a turn attempts the first pending step and no other, and a non-empty answer replaces the last one |
| TurnLaws.ReflectTurnMeans | davinci/engine.py:278-287 | otherwise it reflects: it stops, or skips the failed steps, appends one pending step per title and uses up one replan |
| TurnLaws.RunStopsForAReason | davinci/engine.py:271-293 | for every outside and any number of turns, a stopped run stopped in one of its turns: with a step pending because a limit, the first one used up, was reached; else for a limit, a delivered answer, or a reflection that was satisfied, out of replans or without titles |
| TurnLaws.BeginMeans | davinci/engine.py:232-269 | a run starts with the planner's steps, pending and numbered from one, without answer or reviews, and with the conversation after all that was remembered before; marks, usage and executions carry on |
| TurnLaws.EndMeans | davinci/engine.py:295-309 | the answer is the delivered one unless blank, else the synthesis, else the last answer, else the summary, the first that is not empty; a synthesis that raises is recorded |
| Replay.StepEventsTell | davinci/engine.py:321-399 | the events of a step tell its final status and whether a tool was called |
| Replay.TraceIsFaithful | davinci/engine.py:260-309 | after every turn, folding the events alone gives every step's status, the steps used and the tool calls used |
| Replay.EndTells | davinci/engine.py:295-309 | and still after the run has ended |
| Replay.JournalStaysGapFree | davinci/observability.py:174-194 | events are only appended, numbered without a gap, and the episodic log is the same list |
| RunLaws.TurnMakesProgress | davinci/engine.py:271-293 | a turn that does not stop uses up a replan or a pending step |
| RunLaws.EveryRunStops | davinci/engine.py:271-293 | every run stops, for every reasoner and executor, even if no limit trips |
| RunLaws.TurnCharges | davinci/engine.py:272-289 | a turn charges at most one step, and a tool call only with a step |
| RunLaws.BudgetBounds | davinci/observability.py:111-121 | steps and tool calls end at most at the larger of their start and their limit; calls never grow faster than steps |
| RunLaws.EffectIsGuarded | davinci/engine.py:347-399 | a step executes only an allowed action within its attempts, and remembers as a tool result only a guarded output of that execution |
| RunLaws.ConversationPicks | davinci/engine.py:243-247 | what is remembered of a history is the role and text of each message that has text, in order |
| RunLaws.ConversationIsHonest | davinci/engine.py:243-247 | no normalised history can pass a turn off as a tool result |
| RunLaws.AgentStaysSafe | davinci/engine.py:222-399 | over any number of runs with normalised conversations: only allowed actions executed, no fingerprint more than max_step_attempts times, only guarded outputs remembered as tool results |
| RunLaws.NothingForbiddenIsExecuted | davinci/permissions.py:106-126 | nothing a deny rule or input guardrail forbids is ever executed, in any mode |
| Lifecycle.RunKeepsChronicle | davinci/engine.py:267-399 | at every loop head: ids are positions, nothing in progress, each step attempted at most once and failed iff an event says so, replans used and left add up, reviews and executions match the decisions one to one |
| Lifecycle.ReviewedIsNeverExecuted | davinci/engine.py:367-378 | no step under review ever reached the executor |
| Lifecycle.SuccessMeans | davinci/engine.py:295 | success iff the plan is not empty, every step is done or was failed and superseded, and no limit is reached |
| Lifecycle.TurnMovesStatuses | davinci/planning.py:79-99 | from loop head to loop head a step moves only from pending to done or failed, or from failed to skipped |
| AgentLife.RunsAreTold | davinci/engine.py:222-318 | the trace stays faithful over any number of runs of one agent |
| AgentLife.LifeOfAnAgent | davinci/engine.py:222-318 | a new agent is safe, gap-free and fully accounted for after any number of runs |
| History.NormalizeHistory | davinci/engine.py:48-93 | the loop over the messages collects the clean form of each that has one |
| History.NormalizedPicks | davinci/engine.py:56-93 | the result holds, in order, one message for each given object with some text |
| History.SpeakerMeans | davinci/engine.py:41-61 | the role is the assistant for assistant, agent, ai and bot, the system for system and developer, in any case of letters, and the user for all else; it is read from the first of role, from, sender that has something |
| History.ContentMeans | davinci/engine.py:62-68 | the text is content, or when that is missing the first of text, message, answer, without outer white space; a message is dropped iff nothing is left |
| History.NamesMean | davinci/engine.py:70-91 | the name is the first of agentName, agent, name, the sender is from, both only as strings with some text; whether the message was directed at this agent |
| History.AddresseesMean | davinci/engine.py:79-89 | the addressees are the objects with a name in the list under to, in order, a user only where the kind says so |
| History.ReadIsClean | davinci/engine.py:59-92 | whatever JSON value it is read from, a kept turn has one of three roles and trimmed, non-blank texts |
| History.WrittenTurnIsRead | davinci/engine.py:59-92 | reading a clean turn that was written gives it back |
| History.NormalizingIsIdempotent | davinci/caspar_runtime.py:621 | normalising twice is normalising once, for every list of JSON-like values |
| Memory.IncrementalIsBatch | davinci/memory.py:39-43 | remembering one by one keeps the first item and the most recent window of the whole history |
| Memory.WindowShows | davinci/memory.py:39-43 | what is remembered starts with the first item ever, and the rest are the most recent ones, max_items in all |
| Memory.WindowIsKeptIff | davinci/memory.py:39-43 | it does so, within its bound, iff max_items is at least 2 |
| Memory.CompactMessages | davinci/memory.py:234-252 | caps every item and keeps the window; what it returns for max_items below 2 as well |
| Memory.CapMessageMeans | davinci/memory.py:243-249 | an item keeps its role, "?" when it has none, and its own text, unchanged within the cap |
| Memory.MarkerReads | davinci/memory.py:247-248 | the marker gives the number of characters over the cap, in decimal |
| Memory.CompactingTheWindowIsCompactingTheHistory | davinci/memory.py:234-252 | compacting the rolling window gives what compacting the full history gives |
| Memory.CapsSizeIff | davinci/memory.py:246-248 | an item is cut to its cap plus the marker iff the cap is at least 2 |
| Memory.CapKeepsBothEnds | davinci/memory.py:246-248 | a trimmed text begins and ends as the original |
| Memory.WorkingMemory.Remember | davinci/memory.py:39-43 | the items are always what remembering the whole history in order gives |
| Sessions.OrderFits | davinci/memory.py:189-227 | after any run, clears included, the sessions in the store are exactly those kept, and behind each stand exactly the others written since and not cleared |
| Sessions.StoreMeans | davinci/memory.py:189-227 | for any bounds: a session is stored iff it has not been cleared since its last write and at no moment since had max_sessions others come behind it; it shows the last max_messages since its last replacement or re-entry, and what it shows when max_messages is zero or less |
| Sessions.AppendMeans | davinci/memory.py:201-212 | an append of blank text changes nothing; any other leaves the session with the given role, the given content without outer white space and the name, None iff it is empty, as its last message, after what it showed, bounded |
| Sessions.ReplaceMeans | davinci/memory.py:214-224 | a replace leaves the last max_messages of exactly those given messages that have some text, in order and unchanged |
| Sessions.KeptWithoutClears | davinci/memory.py:189-224 | without clears: a session is kept iff it was written and fewer than max_sessions others were written since |
| Sessions.SmallerIsWithinLarger | davinci/memory.py:189-227 | of two stores fed the same operations, clears included, the smaller one's order and messages are suffixes of the larger one's |
| Sessions.ReplaceIsBoundedIff | davinci/memory.py:222 | replace bounds a history iff max_messages is at least 1 |
| SessionStore.SessionMemory.Append | davinci/memory.py:201-212 | append, in place: blank text changes nothing, any other text becomes the last message with its role, content and name |
| SessionStore.SessionMemory.Replace | davinci/memory.py:214-224 | replace, in place: the last of the given messages that have some text, in order and unchanged |
| SessionStore.SessionMemory.MessagesOf | davinci/memory.py:198-199 | the stored messages, or none, with nothing moved |
| SessionStore.SessionMemory.Clear | davinci/memory.py:226-227 | clear, in place |
| SessionStore.SessionMemory.EvictOldest | davinci/memory.py:194-195 | leaves exactly the youngest max_sessions |
| SandboxSessions.ResolvedIsLive | tools/vercel_sandbox/tool.py:214-225 | while the service answers, resolving ends with a running session of that very sandbox |
| SandboxSessions.LiveIsResolved | tools/vercel_sandbox/tool.py:214-225 | while the service answers, resolving a running sandbox returns its session and changes nothing |
| SandboxSessions.CreateProvides | tools/vercel_sandbox/tool.py:190-204 | while the service answers, creating leaves the named sandbox running in a session of its own, which the reply tells: a running one unchanged, a stopped one resumed with its files, a missing one created empty; adopted iff it was there |
| SandboxSessions.ResumeProvides | tools/vercel_sandbox/tool.py:503-512 | so does resuming, and a missing sandbox is created on the way |
| SandboxSessions.SessionIsRemembered | tools/vercel_sandbox/tool.py:210-225 | a resolved session is used until its time is up without asking the service, and then resolved anew; what cannot be resolved is not remembered |
| SandboxSessions.SessionIsIssued | tools/vercel_sandbox/tool.py:207-225 | a session id, cached or resolved, was opened for that sandbox, and the cache stays so |
| SandboxSessions.CacheIsInvisibleIff | tools/vercel_sandbox/tool.py:232-246 | whatever is cached and whatever happens before the first call, reply and service are those of resolving anew and calling once, iff the session was dead or its "gone" answers repeat |
| SandboxSessions.CalledAtMostTwice | tools/vercel_sandbox/tool.py:239-246 | at most two calls, the second only after a 404, 409 or 410 and with a session id just resolved and running |
| SandboxRuns.RunsAreUncachedIff | tools/vercel_sandbox/tool.py:207-553 | over every run beside any outside changes, outages included: at every point all replies and the service are those of a tool without a cache, iff each step so far met its condition: while the service answers, a running session's "gone" repeats; during an outage, a cached running session does nothing that shows |
| SandboxRuns.OperationRuns | tools/vercel_sandbox/tool.py:232-246 | the reply and the changed files are those of the operation in the first session when it runs and does not answer "gone", and else of the operation in the running session then resolved |
| SandboxRuns.ProvisionServes | tools/vercel_sandbox/tool.py:486-512 | after create and after start the named sandbox runs in the session the reply tells, nothing is cached for it, and no other sandbox is touched; if it ran already the service is unchanged |
| SandboxRuns.StopMeans | tools/vercel_sandbox/tool.py:515-538 | stop shuts a running sandbox down with its files, and finds any other stopped already |
| SandboxRuns.DeleteMeans | tools/vercel_sandbox/tool.py:541-553 | delete removes the sandbox and nothing else, and says whether there was one |
| SandboxRuns.OutageMeans | tools/vercel_sandbox/tool.py:486-553 | while the service is down every action fails with its status and changes nothing, except that stop and delete take 404 and 410 for an absent sandbox |
| SandboxRuns.RunningSessionIsCalledTwice | tools/vercel_sandbox/tool.py:239-246 | an operation that a running session answers with 404 after writing a file gives a different result than without a cache |
| SandboxRuns.UseTouchesOne | tools/vercel_sandbox/tool.py:232-246 | an operation on one space never reaches another space's sandbox, whatever is cached |
| SandboxRuns.FilesSurvive | tools/vercel_sandbox/tool.py:486-538 | creating, starting and stopping keep every sandbox's files |
| SandboxRuns.DeleteForgets | tools/vercel_sandbox/tool.py:541-553 | after a delete nothing is cached for the name, however the service answered |
| SandboxRuns.StopForgetsIff | tools/vercel_sandbox/tool.py:515-538 | while the service answers, a stop completes and leaves nothing running, and leaves a cached id iff there was one and the sandbox no longer exists |
| SandboxRuns.StopCanLeaveAnId | tools/vercel_sandbox/tool.py:520-525 | a run that ends so |
| SandboxTool.Tool.CreateOrAdopt | tools/vercel_sandbox/tool.py:190-204 | while the service answers, a name that exists already is adopted and resumed, and a new one created; either way the reply tells a running session of that sandbox |
| SandboxTool.Tool.Session | tools/vercel_sandbox/tool.py:207-225 | the lookup, resolution and caching, in place |
| SandboxTool.Tool.WithSession | tools/vercel_sandbox/tool.py:232-246 | the call and its one retry, in place, over a service that changes as it is asked |
| SandboxTool.Tool.Create | tools/vercel_sandbox/tool.py:486-488 | the create action: the session is forgotten, and while the service answers the named sandbox then runs in the session the reply tells |
| SandboxTool.Tool.Start | tools/vercel_sandbox/tool.py:503-512 | the start action: likewise |
| SandboxTool.Tool.Stop | tools/vercel_sandbox/tool.py:515-538 | the stop action with its five exits; while the service answers it says whether the sandbox ran |
| SandboxTool.Tool.Delete | tools/vercel_sandbox/tool.py:541-553 | the delete action; while the service answers the sandbox is gone, and the reply says whether there was one |
| WorkerPlan.PickMeans | caspar_orchestrator.py:312 | the first registered template that covers the category, or none when none does |
| WorkerPlan.LaunchedMeans | caspar_orchestrator.py:309-318 | exactly the needed templates are launched, each once |
| WorkerPlan.LaunchedRolesAreDistinct | caspar_orchestrator.py:316-318 | no role is launched twice |
| WorkerPlan.PlanIsBracketed | caspar_orchestrator.py:309-374 | each role's part of the plan is nothing, or one launch, one signal per category it serves in order, one cleanup |
| WorkerPlan.BracketsAre | caspar_orchestrator.py:309-374 | action by action, with the worker id role-task and the machine id vm-role-task, and one signal for exactly the categories whose first covering template this is |
| WorkerPlan.PlanGrowsInOrder | caspar_orchestrator.py:311-358 | what the first categories call for comes first, and so does what they launch |
| WorkerPlan.CleanupsComeLast | caspar_orchestrator.py:360-374 | after all else, one cleanup per launched role in the order of the launches |
| WorkerPlan.MissingPicks | caspar_orchestrator.py:311-315 | the missing categories are those no template covers, in order and with repeats |
| WorkerPlan.PlanSizeAndReview | caspar_orchestrator.py:303-386 | one action per covered category plus two per role; review iff a category is uncovered or served by a high-risk template |
| WorkerPlan.WorkerIdIsOwn | caspar_orchestrator.py:238 | worker ids determine roles |
| WorkerPlan.MachinesCollideIff | caspar_orchestrator.py:239 | when two roles get one machine id |
| WorkerPlan.MachinesCanCollide | caspar_orchestrator.py:239 | two roles that do |
| Orchestrator.RegisteredMeans | caspar_orchestrator.py:230-231 | registering replaces the template of that role and no other |
| Orchestrator.RegisteredKeepsPlace | caspar_orchestrator.py:230-231 | a role registered before keeps its place in the order, and a new one goes last |
| Orchestrator.EnrolledMeans | caspar_orchestrator.py:236-268 | planning starts one machine and enrols one worker per launched role, under the ids vm-role-task and role-task, and leaves every other worker alone |
| Orchestrator.MasterWorkerOrchestrator.LaunchWorker | caspar_orchestrator.py:236-268 | starts and enrols the worker, or changes nothing for an unknown role |
| Orchestrator.MasterWorkerOrchestrator.TerminateWorker | caspar_orchestrator.py:299-301 | removes the worker and ends its machine, or changes nothing for an unknown id |
| Orchestrator.MasterWorkerOrchestrator.PlanHierarchicalExecution | caspar_orchestrator.py:303-386 | the loops compute the plan, start its machines and enrol its workers |
| ToolPlan.Index | caspar_orchestrator.py:577-580 | every category's list holds its tools in registration order |
| ToolPlan.OptionsMean | caspar_orchestrator.py:577-580 | a category's list holds exactly the tools that name it |
| ToolPlan.OptionsGrowInOrder | caspar_orchestrator.py:577-580 | tools registered earlier come earlier |
| ToolPlan.LeastMeans | caspar_orchestrator.py:592 | the head of the stable sort: nothing precedes it, and it precedes all registered before it |
| ToolPlan.RisksAreRanked | caspar_orchestrator.py:639-640 | low ranks before medium, medium before high, and any other level after them |
| ToolPlan.BeforeMeans | caspar_orchestrator.py:592 | ids compare as texts do: by their first difference, a prefix before what it begins |
| ToolPlan.MakePlan | caspar_orchestrator.py:576-636 | one signal or one missing entry per category; review iff something is missing, a tool is high risk or tolerance is low |
| ToolPlan.SignalsAreLeastRisky | caspar_orchestrator.py:586-592 | one signal per required category that some tool covers, in order: to a tool for it than which none is less risky, or as risky with a lesser id, asking for the function the tool names for the category or else for "invoke"; the other categories are missing, in order |
| SqlSplit.Scan | tools/sql_query/tool.py:48-57 | cuts at exactly the semicolons outside strings: the pieces join to the input, all but the last have balanced quotes, and every semicolon left is quoted |
| SqlSplit.SplitIsUnique | tools/sql_query/tool.py:48-57 | no other list of pieces does that |
| SqlSplit.SplitStatements | tools/sql_query/tool.py:44-58 | the statements are the stripped, non-blank pieces, or the given list's |
| SqlSplit.KeptPicks | tools/sql_query/tool.py:58 | exactly the pieces with some text are statements, in order, each without its outer white space |
| SqlSplit.SplittingTheJoinGivesTheSame | tools/sql_query/tool.py:44-58 | joining the statements with semicolons and splitting again gives the same statements |
| SqlSplit.StatementsAreUnique | tools/sql_query/tool.py:44-58 | an input has one list of statements, and that list is left alone |
| TextTools.StripTrims | tools/sql_query/tool.py:58 | stripping removes white space only, from the ends only, and all of it |
| LlmFallback.LLMClient.TryModel | davinci/llm.py:127-154 | posts exactly the attempts reached through failures that may clear, and gives a text iff one of them answers |
| LlmFallback.LLMClient.Generate | davinci/llm.py:111-155 | a text iff some model would answer; then that of the earliest such model, which becomes active; the posts are exactly the attempts reached up to it, model by model and attempt by attempt, at most models times retries |
| LlmFallback.NothingFollowsAFinalReply | davinci/llm.py:131-147 | a final or empty reply costs its model no further attempt |

## Left out

- Threads are modelled as atomic steps: each critical section and each return from a wait is one step of `Correlation`. The connection between that machine and the classes is that both change their tables by the functions of `Matcher`.
- Sockets, TLS, HTTP, Docker, files and environment variables. A socket is a byte sequence with arbitrary cuts and timeouts, the sandbox service a state machine, a POST to a model an arbitrary outcome.
- JSON text, UTF-8 and SHA-1: payloads are byte sequences, an empty one decoding to None; which of the others can be decoded, and which are objects, is arbitrary, and so are fingerprints, glob matches, validators and the rendering of non-string values.
- A `sendall` that fails half-way through a message: a send in `BridgeClient` either writes all frames or, for the reasons the code checks, none. In `Correlation` it may fail at any time.
- Correlation ids made by `uuid4` are assumed not to repeat.
- Secret masking is the identity on step ids, kinds, outcomes and `ok` flags, which are all that `Replay` reads.
- Wall-clock time is an arbitrary input to the budget, to the cache's time to live and to nothing else.
- Step objects are values in a sequence, found by id; nothing else in the code holds on to one across a turn.
- An exception from the reasoner's `propose` or `reflect`, or an unknown risk string in a tool descriptor, which would leave `run`.
- Attachments, facts, instructions and the text of messages in the trace, which no modelled decision reads.
- `Planner._heuristic_plan`: runs start from an arbitrary list of steps, of which its list is one.
- `davinci/reasoner.py` and `HeuristicReasoner`: what a reasoner says is arbitrary in every turn.
- Session histories whose content is not a string, and keys other than role, content and agentName.
- `SessionMemory` with a negative `max_sessions`, for which the eviction loop would end in an exception.
- Lower-casing beyond ASCII in role names, and `str.lower` in `task_id`, whose result is the input of `WorkerPlan.TaskId`.
- The `info` and `list` actions, payload checks and the output of commands in the sandbox tool; a space is its sandbox name.
- `auto_create=False` of `_session`, which nothing uses.
- `assign_task`, `execute_plan`, the environment and images of worker templates, and the JSON inside a signal.
- The executor's checks for an unknown tool or a missing target, which return before any table is touched.
- The waits between retries and the events emitted by `LLMClient`, and provider request formats.
- `read_only`, parameters and result rows of the SQL tool.
- RSA signing, the connector tools, `python_exec`, `vector_search`, `sandbox_core`, `mcp`, `agentic_runtime`, `cli` and the deploy scripts.
