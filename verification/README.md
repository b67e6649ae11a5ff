# Verification model of the agentic gateway

A Dafny model of the parts of the gateway in which many things must agree: the tool scheduler and the agent
loop, the key cache of the OIDC authenticator, the two shutdown protocols, the context estimate with automatic
compaction, the normalization and validation of streaming events, and the redaction of URLs. Concurrency is
modelled as state machines whose steps are the accesses between two awaits; results quantify over every run.

| file | subject |
|---|---|
| `Basics.dfy`, `Json.dfy`, `Items.dfy` | sums and filters; JSON values; conversation items and their conversions |
| `Scheduler.dfy` | permits, budget and join of concurrent gateway calls |
| `GatewayRound.dfy`, `RoundEvents.dfy` | planning, execution and public output of one round; its events and their merge |
| `AgentLoop.dfy`, `LoopHistories.dfy`, `LoopRuns.dfy` | the loop over rounds; the invariant of its histories; theorems about whole runs |
| `RoundContents.dfy`, `RunContents.dfy`, `RunResults.dfy` | what a round and a run come to, told from items and handlers' replies alone: texts, public output, events, budget |
| `RunUsage.dfy`, `Replay.dfy` | the usage a run reports; what the model is given back of its own items |
| `TokenEstimate.dfy`, `EstimateFields.dfy`, `Compaction.dfy` | the token estimate; which texts it counts; compaction of the two histories |
| `Jwks.dfy`, `JwksRefresh.dfy` | lifetime, compilation and decisions of the key cache; the refresh protocol and the lookup that follows it |
| `Sockets.dfy`, `Supervisor.dfy` | draining WebSockets; terminating child processes |
| `ResponseStream.dfy` | the stream around a spawned run |
| `Events.dfy` | lenient extraction against strict validation |
| `Redaction.dfy` | redaction of credentials in diagnostics |

Components outside these files enter as contracts: every tool name has one owner that follows from its type, a
handler answers under the call id it was given, and the fetches, summaries, handler outputs, clock readings and
fresh ids of a run are its inputs.

Where the code does something other than its name or comments suggest, the model follows the code:

- `redact_urls` computes the start of a scheme as the byte after the preceding character. If that character takes
  more than one byte, slicing there panics. `PanicsExactly` gives the condition, `AccentBeforeUrlPanics` an input,
  and `RedactionIsIdempotent` covers every other text.
- `set_output_index` does not reach the payload of a shell command, which keeps the extracted index, zero where
  there was none (`ResolvedIndexIsShown`, `ShellCommandKeepsZero`).
- A session that records every round itself records a client's custom or shell call under a gateway tool's name as a
  call of that tool, which nobody answers (`NoDanglingCallOnReturn`, `ImpostorStaysUnanswered`).
- `maybe_compact_context` has already emptied the model's input when summarizing fails.
- A round that ends in a failed or errored response returns before its held-back frames are emitted, and before
  its items are recorded. So every held-back frame reaches the client if and only if the last round did not fail or
  held nothing back (`HeldFramesAreSentUnlessFailed`, `FailedRoundDropsFrame`).
- `start` lets the error escape when the operating system refuses its signal; that child is then left without SIGTERM
  if no `terminate_all` works through the list as far as its position (`NoChildEscapesShutdown`, `RefusedStartEscapes`).

## Model

| member | source | states |
|---|---|---|
| `GatewayScheduler.UnfinishedCallsCanMove` | crates/agentic-server-core/src/executor/gateway.rs:296-318 | No deadlock: while a call of any batch, or an MCP discovery, is unfinished, some call can move without a cancellation, in every state with conserved permits and fitting stages, so in every reachable one |
| `GatewayScheduler.QueuedCallCanMove` | crates/agentic-server-core/src/executor/gateway.rs:296-303 | When nobody is past the queue, every permit is free and a queued call can move |
| `GatewayScheduler.SchedulerTerminates` | crates/agentic-server-core/src/executor/gateway.rs:247-338 | Every run has at most a number of steps fixed by the calls, and a run that can go no further has finished every call |
| `GatewayScheduler.RunsAreBounded` | crates/agentic-server-core/src/executor/gateway.rs:270-338 | No run is longer than the sum of the stages its calls have left |
| `GatewayScheduler.StepLowersRank` | crates/agentic-server-core/src/executor/gateway.rs:270-338 | Every step lowers the sum of the remaining stages |
| `GatewayScheduler.PermitsConservedInEveryRun` | crates/agentic-server-core/src/executor/gateway.rs:247-318 | Permits held and permits free add up to the same number, for each tool, each batch and the shared pool, at every point of every interleaving, cancellation included |
| `GatewayScheduler.ResourceLimitsHold` | crates/agentic-server-core/src/executor/gateway.rs:28-59 | At most one running call per non-parallel tool, at most the configured number of slot holders per batch, and at most 16 materializations over all batches |
| `GatewayScheduler.StagesFitInEveryRun` | crates/agentic-server-core/src/executor/gateway.rs:277-303 | A call is only ever at a point its kind can reach; a call without a handler takes no permit |
| `GatewayScheduler.BudgetAccountedInEveryRun` | crates/agentic-server-core/src/executor/gateway.rs:330-331 | What has been charged and what is left of a batch's budget add up to what it began with, and every settled outcome is explained by its size, the cap and the budget |
| `GatewayScheduler.JoinIsFirstFailure` | crates/agentic-server-core/src/executor/gateway.rs:251-260 | The joined result is every result in item order, or the error of the failing call with the lowest index |
| `GatewayScheduler.ExpectedResultsIncrease` | crates/agentic-server-core/src/executor/gateway.rs:251-266 | Results come in strictly increasing item order |
| `GatewayScheduler.BatchOutcome` | crates/agentic-server-core/src/executor/gateway.rs:247-268 | In every schedule that finishes the batch, it succeeds exactly when every call is within its own cap and the sizes fit the budget; results, order and remaining budget do not depend on the schedule |
| `GatewayScheduler.ScheduleDoesNotMatter` | crates/agentic-server-core/src/executor/gateway.rs:247-268 | Two schedules of the same calls agree on success, and on the value unless a call fails on its own account |
| `GatewayScheduler.FailureOverrunsBudget` | crates/agentic-server-core/src/executor/response_budget.rs:20-31 | A call that finds too little left proves that the batch as a whole asks for more than the budget |
| `GatewayRound.PlansAreGatewayCalls` | crates/agentic-server-core/src/executor/gateway.rs:148-189 | The planned calls are exactly the gateway-owned function calls among the output items, in item order, each with its 32-bit public index |
| `GatewayRound.CallIndexForItem` | crates/agentic-server-core/src/executor/gateway.rs:215-219 | The binary search finds the plan of an item exactly when the item has one |
| `GatewayScheduler.OwnCallsDecide` | crates/agentic-server-core/src/executor/gateway.rs:247-268 | Success, results and remaining budget of a batch are decided by its own calls in order, not by what else is scheduled |
| `GatewayRound.EveryScheduleExecutesTheBatch` | crates/agentic-server-core/src/executor/gateway.rs:247-268 | Whatever other batches and discoveries compete for permits, every schedule that finishes the batch of a round comes to the same results, call by call and in order, and the same remaining budget, or fails |
| `RoundContents.BatchOfCalls` | crates/agentic-server-core/src/executor/gateway.rs:270-338 | The batch of a round succeeds exactly when no handler fails outright, no text is too long and all fit the budget; it costs those texts, and each call gets its own: the handler's output, an error object, or that there is no handler |
| `GatewayRound.ShownInPlace` | crates/agentic-server-core/src/executor/gateway.rs:362-389 | What a handler shows for a call stands in the public output exactly where the call stood, and public output has one item per output item |
| `RoundContents.ItemsAreShown` | crates/agentic-server-core/src/executor/gateway.rs:362-389 | Every item of a round stands in its place in the public output: unchanged if it is the model's own, in the client's form for its custom and shell tools, or as the call's handler shows it; there is no output exactly when a client's shell call cannot be read |
| `RoundContents.StartIsAnnounced` | crates/agentic-server-core/src/executor/gateway.rs:457-545 | A call is announced by its added item and the progress of its kind, in order |
| `RoundContents.CompletionIsConcluded` | crates/agentic-server-core/src/executor/gateway.rs:546-611 | A web search, MCP call, MCP listing, shell call or compaction is concluded by the completed or failed event of its kind, if it has one, and then its done event |
| `RoundEvents.MergeRoundEvents` | crates/agentic-server-core/src/executor/engine.rs:377-450 | The bucketing and merging loop emits the specified sequence of starts, completions and held-back frames |
| `RoundEvents.HeldFramesAreKept` | crates/agentic-server-core/src/executor/engine.rs:398-450 | The merge of one round emits every held-back frame exactly once, and the frames of one output index keep their order |
| `RoundEvents.MergingKeepsCallEvents` | crates/agentic-server-core/src/executor/engine.rs:398-450 | Merged or not, every start and every completion of every call is emitted exactly once, in call order |
| `RoundEvents.MergedEventsAreOrdered` | crates/agentic-server-core/src/executor/engine.rs:418-450 | A start precedes its completion; no start overtakes the held-back frames of an earlier client custom call; an item's call completes before that item's frames; frames of no item come last |
| `RoundEvents.AnnouncedOvertakesNoCustomCall` | crates/agentic-server-core/src/executor/gateway.rs:223-238 | No client custom call stands before any call of the run announced before execution |
| `RoundEvents.AnnouncedFirstExactly` | crates/agentic-server-core/src/executor/gateway.rs:223-238 | Exactly those leading calls are announced before execution that stand side by side, if no call of a client's custom tool stands before them |
| `RoundEvents.PlainEventsAreOrdered` | crates/agentic-server-core/src/executor/engine.rs:377-397 | Without held-back frames every start comes before every completion |
| `RoundEvents.DoneEventsShowResults` | crates/agentic-server-core/src/executor/gateway.rs:546-611 | A done event carries the public index of a planned call and exactly what its handler showed |
| `AgentLoop.EngineOrchestration.Run` | crates/agentic-server-core/src/executor/engine.rs:250-368 | The loop over at most ten rounds returns what the specification of a run gives and leaves request, output, usage, budget and events in its final state; the statement after the loop is never reached |
| `AgentLoop.EngineOrchestration.PrepareRound` | crates/agentic-server-core/src/executor/engine.rs:262-268 | Compaction first, and replayed reasoning prepared only before the first fetch and only without a compaction |
| `AgentLoop.EngineOrchestration.PerformRound` | crates/agentic-server-core/src/executor/engine.rs:270-364 | One round from the fetch on: failed and errored answers return before anything is recorded; otherwise the batch, the public output, the history and the decision, in this order |
| `AgentLoop.EngineOrchestration.SettleRound` | crates/agentic-server-core/src/executor/engine.rs:310-364 | What each of the five ways to go on or to stop records in the two histories |
| `AgentLoop.EngineOrchestration.ExecuteRoundOutput` | crates/agentic-server-core/src/executor/engine.rs:377-451 | The results of the batch, the budget left, and the events sent, merged when frames were held back |
| `AgentLoop.EngineOrchestration.RecordRound` | crates/agentic-server-core/src/executor/engine.rs:202-229 | A session without a named conversation records all of a round but MCP listings and marks the public output as recorded; otherwise only gateway calls are added |
| `AgentLoop.EngineOrchestration.AppendOutputItems` | crates/agentic-server-core/src/executor/gateway.rs:649-665 | Output items are appended to the model's input; plain text becomes one user message first |
| `AgentLoop.EngineOrchestration.RecordGatewayResults` | crates/agentic-server-core/src/executor/gateway.rs:667-672 | Every result goes to both histories, in order |
| `AgentLoop.EngineOrchestration.constructor` | crates/agentic-server-core/src/executor/engine.rs:231-248 | A run starts with an empty event stream, the discovery items as its output, and the budget left after discovery |
| `AgentLoop.EndRound` | crates/agentic-server-core/src/executor/engine.rs:276-364 | A round lets the run go on only while rounds are left, so the end of the loop is never reached |
| `LoopHistories.RoundIsAnswered` | crates/agentic-server-core/src/executor/engine.rs:351-363 | After a round's record and results nothing is left to answer exactly when the record holds no more gateway calls than the round had |
| `LoopHistories.RecordOwnsCalls` | crates/agentic-server-core/src/executor/engine.rs:202-229 | The gateway calls in a round's record are those the model made, exactly when the record is restricted to them or no client item bears a gateway tool's name |
| `LoopHistories.ResultsAnswerCalls` | crates/agentic-server-core/src/executor/gateway.rs:270-338 | If handlers echo the id they were given, the results of a batch answer the round's gateway calls, in call order |
| `LoopHistories.ListingsLeftOut` | crates/agentic-server-core/src/executor/engine.rs:214-223 | Leaving MCP listings out of the output before the conversion to input, or out of the input after it, is the same |
| `LoopHistories.ContinuedKeepsInStep` | crates/agentic-server-core/src/executor/engine.rs:359-363 | A round that goes on keeps both histories answered, and equal but for listings in a recording session |
| `LoopHistories.StoppedIsAnswered` | crates/agentic-server-core/src/executor/engine.rs:310-356 | A round that stops leaves every recorded gateway call answered exactly when it recorded no client item under a gateway tool's name; a recording session has marked all public output as recorded |
| `LoopHistories.BeginKeepsInStep` | crates/agentic-server-core/src/executor/engine.rs:262-268 | Compaction and the preparation of reasoning keep the histories in step |
| `LoopHistories.RoundIsShown` | crates/agentic-server-core/src/executor/engine.rs:299-303 | The done events of a round show the public output of that round in its place after what came before |
| `LoopHistories.RoundKeepsInStep` | crates/agentic-server-core/src/executor/engine.rs:276-364 | The invariant of the loop over one whole round, for every way the round can end |
| `RunContents.RoundDoes` | crates/agentic-server-core/src/executor/engine.rs:270-364 | One round from the fetch on: whether it can be answered at all, exactly when the run goes on, with which status it stops, and all it adds to histories, output, events and budget |
| `LoopRuns.NoDanglingCallAtAnyFetch` | crates/agentic-server-core/src/executor/engine.rs:250-368 | At every fetch of every run, across compactions, the gateway calls added to the model's input and to the stored history are exactly those executed, each answered after it and in call order |
| `RunContents.RunIsToldByItsRounds` | crates/agentic-server-core/src/executor/engine.rs:250-368 | At every fetch of every run: both histories are what they began with (after a compaction the window that ends in the summary) and then the rounds' items and the texts of their calls, in order; the output is the discovered items and the rounds' in public form; every call is announced and concluded in order; the texts are charged to the budget |
| `RunResults.ReturnIsToldByItsRounds` | crates/agentic-server-core/src/executor/engine.rs:286-356 | The same on every return, with the status that tells why the run has stopped; a failed last round adds its items to the output and nothing else |
| `RunResults.EveryResultIsTold` | crates/agentic-server-core/src/executor/gateway.rs:649-672 | At every fetch the tool outputs added to the model's input and to the stored history are, in call order, the executed calls' ids with the texts their handlers gave |
| `RunResults.EveryResultIsToldOnReturn` | crates/agentic-server-core/src/executor/gateway.rs:649-672 | The same on every return, the last round included unless it failed |
| `RunResults.FetchesAgainExactlyWhen` | crates/agentic-server-core/src/executor/engine.rs:70-85 | A run fetches again exactly when the answer is complete and can be dealt with, holds gateway calls and no client's, fewer than ten rounds have been made, and the next round can begin |
| `RunUsage.UsageIsWhatWasSpent` | crates/agentic-server-core/src/executor/engine.rs:107-115 | The usage returned is accumulated from the compactions and the fetches of the run, in their order |
| `RunUsage.CountersAddUp` | crates/agentic-server-core/src/executor/engine.rs:87-105 | Each counter is the sum of what was spent where no partial sum leaves 64 bits, and where nothing is negative the sum capped at the largest 64-bit number; usage is reported exactly if there was any |
| `Replay.ReplayLosesNothing` | crates/agentic-server-core/src/types/io/output.rs:1096-1110 | Messages, function calls, complete searches, reasoning, listings and checkpoints given back to the model can be recovered as they were; a client's custom and shell calls keep name, call id, status and input; nothing else is given back |
| `Replay.QuotedReadsBack` | crates/agentic-server-core/src/executor/gateway.rs:354-360 | Every text reads back from its JSON literal as it was |
| `Replay.ReasoningIsPrepared` | crates/agentic-server-core/src/executor/rehydrate.rs:42-112 | Preparing reasoning fails exactly when some holds encrypted state without plain text; otherwise reasoning keeps id, status and its plain text in one piece, or is left out, and everything else stays in order |
| `LoopRuns.NoDanglingCallOnReturn` | crates/agentic-server-core/src/executor/engine.rs:286-356 | On every successful return (failed, incomplete, client action, done, budget exhausted) every recorded gateway call is answered, unless the last round recorded a client item under a gateway tool's name, and exactly then |
| `LoopRuns.ImpostorStaysUnanswered` | crates/agentic-server-core/src/executor/engine.rs:202-229 | A run that ends well with a recorded custom call under a gateway tool's name that nobody has answered |
| `LoopRuns.HistoriesCoincide` | crates/agentic-server-core/src/executor/engine.rs:202-229 | In a recording session both histories have gained the same items, but for MCP listings, at every fetch; once a compaction has run they are the same as a whole |
| `LoopRuns.CompactionMakesHistoriesEqual` | crates/agentic-server-core/src/executor/compaction.rs:469-476 | Right after a compaction the model's input and the stored history are equal |
| `LoopRuns.StreamAgreesWithResponse` | crates/agentic-server-core/src/executor/engine.rs:255-364 | Every done event of a gateway call in any round carries an index of the final output and the item that stands there, if the output can be counted in 32 bits; beyond that all places go by the largest 32-bit number |
| `RunResults.EveryShownItemIsDoneOnce` | crates/agentic-server-core/src/executor/gateway.rs:457-611 | At every fetch of a streaming run the done events are exactly one for each item of these kinds that a handler has shown, by ascending places in the output, each with the item that stands there; and the added events exactly one for each announced call |
| `RunResults.EveryShownItemIsDoneOnReturn` | crates/agentic-server-core/src/executor/gateway.rs:457-611 | The same on every return, of all rounds but a failed last one |
| `LoopRuns.HeldFramesAreSentUnlessFailed` | crates/agentic-server-core/src/executor/engine.rs:286-303 | On every return of a streaming run, the frames sent and those of a failed last round are all that were ever held back, each exactly once and in order for each item index; so every frame is sent exactly when the last round did not fail or held nothing back |
| `LoopRuns.FramesAreSentByNextFetch` | crates/agentic-server-core/src/executor/engine.rs:250-368 | At every fetch of every streaming run, the frames held back in earlier rounds have been sent, each exactly once and in order for each item index |
| `LoopRuns.FailedRoundDropsFrame` | crates/agentic-server-core/src/executor/engine.rs:296-303 | A run that returns without the frame its only round held back |
| `JwksCache.JwksTtl` | crates/agentic-server/src/auth.rs:664-696 | The lifetime of a key set: none where caching is forbidden; otherwise what is left of the smallest maximum age, five minutes where there is none, after the largest age; nothing once that has passed, and an hour at most |
| `JwksCache.LargestAge` | crates/agentic-server/src/auth.rs:680-690 | The largest valid age, found by the loop over the header values |
| `JwksCache.CompileJwks` | crates/agentic-server/src/auth.rs:554-596 | Exactly the usable keys with distinct ids are kept; a duplicate id or an empty result is an error |
| `JwksCache.FetchesExactlyWhenNeeded` | crates/agentic-server/src/auth.rs:264-284 | The check under the gate fetches exactly when there is no valid key, the set has expired or is 30 s old, and neither the coalescing second nor a backoff is in force; what is told otherwise, and why |
| `JwksRefreshProtocol.OidcAuthenticator.CheckUnderGate` | crates/agentic-server/src/auth.rs:264-284 | The same of the method, on the cells it reads |
| `JwksRefreshProtocol.OidcAuthenticator.Begin` | crates/agentic-server/src/auth.rs:125-136 | In any state of the protocol, beginning an attempt does to the cells what the step does, and puts a backoff in force |
| `JwksRefreshProtocol.OidcAuthenticator.Complete` | crates/agentic-server/src/auth.rs:297-304 | In any state, completing a refresh does to the cells what the step does; coalescing is in force and no backoff is |
| `JwksRefreshProtocol.RefreshAttempt.Drop` | crates/agentic-server/src/auth.rs:147-158 | Dropping an armed attempt does to the cells what the unwinding step of its caller does; a disarmed one, or one whose backoff was replaced, changes nothing |
| `JwksRefreshProtocol.OidcAuthenticator.VerificationKey` | crates/agentic-server/src/auth.rs:249-307 | A whole lookup that meets nobody on its way is a legal run of the protocol, for every cache, every wait and every end of its fetch. It fetches exactly when neither the first look nor the check under the gate finds a valid key or a reason to hold back; then it returns the fetched key or that there is none, and leaves the fetched set, a backoff after an error, or the cache as it was when cancelled; otherwise it is answered from the cache, which stays as it was |
| `JwksRefreshProtocol.OidcAuthenticator.Abandon` | crates/agentic-server/src/auth.rs:147-158 | A cancelled lookup, as a run: the attempt is dropped before the permit, the keys stay and the backoff goes |
| `JwksRefreshProtocol.RunStaysCoherent` | crates/agentic-server/src/auth.rs:249-307 | The invariant of the cache, the gate, the backoff and the history survives every interleaving of lookups, refreshes, failures and cancellations |
| `JwksRefreshProtocol.StepKeepsBackoff` | crates/agentic-server/src/auth.rs:286-306 | At every step the backoff in force is that of the running attempt, or of the last fetch if it failed |
| `JwksRefreshProtocol.StepKeepsCache` | crates/agentic-server/src/auth.rs:286-306 | Keys and refresh state belong to one refresh except between the two writes of one gate holder |
| `JwksRefreshProtocol.FetchesAreSpaced` | crates/agentic-server/src/auth.rs:249-307 | At most one fetch is in flight; the one after a failed fetch begins at least 30 s after it began; after a successful fetch none begins until the set it installed has expired or is 30 s old, nor within a second; fetches that were not cancelled begin at least 1 s apart |
| `JwksRefreshProtocol.DiscoveryHoldsFetchesBack` | crates/agentic-server/src/auth.rs:264-284 | No fetch begins until the set found at start-up has expired or is 30 s old |
| `JwksRefreshProtocol.StepKeepsProviderSpared` | crates/agentic-server/src/auth.rs:264-304 | At every step, each installed set is still the one that refuses unknown key ids, or its time is over, and no fetch begun since began earlier than that |
| `JwksRefreshProtocol.WindowHoldsFewFetches` | crates/agentic-server/src/auth.rs:249-307 | A window of any length holds at most one fetch per whole second and one more, not counting cancelled ones |
| `JwksRefreshProtocol.LaterFetchWaits` | crates/agentic-server/src/auth.rs:249-307 | Every fetch that was not cancelled holds all later ones back by a second |
| `JwksRefreshProtocol.HandedKeysAreFresh` | crates/agentic-server/src/auth.rs:249-307 | A key handed out is the entry for its id in an installed set, while that set was unexpired, within a second of its refresh, or by the caller that had just fetched it; and so less than an hour after that refresh completed |
| `JwksRefreshProtocol.OnlyTwoWritesTouchCache` | crates/agentic-server/src/auth.rs:296-306 | No step but the two writes of a gate holder changes keys, completion time or coalescing window |
| `JwksRefreshProtocol.CancellationIsTransparent` | crates/agentic-server/src/auth.rs:118-158 | After a cancellation during a fetch, in every run of other callers, nobody passes the gate, keys and refresh state stay as they were but for the backoff, the backoff is gone when the gate is free, and the cancelled caller can always go on |
| `JwksRefreshProtocol.AttemptsOverwriteNoLiveBackoff` | crates/agentic-server/src/auth.rs:275-287 | No live backoff is overwritten when an attempt begins, so none is lost when it is dropped |
| `JwksRefreshProtocol.FreeGateShowsWholeRefresh` | crates/agentic-server/src/auth.rs:286-306 | Whenever the gate is free, the backoff is that of the last fetch if it failed and else none, and keys and state are those of one completed refresh |
| `WebSocketTracking.WebSocketTracker.Track` | crates/agentic-server/src/app.rs:115-121 | Tracking a socket is the step of the protocol |
| `WebSocketTracking.WebSocketTracker.Untrack` | crates/agentic-server/src/app.rs:170-176 | The decrement is the step of the protocol, and exactly the guard that reaches zero owes the wake-up |
| `WebSocketTracking.WebSocketTracker.NotifyWaiters` | crates/agentic-server/src/app.rs:170-176 | Every parked waiter can resume, every armed one will find its notification, no other waiter changes |
| `WebSocketTracking.WebSocketTracker.DropGuard` | crates/agentic-server/src/app.rs:170-176 | A dropped guard is a run of the protocol; the last one leaves no registered waiter without a notification, any other leaves the waiters alone |
| `WebSocketTracking.NoWakeUpIsLost` | crates/agentic-server/src/app.rs:123-133 | In every interleaving, a waiter that sleeps without a wake-up on its way has an active socket or a guard about to wake it |
| `WebSocketTracking.ReturnsOnlyWhenIdle` | crates/agentic-server/src/app.rs:123-133 | In every run a waiter has returned exactly when at some point of that run it looked at the counter and saw zero |
| `WebSocketTracking.DrainIsBounded` | crates/agentic-server/src/app.rs:123-133 | Without new sockets every run is bounded |
| `WebSocketTracking.DrainedWaitersReturn` | crates/agentic-server/src/app.rs:123-133 | Once no socket arrives, a run that can go no further has dropped every guard and returned every waiter |
| `ProcessSupervision.ProcessSupervisor.RequestShutdown` | python/agentic_api/process.py:47-50 | Shutdown is requested and the first signal is the one remembered, by a signal handler and by terminate_all alike |
| `ProcessSupervision.ProcessSupervisor.Register` | python/agentic_api/process.py:74-76 | A started child is listed and told whether shutdown was already requested, in one step of the protocol |
| `ProcessSupervision.ProcessSupervisor.ListUnseen` | python/agentic_api/process.py:86-87 | Exactly the children not yet seen, in list order |
| `ProcessSupervision.ProcessSupervisor.Start` | python/agentic_api/process.py:58-79 | A whole start is a run of the protocol; the new child is sent SIGTERM exactly when shutdown was requested before |
| `ProcessSupervision.ProcessSupervisor.TerminateAll` | python/agentic_api/process.py:81-108 | A whole terminate_all, with its loop over rounds, ends and is a run of the protocol, whichever children exit in time; every child is seen |
| `ProcessSupervision.InvariantInEveryRun` | python/agentic_api/process.py:58-108 | The invariant that covers every child, at every point of every interleaving |
| `ProcessSupervision.StepKeepsAccounted` | python/agentic_api/process.py:58-108 | Every signal that was sent is known to the thread that sent it, and a child has one start |
| `ProcessSupervision.StepWorksInOrder` | python/agentic_api/process.py:81-93 | What a terminate_all has signalled is always an initial segment of the list of children, and it goes on where that ends |
| `ProcessSupervision.NoChildEscapesShutdown` | python/agentic_api/process.py:58-108 | Once a terminate_all has returned and no start is about to signal, a child has been left without SIGTERM if and only if its own start was refused and its position in the list is at or beyond what every terminate_all has worked through |
| `ProcessSupervision.RefusedStartEscapes` | python/agentic_api/process.py:58-79 | A run at whose end a child whose start was refused has been signalled by nobody |
| `ProcessSupervision.SeenChildrenAreSettled` | python/agentic_api/process.py:81-108 | Every child a terminate_all saw was sent SIGTERM, and was gone or sent SIGKILL when it returned |
| `ProcessSupervision.GoneChildrenAreNotKilled` | python/agentic_api/process.py:97-104 | A child that is gone before anybody waits for it in vain is never sent SIGKILL |
| `ProcessSupervision.NoSignalBeforeRequest` | python/agentic_api/process.py:58-108 | Before shutdown is requested no child has been sent a signal |
| `ProcessSupervision.ChildStillCovered` | python/agentic_api/process.py:58-79 | A child listed after the request for shutdown is left to its own start until that has signalled it |
| `ProcessSupervision.StepUsesSteps` | python/agentic_api/process.py:81-108 | Every step lowers a bound that depends only on the starts that are left |
| `ProcessSupervision.ShutdownEnds` | python/agentic_api/process.py:81-108 | With finitely many starts every run is bounded, the rounds of terminate_all included, and ends with every thread returned |
| `ProcessSupervision.UnfinishedThreadCanMove` | python/agentic_api/process.py:81-168 | A thread that has not returned can take a step |
| `ResponseStream.OrderInEveryRun` | crates/agentic-server-core/src/executor/engine.rs:564-628 | First in, first out, exactly once, with one ending, at every point of every run |
| `ResponseStream.ClosedStreamIsComplete` | crates/agentic-server-core/src/executor/engine.rs:564-628 | A stream read to its end yields every event in order and numbered from zero, one terminal or error chunk with the next number, and one end marker; a success only if it was stored first |
| `ResponseStream.ClosesInTerminalExactlyWhen` | crates/agentic-server-core/src/executor/engine.rs:564-628 | A stream read to its end ends in a terminal chunk exactly when that fits and the run succeeded and was stored, or had failed in an answer of its own; storing is tried whenever a run has succeeded and its chunk fits |
| `ResponseStream.OpenStreamYieldsPrefix` | crates/agentic-server-core/src/executor/engine.rs:564-600 | Before its end a stream has yielded a prefix of what was sent and no terminal chunk |
| `ResponseStream.StreamCanGoOn` | crates/agentic-server-core/src/executor/engine.rs:564-628 | Until it is closed or dropped the stream can always make a step |
| `ResponseStream.ConsumeStreamEvent` | crates/agentic-server-core/src/executor/engine.rs:678-681 | An event is passed on and the next number is one more, capped |
| `ResponseStream.PanickedStreamChunks` | crates/agentic-server-core/src/executor/engine.rs:687-699 | After a panic the channel is drained in order, then one error numbered one past the last event, then the end marker |
| `TokenEstimate.InputTokenEstimate.AddBytes` | crates/agentic-server-core/src/executor/compaction.rs:39-42 | The saturating text counter stays the capped exact count |
| `TokenEstimate.InputTokenEstimate.AddTokens` | crates/agentic-server-core/src/executor/compaction.rs:50-52 | The saturating token counter stays the capped exact count |
| `TokenEstimate.InputTokenEstimate.AddJsonValue` | crates/agentic-server-core/src/executor/compaction.rs:54-72 | The recursive walk over a JSON value adds exactly its cost |
| `TokenEstimate.InputTokenEstimate.AddParts` | crates/agentic-server-core/src/executor/compaction.rs:196-215 | The walk over content parts adds exactly their cost, images at a flat rate |
| `TokenEstimate.InputTokenEstimate.AddItemBody` | crates/agentic-server-core/src/executor/compaction.rs:259-326 | Each kind of item adds the cost of the fields the model reads |
| `TokenEstimate.InputTokenEstimate.AddInputItem` | crates/agentic-server-core/src/executor/compaction.rs:253-327 | An item adds its framing and its fields; internal items add nothing |
| `TokenEstimate.InputTokenEstimate.AddFile` | crates/agentic-server-core/src/executor/compaction.rs:217-224 | A file adds its framing and all its textual fields |
| `TokenEstimate.InputTokenEstimate.TotalTokens` | crates/agentic-server-core/src/executor/compaction.rs:74-78 | Four bytes a token, rounded up, added with saturation |
| `TokenEstimate.EstimateInputTokens` | crates/agentic-server-core/src/executor/compaction.rs:335-347 | The estimate of an input is the capped total of its effective window |
| `TokenEstimate.EstimateIsCappedCount` | crates/agentic-server-core/src/executor/compaction.rs:74-78 | The estimate is the exact count capped at 2^64-1 if and only if the text is at most 2^64 bytes, as every text a program can hold is, or the framing makes up for what text is capped; it never exceeds it |
| `TokenEstimate.EstimateIgnoresOrder` | crates/agentic-server-core/src/executor/compaction.rs:335-347 | Within the window the order of items does not matter, and nothing before the window does |
| `TokenEstimate.EstimateIgnoresOrderWithoutCompaction` | crates/agentic-server-core/src/executor/compaction.rs:335-347 | Without a compaction, no permutation of the items changes the estimate |
| `TokenEstimate.TotalCostPermutes` | crates/agentic-server-core/src/executor/compaction.rs:253-327 | Costs depend on the multiset of items only |
| `TokenEstimate.EstimateIgnoresImages` | crates/agentic-server-core/src/executor/compaction.rs:196-215 | No change of any image payload changes the estimate |
| `TokenEstimate.SplittingCostsOneTokenAtMost` | crates/agentic-server-core/src/executor/compaction.rs:74-78 | Counting two stretches apart or together differs by at most one rounding token |
| `TokenEstimate.ModelItemsAroundCompaction` | crates/agentic-server-core/src/types/io/input.rs:582-614 | The model is given the user messages the latest compaction kept, that compaction, and what is visible after it |
| `TokenEstimate.ModelItemsWithoutCompaction` | crates/agentic-server-core/src/types/io/input.rs:596-614 | Without a compaction the model is given every visible item |
| `EstimateFields.EveryReadTextCounts` | crates/agentic-server-core/src/executor/compaction.rs:253-327 | A text that the model reads, in any field of any item, that grows by n bytes raises the cost by exactly n |
| `EstimateFields.NothingElseCounts` | crates/agentic-server-core/src/executor/compaction.rs:253-327 | Statuses, the id of a checkpoint and internal items count nothing |
| `EstimateFields.ItemsAreFramed` | crates/agentic-server-core/src/executor/compaction.rs:19-36 | Beyond its texts an item counts 12 tokens, 7 for each part, one for each JSON value, and the most there can be for what cannot be serialized |
| `EstimateFields.PartsAreFramed` | crates/agentic-server-core/src/executor/compaction.rs:196-215 | Beyond its text each part counts 7 tokens, an image 1024 |
| `EstimateFields.TextBytesAreUtf8` | crates/agentic-server-core/src/executor/compaction.rs:39-42 | A text counts with the length of its UTF-8 form |
| `TokenEstimate.VisibleAndRetained` | crates/agentic-server-core/src/types/io/input.rs:582-614 | Visible is all but listings and triggers; retained are completed user messages under an id |
| `ContextCompaction.EstimateCountsModelInput` | crates/agentic-server-core/src/types/io/input.rs:634-663 | What the model is given counts exactly as the input was estimated to, holds no checkpoint, and needs no window again |
| `ContextCompaction.RetainsWhatTheUserSaid` | crates/agentic-server-core/src/executor/compaction.rs:81-101 | The user messages kept by a compaction are those the model was given, in order and word for word |
| `ContextCompaction.RetainedStandFor` | crates/agentic-server-core/src/executor/compaction.rs:81-101 | Each kept message stands for one of the items, in order, with its role and content, under the fresh id of its place |
| `ContextCompaction.CompactedWindowIsContext` | crates/agentic-server-core/src/executor/compaction.rs:81-109 | A compacted window is given to the model as a whole, with what is visible after it |
| `ContextCompaction.CompactingAgainKeepsTheUser` | crates/agentic-server-core/src/executor/compaction.rs:81-109 | A later compaction keeps what the user had said before the earlier one and has said since |
| `ContextCompaction.SummaryIsWhatWasSaid` | crates/agentic-server-core/src/executor/compaction.rs:117-130 | A summary is the assistant's texts in order, without surrounding white space and without blank ones, line by line; there is one exactly when a completed answer holds any text |
| `ContextCompaction.MeaningIsInTexts` | crates/agentic-server-core/src/executor/compaction.rs:141-173 | An item is worth summarizing exactly when one of its texts is not blank or it has contents of another kind |
| `ContextCompaction.FirstEntryDecides` | crates/agentic-server-core/src/executor/compaction.rs:446-454 | The first entry of kind compaction decides on the threshold, also when it names none |
| `ContextCompaction.RequestContext.MaybeCompactContext` | crates/agentic-server-core/src/executor/compaction.rs:441-477 | Threshold, summary and the replacement of both histories, with the input lost if summarizing fails |
| `ContextCompaction.CompactionReplacesBothHistories` | crates/agentic-server-core/src/executor/compaction.rs:441-477 | Compaction runs exactly when the estimate passes the threshold, and else nothing changes; it fails exactly when there is nothing to summarize, no answer or no summary in it, and has then emptied the model's input only; otherwise both histories are one window: the user's messages in order under fresh ids, and a checkpoint that holds the summary of the answer |
| `ContextCompaction.RestoredSessionIsTheSameContext` | crates/agentic-server-core/src/executor/session.rs:358-372 | Restoring only the canonical window of a session, with its MCP listings, changes nothing for the model |
| `StreamEvents.NormalizeSseValue` | crates/agentic-server-core/src/events/normalize.rs:36-65 | The normalization of a JSON value, with its in-place rewrite, as specified |
| `StreamEvents.WireTypeIsFrameType` | crates/agentic-server-core/src/events/normalize.rs:36-65 | The wire type always classifies to the frame's type, also after a completion is rewritten as incomplete; the envelope keeps every other field |
| `StreamEvents.RewrittenFields` | crates/agentic-server-core/src/events/normalize.rs:51-54 | The rewrite changes the type and no other field |
| `StreamEvents.ValidItemChangesAreWrittenInFull` | crates/agentic-server-core/src/events/validate.rs:26-69 | An event that changes an item validates if and only if the extractor made nothing up: id, text, output index and part index stand in the JSON as they are; both readings then name the same item |
| `StreamEvents.ValidItemsAgree` | crates/agentic-server-core/src/events/validate.rs:158-195 | For an added or finished item both readings agree on id, type and index, and a finished item is handed on as the very value the validator decoded |
| `StreamEvents.ValidRawEventsAgree` | crates/agentic-server-core/src/events/validate.rs:50-68 | An event without a typed payload hands the whole value on, and if it validates its item's id and output index are those of that value |
| `StreamEvents.OtherFieldsAsWritten` | crates/agentic-server-core/src/events/normalize.rs:68-298 | Which payload each event has, and that names, call ids, usage and shell calls in it are as written |
| `StreamEvents.CanonicalIsWithId` | crates/agentic-server-core/src/events/validate.rs:176-180 | The extractor and the validator put a missing id in the same place |
| `StreamEvents.IdentityAsWritten` | crates/agentic-server-core/src/events/validate.rs:106-124 | The strict identity of an item is the lenient one, and never empty |
| `StreamEvents.ValidResponsesAgree` | crates/agentic-server-core/src/events/validate.rs:136-156 | A lifecycle event validates if and only if it shows a non-empty id and the status of its type as they are written |
| `StreamEvents.ResolvedIndexIsShown` | crates/agentic-server-core/src/events/types.rs:433-476 | A resolved output index is shown by frame, envelope and payload alike, and nothing else changes; for a shell command the payload agrees exactly when it already held that index |
| `StreamEvents.ShellCommandKeepsZero` | crates/agentic-server-core/src/events/types.rs:454-476 | A shell command without an index, resolved to item 1, whose payload says item 0 |
| `StreamEvents.FrameInFlight.SetOutputIndex` | crates/agentic-server-core/src/events/types.rs:454-476 | Envelope and payload, written one after the other in place, show the index afterwards; a shell command's payload is left as it was |
| `StreamEvents.ItemTypeNamesRoundTrip` | crates/agentic-server-core/src/events/types.rs:24-61 | Item type names and types correspond one to one |
| `UrlRedaction.RedactUrls` | crates/agentic-server/src/agentic_output.rs:141-160 | The scanning loop yields the redacted text, or reaches an unsliceable position |
| `UrlRedaction.OnlyUserInfoIsReplaced` | crates/agentic-server/src/agentic_output.rs:128-138 | Of a URL with credentials exactly these are replaced, up to the last @ of its first authority; any other text comes back as it was |
| `UrlRedaction.OnlyCredentialsAreReplaced` | crates/agentic-server/src/agentic_output.rs:141-160 | The output is the text with the mark in place of exactly the stretches from the beginning of a URL's authority to its last @, for every URL of the text, and is otherwise copied |
| `UrlRedaction.RedactUrlIsIdempotent` | crates/agentic-server/src/agentic_output.rs:128-138 | Redacting one URL twice changes nothing more |
| `UrlRedaction.RedactionIsIdempotent` | crates/agentic-server/src/agentic_output.rs:141-160 | Redacting a text twice changes nothing more, on every text on which redaction does not panic |
| `UrlRedaction.PanicsExactly` | crates/agentic-server/src/agentic_output.rs:144-158 | Redaction panics if and only if the scheme of some URL directly follows a character that takes more than one byte |
| `UrlRedaction.AccentBeforeUrlPanics` | crates/agentic-server/src/agentic_output.rs:144-158 | A text on which redaction panics |

## Left out

- Order of waiters: a free permit may go to any waiter, where the semaphores of the program serve them in order; the results hold for every choice.
- Poisoned locks, weak memory and process id reuse: atomics are sequentially consistent and locks are always obtained.
- Time: timeouts and deadlines are steps that may happen; only the key cache reads a clock, which never goes back.
- HTTP, SQL, WebSocket transport, process spawning, signature verification and key decoding: only their outcomes appear, as inputs or steps.
- Emission failures: events are appended to a list; a closed channel, which ends a run with an error, is not modelled. Neither is an error chunk beyond its number.
- Numbering and re-basing of forwarded frames in the agent loop: `ResponseStream` models the numbering, and the loop lists what is forwarded, in order.
- How frames come to be held back, and the translation of tool calls in a stream: held-back frames are an input of a round.
- MCP discovery: its listings are the initial output of a run; their events are not part of the loop's event list.
- The compaction trigger request, the standalone compaction endpoint and persistence of turns.
- Tool registry construction: any registry whose entries fit their types is allowed.
- The typed decoder of output items is a parameter of extraction and validation; token usage in response payloads stays JSON.
- Wire names of event types beyond their classification; error message texts, identifiers and timestamps.
- ReadinessTracker, CLI parsing, configuration, proxying and the website: single-branch code.
- GatewayScheduler.ScheduleDoesNotMatter: which of several calls that fail on their own account is reported can depend on the budget left when they settle, so equality of errors is claimed only without such failures.
- The two writes of `request_shutdown` are one step of the shutdown protocol.
- UrlRedaction.RedactionIsIdempotent: says nothing where redaction panics, because there is no output.
