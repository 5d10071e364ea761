# Verified model of the Bitquery Go SDK core

This project models, in Dafny, the parts of the Bitquery Go SDK that keep state over time, and proves
what they keep over whole runs:

- the **subscription worker** of `subscription/client.go`: the reconnecting loop `run`, the
  per-connection protocol `serve`, the bounded event queue of `enqueue`, and the bounded receipt and
  gap buffers of the stream;
- the **HTTP execution loop** of `executor.go`: retries, the one-shot refresh after a 401, the receipts
  of every response, the evidence of how a body was read (`util.go`), and the small lexer that decides
  whether a document may be sent again, with the GraphQL rules that say which operation of it is executed;
- the **arithmetic engines**: the backoff of `retry.go` on wrapping 64-bit integers, the token bucket of
  `ratelimit.go` in exact credits, and the expiring token cache of `token.go`.

`dafny verify dfyconfig.toml` checks everything.

## How the model is built

**The subscription worker, twice.** `SubscriptionWorker` is a transition system. One `Act` is one atomic
step: of the worker goroutine, between two uses of the mutex, the channel, the context or the socket; or
of the code around it, that is a receive from `Events`, a call of `DrainReceipts`, a cancellation. A log
of acts is a run when each act is enabled in the state that the earlier ones lead to (`Run`), so consumer
acts fall between any two worker acts, also between the three channel operations of one `enqueue`. The
safety theorems hold of every run of every configuration: `QueueLedger`, `Handshake`, `ReconnectBudget`,
`TerminalOutcome`, `ReceiptLedger`, `GapLedger`, `Obligations`, `Fate`. Each is a one-step lemma on the
state, carried over the log by induction from its end. What a log says about itself (the events accepted so
far, the acks of a connection, the fatal errors called for) is a function of the log alone, so the laws fix
what the worker does and do not repeat it; capacities are spelled out in them.

`SubscriptionStream.Stream` and `SubscriptionClient.Client` are the same worker in the form of the source:
objects whose methods update their fields and loop. A ghost `log` records every act, and `Stream.Valid`
says that it is a run and that the fields hold what that run leads to, so every method is proved to do
exactly what the transition system allows, and the theorems apply to the fields. `Valid` also says that
every slice handed out to the consumer still holds what it held. Buffers are `GoSlice.Slice`, a Go slice
with its backing array, changed in place. The environment is a script: what the consumer does before each
atomic step, and what the dialer, the socket, the observer and the sleep answer. Every finite script is
covered, and after its end the context is cancelled; `Client.Run` terminates for all of them.

**The execution loop, twice.** `Executor.Loop` says as a function of the environment what `do` does and how
it ends; `Executor.Do` is the loop with its mutable state, proved against it. Its environment reaches down
to the response bodies: chunks of bytes that end or fail, read through any sequence of buffers.
`Executor.ApiError` is an object, because the source adds receipts to an error in place. `RetryRules` says in
full, with the constants written out, what must follow every trip. `RequestPacing` joins the loop to the rate
limiter and to the token provider.

**The engines.** The methods `Delay`, `Wait`, `Token`, `Refresh` and `ReadLimitedEvidence` have the loops and
assignments of the source; each is proved against a function or a predicate, and the promises are lemmas
about that.

Small searching loops of the source (for a status in a slice, for the next line feed) are loops with
invariants here too.

## Where the code falls short of its promises

- **A transient failure can be surfaced while budget remains.** When a 401 asks for a refresh and the token
  endpoint answers 429 or 5xx, `Refresh` returns an error marked temporary (`token.go:194-213`), and `do`
  returns it at once, whatever attempts are left (`Executor.OutageOfRefreshIsSurfaced`).
  `Executor.TemporaryWithBudgetIff` is exact: with the default statuses and budget left, the returned error
  is temporary iff the sleep or the refresh of the last turn returned a temporary error. (The same outage
  met by `Token` is wrapped in an error that is not temporary.)
- **What is retried is not always marked temporary.** A 401, 402 or 403 whose body says "temporarily blocked"
  is retried while there is budget, but surfaced as final in the end, although `errors.go:69-70` and
  `docs/error-handling.md:15` call that body transient. `Executor.RetriedIsTemporaryIff`: these three are
  the only responses, for the default statuses, at which retry and classification differ.
- **The limiter is not asked once per request.** `ratelimit.go:9` promises one `Wait` per HTTP request; `do`
  asks once per call (`executor.go:113`), which makes up to MaxAttempts + 1 requests. The promise is kept
  exactly for calls that are never retried (`RequestPacing.OneWaitPerRequestIff`); `PacedTrips` bounds the
  requests behind the grants of a window.
- **Text can hide behind a leading comment.** The gate reads a `#` comment up to the next line feed; by
  section 2.1 of the GraphQL specification (October 2021) a carriage return ends it. A document
  `#<CR>mutation ...<LF>{q}` therefore passes as a query although its first operation is a mutation
  (`ReplayGate.HiddenTextPasses`). White space that is not GraphQL white space is trimmed after a comment
  too. `ReplayGate.RetryableStartsQueryIff` says exactly which of the documents that pass the gate start
  with a token that opens a query.
- **A second operation is not looked at.** Starting with a query is not being one: the gate passes
  `query A{a}mutation B{b}`, and a request that names B runs the mutation
  (`OperationSelection.SecondOperationIsMutation`). `OperationSelection.SelectedIsQueryIff` is exact for
  documents that start with a query; a request that names no operation, or the first, runs a query
  (`ReplayedRequestIsQuery`). Both kinds of mutation are sent MaxAttempts times while the connection fails
  (`Executor.MutationsAreSentAgain`), against the promise that mutations are never replayed.
- **The documentation contradicts itself about 400, 401 after a refresh, 402, 403 and 404.**
  `docs/error-handling.md:79` (and `:14` for 402) calls them never retried, while `:73-75` retries a body
  that says "temporarily blocked" at any status. The code does the latter (`Executor.BlockedResponseIsRetried`
  is such a run); `Executor.NeverRetriedIff` says exactly when the former holds, for every such response of
  every run.
- **The backoff collapses.** `BaseDelay << (attempt-1)` wraps. The default policy gives a delay of zero for
  attempt 32, and any policy does from attempt 65 on, where the cap is promised.
  `Backoff.DelayIsPromisedIff` says exactly when the promise is kept; the default budgets never get there
  (`ReconnectBudget.ReconnectsPauseAsPromised` covers up to 31 reconnects).
- **A typed error that a provider keeps gathers receipts** of one request after another, since
  `withReceipts` changes it in place (`Executor.SharedErrorsGather`). The receipts of an outcome are this
  request's alone exactly when the error passed on brought none.
- **The largest body limit reads nothing**: `limit+1` wraps at the top of `int64`, and the evidence calls the
  empty read complete (`BodyEvidence.LargestLimitTellsIff`). The callers use 64 MiB and 1 MiB.
- **A token lifetime beyond a 64-bit duration wraps** (`TokenCache.LifetimeFitsIff`): it is too short by a
  multiple of 2^64 nanoseconds. The token is over at once iff what is left is not positive, as for 10^10
  seconds but not for 2 * 10^10 (`TokenCache.OverAtOnceIff`).

## Model

| member | source | states |
|---|---|---|
| QueueLedger.EnqueueNeverBlocks | subscription/client.go:571-602 | in every reachable state the buffer is within max(1, capacity), the last select of enqueue can send at once whatever the consumer does meanwhile, and under `fail` nothing is ever evicted |
| QueueLedger.OfferIsTakenIff | subscription/client.go:571-576 | in every run an event offered to the channel is taken exactly when fewer than max(1, capacity) accepted events are neither delivered nor evicted, and refused only when exactly that many are |
| QueueLedger.EvictionsFollowRefusals | subscription/client.go:578-594 | the worker tries to evict exactly once for each offer refused under drop_oldest, and never else |
| QueueLedger.RoomHolds | subscription/client.go:589-600 | after a try-drop there is a free slot until the send, and only drop_oldest ever gets there |
| QueueLedger.NothingEvicted | subscription/client.go:578-588 | no run under `fail` evicts an event |
| QueueLedger.FirstInFirstOut | subscription/client.go:571-602 | events leave the channel, received or evicted, in the order in which they were accepted, so each eviction takes the oldest |
| QueueLedger.AcceptedAreAccountedFor | subscription/client.go:142-144 | accepted = delivered + buffered + Dropped() after every enqueue, with the one eviction that is not counted yet |
| QueueLedger.StampsHold | subscription/client.go:204-214 | accepted events have strictly increasing receive sequences and non-decreasing epochs across all reconnects |
| QueueLedger.ConsumerSeesSurvivors | subscription/client.go:571-602 | delivered followed by buffered is exactly the accepted sequence without the evicted events |
| QueueLedger.AcceptedWereRead | subscription/client.go:470-564 | every accepted event is a frame that was read, with the epoch and sequence of that read, its exact bytes, its kind and its own receipt |
| Obligations.WritesAreOwed | subscription/client.go:462-519 | over a whole run the writes tried are exactly those called for, in order: init for each connection, the subscription for its first ack, one pong for each ping |
| Obligations.GapsAreOwed | subscription/client.go:216-278 | the gap history is exactly one record for each reconnect, refused or displaced receipt and refused event, in order, with the epoch and sequence of the moment |
| Obligations.FramesAreHandled | subscription/client.go:470-497 | every frame read reaches the switch in order, except possibly a last one whose receipt was refused |
| Obligations.SequenceCountsFrames | subscription/client.go:204-214 | frame number n of the whole run gets receive sequence n, across all connections |
| Obligations.EventsAreOwed | subscription/client.go:497-602 | the accepted events are exactly those the frames call for, in order and with exact deliveries, except possibly the last, which was refused under `fail` or given up on cancellation |
| Obligations.StoppedStreamIsComplete | subscription/client.go:571-602 | a worker that stopped without finding itself cancelled accepted every event, or all but the last and Err carries that one's receipt |
| Handshake.WritesFollowHandshake | subscription/client.go:461-519 | at every moment the successful writes of a connection follow init pong* [subscribe pong*], and subscribe is written only after exactly one handled ack |
| Handshake.EventsFollowSubscription | subscription/client.go:535-565 | a data or complete event is accepted only after subscribe was written successfully on its own connection |
| Handshake.CompleteIsLast | subscription/client.go:535-547 | an accepted complete event is the last event accepted in the whole run and is never evicted |
| Handshake.ProtocolHolds | subscription/client.go:461-568 | `acknowledged` counts the acks of the connection and tells, at every place of serve, whether the subscription went out |
| Handshake.NotServing | subscription/client.go:385-417 | nothing is read, written or recorded before the first successful dial |
| ReconnectBudget.BudgetHolds | subscription/client.go:383-456 | `attempts`, at every place of the worker, against the number of dials since the last ack; an exhausted budget means exactly maximum + 1 of them |
| ReconnectBudget.AttemptsCountUnacknowledgedDials | subscription/client.go:383-456 | attempts stays in [0, Max], equals the consecutive unacknowledged dials at the loop head, and no more than Max + 1 dials in a row go unacknowledged |
| ReconnectBudget.DialsAreBounded | subscription/client.go:385-456 | a run with A acknowledged connections makes at most (A + 1) * (Max + 1) dials |
| ReconnectBudget.ReconnectsPauseAsPromised | subscription/client.go:401-453 | with the default policy and up to 31 reconnects every pause of every run is the promised backoff before jitter, free of overflow |
| TerminalOutcome.ErrTellsHowTheWorkerEnded | subscription/client.go:386-449 | once Wait can return, Err is nil iff complete was accepted, cancellation was found or a sleep failed; otherwise it is a fatal error with its cause in the log, or exhaustion after exactly Max + 1 unacknowledged dials |
| TerminalOutcome.EndedHolds | subscription/client.go:386-449 | the three reasons to end without an error are the only ones, and exclude an error |
| TerminalOutcome.FatalErrorsAreCaused | subscription/client.go:428-433 | a fatal error and the receipts it carries come from an act of the run that calls for it |
| Fate.FateHolds | subscription/client.go:461-602 | at every moment at most one fatal error has been called for, and it is the one the worker carries until it finds itself cancelled |
| Fate.FatalIffDoomed | subscription/client.go:428-433 | a worker that ended without finding itself cancelled has a given fatal error, with given receipts, as its Err iff an act of its run called for exactly that |
| Fate.DoomEndsTheStream | subscription/client.go:497-566 | after an error frame, a second ack, data or complete before the first ack, an event or receipt refused under `fail`, or a failed observer, nothing is dialled, written, read or accepted, and Err is that error unless cancellation is found first |
| Fate.ConnectionEndsForAReason | subscription/client.go:461-568 | a connection is closed only after a failed read or write, an aborted send, an accepted complete event or one of those fatal acts, and nothing is read, written or handled on it afterwards: every other frame leaves it open |
| Fate.CancelledIff | subscription/client.go:350-353 | the context is cancelled iff someone cancelled it or the worker has ended |
| Fate.CancelIsFoundIff | subscription/client.go:386-422 | each check finds the context cancelled iff it was cancelled before, and a send is given up only then |
| Fate.EveryAnswerIsPossible | subscription/client.go:390-487 | wherever the worker waits for the dialer, the socket, the observer, the sleep or the consumer, every answer is a step of the model |
| TerminalOutcome.ErrTellsTheLastDial | subscription/client.go:395-449 | Err speaks of a failed dial exactly when the last dial failed, and otherwise of a connection that was made |
| TerminalOutcome.ConnectionsAreClosed | subscription/client.go:407-420 | every dialled connection is closed exactly once, in order, before the next dial or the end, so at most one is open |
| TerminalOutcome.NothingFollowsTheError | subscription/client.go:428-449 | after the terminal error there is no further dial, write, read, event, receipt or gap |
| TerminalOutcome.WindingUpIsForGood | subscription/client.go:422-433 | once the worker has decided to stop only the consumer acts until it finishes |
| TerminalOutcome.WorkerIsNeverStuck | subscription/client.go:385-602 | in every reachable state of a worker that has not stopped some act of its own is enabled: no deadlock |
| ReceiptLedger.ObservedIsTheWire | subscription/client.go:470-487 | observeReceipt is called for exactly the frames written or read successfully, in worker order across epochs |
| ReceiptLedger.WireIsSettled | subscription/client.go:229-278 | every frame on the wire is settled except possibly the last, and a refused one is carried by a fatal error unless cancellation is found |
| ReceiptLedger.SettledAreAccountedFor | subscription/client.go:244-267 | under either policy and any interleaving of drains, receipts drained or displaced followed by those retained are the settled ones in order, and DroppedReceipts counts the displaced |
| ReceiptLedger.AdmissionIff | subscription/client.go:244-270 | in every run a receipt is not retained iff the capacity is zero, kept iff fewer than the capacity are held, displaces the oldest iff exactly the capacity are held under drop_oldest, and is rejected iff they are under `fail` |
| ReceiptLedger.DropOldestNeverRefuses | subscription/client.go:255-266 | under drop_oldest every refusal is the observer's, and Err is never a receipt overflow |
| ReceiptLedger.FailClosedTranscriptIsComplete | subscription/client.go:229-278 | with `fail` and positive capacity, drains followed by retained receipts are the complete wire transcript but for a last refused receipt, which Err carries unless cancellation was found |
| GapLedger.GapBufferIsSlidingWindow | subscription/client.go:216-227 | after any number of gaps the shifted buffer is the newest max(1, receiptCapacity) of them, and length + DroppedGaps() is their number |
| GapLedger.GapHistoryIsComplete | subscription/client.go:408-415 | one reconnect gap for each epoch from 2 on in order, one overflow gap for each receipt displaced or rejected, and at most one stream-ending gap, which is the last |
| GapLedger.StoppedGapHistory | subscription/client.go:229-278 | once Wait can return both counts are exact, with nothing pending |
| GapLedger.MarksHold | subscription/client.go:468-555 | firstDataAfterReconnect holds exactly until the first data event of a connection after the first |
| GapLedger.ReconnectGapMarksFirstData | subscription/client.go:468-555 | ReconnectGap is true on exactly the first data event built on each connection above 1, and on no other event |
| GoSlice.Slice.constructor | subscription/client.go:335-343 | the nil slice |
| GoSlice.Slice.Append | subscription/client.go:225 | one element more at the end, in the old array or in a fresh one |
| GoSlice.Slice.ShiftIn | subscription/client.go:219-220 | the in-place shift drops the oldest element, adds the new one and keeps the array |
| GoSlice.Slice.Clear | subscription/client.go:176-177 | the buffer is empty, keeps its array, and the array retains nothing |
| GoSlice.Slice.Copy | subscription/client.go:175 | a fresh array with the same contents |
| SubscriptionStream.Stream.constructor | subscription/client.go:334-343 | a new stream shows the start of a run |
| SubscriptionStream.Stream.Receive | subscription/client.go:594-600 | a receive takes the oldest buffered event, and is one act of the run |
| SubscriptionStream.Stream.DrainReceipts | subscription/client.go:172-179 | returns what was retained in an array of its own, which stays as it is, and leaves nothing |
| SubscriptionStream.Stream.Cancel | subscription/client.go:118-119 | the context stays cancelled |
| SubscriptionStream.Stream.Receipts | subscription/client.go:163-167 | a copy that shares no array with the buffer and stays as it is |
| SubscriptionStream.Stream.Gaps | subscription/client.go:184-188 | a copy that shares no array with the buffer and stays as it is |
| SubscriptionStream.Stream.Perform | subscription/client.go:163-188 | one act of the consumer is one act of the run, and leaves the worker alone |
| SubscriptionStream.Stream.Pause | subscription/client.go:169-179 | between two steps the consumer may receive, drain, copy and cancel, and changes nothing else |
| SubscriptionStream.Stream.OfferEvent | subscription/client.go:572-576 | the event is sent iff fewer than max(1, capacity) are buffered, as one act of the run |
| SubscriptionStream.Stream.EvictEvent | subscription/client.go:590-594 | the oldest event leaves unless the consumer has emptied the channel |
| SubscriptionStream.Stream.CountEviction | subscription/client.go:592 | an eviction raises Dropped() by one |
| SubscriptionStream.Stream.SendEvent | subscription/client.go:595-596 | the last send of enqueue always finds room |
| SubscriptionStream.Stream.Check | subscription/client.go:386 | reads the cancellation of the moment |
| SubscriptionStream.Stream.SetConn | subscription/client.go:190-194 | the connection field follows dial and close |
| SubscriptionStream.Stream.SetErr | subscription/client.go:196-202 | the first error is kept, and no second one is ever set |
| SubscriptionStream.Stream.NextDelivery | subscription/client.go:204-214 | the delivery gets the next receive sequence and the current epoch, unflagged |
| SubscriptionStream.Stream.PushGap | subscription/client.go:218-225 | shifting or appending in place is the bounded push, and touches no slice handed out |
| SubscriptionStream.Stream.AddGap | subscription/client.go:216-227 | the in-place buffer and its counter follow the run |
| SubscriptionStream.Stream.PushReceipt | subscription/client.go:245-258 | below the capacity the receipt is appended, at the capacity it replaces the oldest and is counted under drop_oldest, or is rejected under `fail`; the in-place buffer refines admission, and no slice handed out is touched |
| SubscriptionStream.Stream.AdmitReceipt | subscription/client.go:244-270 | admission is one act of the run, and decides where the worker goes |
| SubscriptionStream.Stream.AddGapNext | subscription/client.go:231-237 | the gap is recorded under its own lock, with consumer acts before it |
| SubscriptionStream.Stream.RetainReceipt | subscription/client.go:244-278 | goes on, or fails for good with the rejected receipt, after its gap |
| SubscriptionStream.Stream.AskObserver | subscription/client.go:230-231 | the observer's own answer is what counts, and without an observer nothing is refused |
| SubscriptionStream.Stream.ObserveReceipt | subscription/client.go:229-278 | the worker goes on exactly when nil is returned, and otherwise leaves serve with that very error |
| SubscriptionClient.Client.TrySend | subscription/client.go:572-576 | sends exactly when the channel has room |
| SubscriptionClient.Client.TryDrop | subscription/client.go:590-594 | evicts the oldest event unless the consumer has emptied the channel meanwhile |
| SubscriptionClient.Client.CountDrop | subscription/client.go:592 | the eviction is counted after it happened |
| SubscriptionClient.Client.SendOrDone | subscription/client.go:595-600 | sends, for there is always room; either ready case of the select may be taken, and the send is given up only when the context is cancelled |
| SubscriptionClient.Client.Enqueue | subscription/client.go:571-602 | nil means that serve may go on from this event, an error that it must return it |
| SubscriptionClient.Client.WriteJSON | subscription/client.go:613-631 | the write fails iff the socket refused it; nil means that the frame was written and its receipt admitted |
| SubscriptionClient.Client.ReadFrame | subscription/client.go:470-475 | the frame is the one that the socket delivered, with the next sequence in the current epoch; a failed read ends serve |
| SubscriptionClient.Client.NextFrame | subscription/client.go:470-487 | a frame reaches the switch only with its receipt admitted |
| SubscriptionClient.Client.Classify | subscription/client.go:489-497 | the switch goes where the transition system says |
| SubscriptionClient.Client.HandleAck | subscription/client.go:498-514 | the first ack is answered with the subscription, a second one is fatal |
| SubscriptionClient.Client.HandleComplete | subscription/client.go:535-547 | serve reports completion iff the event was accepted on an acknowledged connection |
| SubscriptionClient.Client.HandleData | subscription/client.go:550-566 | the first data event after a reconnect carries the flag, and data before the ack is fatal |
| SubscriptionClient.Client.HandleControl | subscription/client.go:516-533 | pings, keepalives, error frames and unknown frames |
| SubscriptionClient.Client.Handle | subscription/client.go:497-566 | each branch leaves exactly the local variables, or returns exactly the triple, that the transition system calls for |
| SubscriptionClient.Client.OneFrame | subscription/client.go:469-567 | one turn of the frame loop, which uses up a frame or returns |
| SubscriptionClient.Client.Serve | subscription/client.go:461-568 | terminates on every script and returns the triple that its run calls for, leaving what run keeps |
| SubscriptionClient.Client.Check | subscription/client.go:386-394 | decides on the cancellation found at that moment |
| SubscriptionClient.Client.Sleep | subscription/client.go:401-403 | asks for the backoff of this attempt, without a hint; a failed sleep ends the worker without an error |
| SubscriptionClient.Client.Fail | subscription/client.go:396-398 | the error is set and the worker exits |
| SubscriptionClient.Client.Connect | subscription/client.go:390-408 | the connection is made iff the dialer makes it, and begins the next epoch with its connection installed |
| SubscriptionClient.Client.Dial | subscription/client.go:390-415 | after a successful dial serve starts afresh, and a reconnect has been recorded |
| SubscriptionClient.Client.Retry | subscription/client.go:442-455 | sleeps on the next attempt while there is budget and fails otherwise |
| SubscriptionClient.Client.Redial | subscription/client.go:391-405 | a failed dial is final only once cancelled, out of budget or after a failed sleep |
| SubscriptionClient.Client.CloseConn | subscription/client.go:419-420 | the connection is given up before anything is decided |
| SubscriptionClient.Client.Judge | subscription/client.go:422-455 | cancellation, completion, fatal error, acknowledged connection and lost connection are told apart in this order |
| SubscriptionClient.Client.Begin | subscription/client.go:385-390 | the loop dials only when not cancelled |
| SubscriptionClient.Client.Session | subscription/client.go:417-455 | one connection from its first write to the decision after it |
| SubscriptionClient.Client.Attempt | subscription/client.go:390-455 | one dial and what follows from it keep the loop's variables in step with the run |
| SubscriptionClient.Client.Turn | subscription/client.go:385-456 | one turn of the reconnect loop, which uses up a part of the script or ends |
| SubscriptionClient.Client.ReleaseWaiters | subscription/client.go:352-353 | the context is cancelled and Wait may return while Events is still open |
| SubscriptionClient.Client.Finish | subscription/client.go:351-353 | the deferred calls in reverse order: Events is closed last |
| SubscriptionClient.Client.RunOn | subscription/client.go:385-456 | from any head of the loop the worker terminates on every script |
| SubscriptionClient.Client.Run | subscription/client.go:350-457 | the whole worker terminates on every script and its log is a run; delivered and buffered are the accepted events without the evicted, Dropped() counts the evicted, Err is nil iff completed, cancelled or a sleep failed, no connection is left, the gap buffer is the newest window, and every slice handed out at any time still holds what it held |
| SubscriptionClient.Client.HandOut | subscription/client.go:163-188 | three slices with the contents of the moment, on arrays of their own |
| SubscriptionClient.Client.SlicesStay | subscription/client.go:163-188 | slices from DrainReceipts, Receipts and Gaps, taken between any two connections or on the way, still hold what they held when the worker has ended, whatever was appended, shifted and cleared in place since |
| Backoff.Delay | retry.go:84-112 | the step-by-step computation is the specified delay, on wrapping 64-bit integers |
| Backoff.RetryableStatus | retry.go:73-80 | found iff listed |
| Backoff.DelayIsBounded | retry.go:84-112 | for every attempt number, hint and jitter, shifts that overflow included: 0 <= delay <= MaxDelay + floor(MaxDelay * Jitter) |
| Backoff.DelayIsPromisedIff | retry.go:95-98 | without jitter the delay is min(MaxDelay, BaseDelay * 2^(n-1)) iff the shift does not overflow or its remainder still reaches the cap |
| Backoff.DelayGrows | retry.go:95-98 | while the shift does not overflow the delay never shrinks with the attempt |
| Backoff.DelayStaysNearPromised | retry.go:100-107 | with jitter the delay is within the jitter factor of the promised one |
| Backoff.JitterReachesBothEnds | retry.go:100-107 | the jitter is spent in full: a source that draws 0 takes the whole spread off the capped delay, one that draws 2 * spread adds it, and the spread is the delay times the jitter factor |
| Backoff.AttemptsStartAtOne | retry.go:84-87 | attempt numbers below 1 give the delay of attempt 1 |
| Backoff.DefaultSchedule | retry.go:38-48 | the default policy makes 4 attempts, after 5, 10, 20, 40, then 60 seconds before jitter of a quarter |
| Backoff.BackoffCollapses | retry.go:95 | from attempt 65 on the delay is zero where the cap is promised |
| Backoff.DefaultPolicyHorizon | retry.go:38-48 | the default policy keeps its promise for attempts 1 to 31 and not for 32 |
| Backoff.HintWins | retry.go:88-93 | a positive hint gives min(hint, MaxDelay) |
| TokenBucket.RunKeepsFit | ratelimit.go:63-74 | 0 <= tokens <= rpm in every run whatever the clock does, and credit comes from elapsed bucket time only |
| TokenBucket.WindowSpends | ratelimit.go:42-78 | the grants of any window cost no more than a full bucket and the time of the window |
| TokenBucket.WindowBound | ratelimit.go:42-78 | any k grants of any waiters within bucket times s to t satisfy k <= rpm + (t - s) / perToken, even if the clock steps back |
| TokenBucket.IdleBucketGrantsRpm | ratelimit.go:31-78 | a bucket left idle for rpm * perToken grants exactly rpm of the polls made at one clock reading, no more and no fewer |
| TokenBucket.RefillTwice | ratelimit.go:63-74 | refilling at t1 then t2 is refilling once at t2 |
| TokenBucket.RefusedPollsLeaveNoTrace | ratelimit.go:46-55 | the granted polls alone would all be granted and lead to the same bucket up to a refill |
| TokenBucket.NextPollIsGrantedIff | ratelimit.go:46-59 | after a refused poll the next is granted iff the clock has passed the missing time, at most perToken |
| TokenBucket.EarlierPollsStand | ratelimit.go:46-60 | later polls never change what an earlier one was told |
| TokenBucket.PerToken | ratelimit.go:76-78 | the whole nanoseconds per token: p * rpm <= 60,000,000,000 < (p + 1) * rpm, and at least one iff the rate is at most one request per nanosecond |
| TokenBucket.RateLimiter.constructor | ratelimit.go:31-39 | a full bucket at the current time |
| TokenBucket.RateLimiter.RefillLocked | ratelimit.go:63-74 | adds the elapsed time up to a full bucket, fills it at once where a token takes no time, and ignores a clock that stepped back |
| TokenBucket.RateLimiter.TryTake | ratelimit.go:47-55 | one poll of the shared run: granted iff a whole token is there, otherwise the exact missing time |
| TokenBucket.RateLimiter.TakeTurn | ratelimit.go:46-55 | a waiter's poll comes after those of the waiters that took the lock before it |
| TokenBucket.RateLimiter.Wait | ratelimit.go:42-61 | among any other waiters, succeeds exactly when the last of its own polls was granted, takes one token at most, sleeps after each refused poll for exactly the time that it was short of, and gives up only on a failed sleep; no rate, no wait |
| TokenBucket.RateLimiter.WaitAlone | ratelimit.go:42-61 | a waiter that is alone has its token after at most two polls and one sleep, for exactly the missing time and at most perToken, if the clock moves on by the time slept |
| TokenCache.CacheIsLastFetch | token.go:116-192 | the cache is what the last successful fetch put there; a failed fetch leaves it unchanged |
| TokenCache.TokensComeFromTheirSource | token.go:116-131 | a returned token is the one its source fetched, and one served from the cache at t satisfies t < fetchTime + L - min(60s, L/10) |
| TokenCache.IssuedTokensAreUsedIff | token.go:175-191 | a call that the cache does not serve returns and caches the token of its response iff the token is not empty and expiresIn is at least 1; otherwise it fails and changes nothing |
| TokenCache.CacheIsUsedIff | token.go:116-131 | the token of the last fetch is returned iff the call is Token and the serving time is not over; Refresh never returns it |
| TokenCache.ServedBeforeExpiry | token.go:184-190 | the serving time is positive and strictly shorter than the lifetime |
| TokenCache.LifetimeFitsIff | token.go:185 | the lifetime is the server's iff it fits a 64-bit duration, and otherwise too short by a multiple of 2^64 nanoseconds |
| TokenCache.OverAtOnceIff | token.go:184-190 | a token is over at once iff its wrapped lifetime is not positive, with one input of each kind; an hour is served for 59 minutes, five minutes for four and a half |
| TokenCache.FetchesAreSpaced | token.go:116-124 | a fetch made by Token comes no sooner than the serving time after the fetch before it |
| TokenCache.LastFetchIsLast | token.go:135-192 | no fetch is overlooked |
| TokenCache.TokensAfterRefreshAreFresh | token.go:127-131 | after a successful Refresh no call returns a token fetched earlier, so the token sent after a 401 is never older |
| TokenCache.ClientCredentialsProvider.constructor | token.go:109-111 | an empty cache |
| TokenCache.ClientCredentialsProvider.Fetch | token.go:175-191 | caches the token until its serving time is over, and changes nothing on failure |
| TokenCache.ClientCredentialsProvider.Token | token.go:116-124 | one call of the history of calls, with the answer that history gives |
| TokenCache.ClientCredentialsProvider.Refresh | token.go:127-131 | the same, past the cache |
| BodyEvidence.ReadOnce | util.go:25 | a read gives a prefix of what is left and reports its end once and for all |
| BodyEvidence.Body.Read | util.go:25 | the reader moves on by exactly that read |
| BodyEvidence.Captured | util.go:25 | for every chunking and every choice of buffers: the bytes read are a prefix of the stream up to the bound, all of it unless the bound was reached, and an error is the body's own |
| BodyEvidence.ReadAllLimited | util.go:25 | the loop that fills the buffer captures exactly that and leaves exactly the rest |
| BodyEvidence.CaptureIsTrue | util.go:20-37 | the raw bytes are a prefix of length at most limit + 1; exactly one of ReadComplete, ReadError and LimitExceeded holds, and each tells the truth about the stream |
| BodyEvidence.ReadLimitedEvidence | util.go:20-37 | fills in that evidence field by field, with the error that goes with it |
| BodyEvidence.EvidenceIsDetermined | util.go:20-37 | flags and bytes follow from the body alone, however it is chunked, but for a failure right at the limit |
| BodyEvidence.LargestLimitTellsIff | util.go:25 | at the largest limit the evidence is true iff the body is empty |
| ReplayGate.IndexOfLine | executor.go:386 | the first line feed and what follows it |
| ReplayGate.IsRetryableRead | executor.go:383-399 | the loop over comments terminates and decides what the specification function says |
| ReplayGate.GateAgainstSpec | executor.go:385-398 | the comment loop against GraphQL lexing, for a document that may have lost white space at its end |
| ReplayGate.RetryableStartsQueryIff | executor.go:383-399 | a document that passes starts with `{` or the whole Name query, by GraphQL lexing, iff its leading comments are clean or what they hide opens a query |
| ReplayGate.CleanDocumentsAreSafe | executor.go:379-399 | with clean leading comments, a document whose first token is mutation, subscription, fragment or anything but a query never passes |
| ReplayGate.GateWithoutComments | executor.go:392-408 | without leading comments the gate passes iff the first token opens a query and, after the Name `query`, a space, tab, carriage return, line feed, `(`, `{` or `@` follows |
| ReplayGate.RefusedQueryIff | executor.go:392-408 | the documents without leading comments that start with a query and are refused are exactly those with any other character right after the Name `query` |
| ReplayGate.UsualQueriesPass | executor.go:383-408 | blanks, then any number of comment lines with any white space after each, then a brace or `query` with its delimiter: every such document passes |
| ReplayGate.SpaceByCode | executor.go:384-390 | the white space that is trimmed, by code points |
| ReplayGate.HiddenTextPasses | executor.go:385-391 | a family of documents whose first token is hidden, a mutation for one, and that pass |
| ReplayGate.CommentLineChangesNothing | executor.go:385-391 | a comment line before a trimmed document leaves the decision as it was |
| OperationSelection.StartsQueryIff | executor.go:392-397 | the first-token test agrees with the tokens of the whole document |
| OperationSelection.FirstOperationIsQuery | executor.go:379-397 | a document that starts with a query has a query for its first operation |
| OperationSelection.SelectedIsQueryIff | executor.go:379-399 | for such a document the executed operation is a query iff the request names none, the first, or a later query |
| OperationSelection.ReplayedRequestIsQuery | executor.go:379-399 | a cleanly commented document that passes the gate runs a query, if it holds one operation or the request names none or the first |
| OperationSelection.SecondOperationIsMutation | types.go:90-94 | a family of documents that pass the gate, without any comment, and run a mutation when the request names it |
| Executor.ReplyIsTrue | executor.go:221-251 | for every body and chunking: status, Retry-After hint, parse outcome and "temporarily blocked" mark are the response's own, the evidence is true, Complete iff ReadComplete and not CloseError and then the whole body is there, and an error is reported iff the body is not complete |
| Executor.CompleteIff | executor.go:241-250 | a response is complete iff its body ends and closes without an error and has at most 67,108,864 bytes |
| Executor.ClassifyIff | executor.go:336-353 | which status and body give which kind, and which are marked temporary, both ways |
| Executor.ClassifyOAuthIff | token.go:194-213 | the same for the token endpoint |
| Executor.RoundTrip | executor.go:221-251 | goes out with the token that it is given, and reads and closes the body of its own response, with that result |
| Executor.WithReceipts | executor.go:204-219 | the caller finds the earlier receipts followed by the new ones; a typed error stays the same object, any other becomes a transport error |
| Executor.SharedErrorsGather | executor.go:208-212 | an error kept by its owner shows only this request's receipts iff it had none and none were added before |
| Executor.TurnsAreBounded | executor.go:132-201 | at most MaxAttempts turns, and one more after a refresh |
| Executor.PausesAreBounded | executor.go:147-195 | at most one refresh, and sleeps only before the last attempt |
| Executor.TripsFollowTurns | executor.go:132-201 | between two trips lies exactly one sleep or refresh |
| Executor.DoIsBounded | executor.go:125-201 | at most MaxAttempts + 1 round trips, one refresh and MaxAttempts - 1 sleeps whatever happens; a document that is no retryable read goes out at most once, without refresh or sleep |
| Executor.OnlyReadsAreReplayed | executor.go:125 | a cleanly commented document that opens no query is sent at most once |
| Executor.RetriesAreJustified | executor.go:143-196 | every sleep follows a failed trip or a transient response and asks for the right attempt; a refresh follows a 401 |
| Executor.SurfacedHasNoBudget | executor.go:143-200 | an error surfaced with budget left is neither a failed trip nor transient; an answer is an unbroken 2xx |
| RetryRules.TripsFollowTheRules | executor.go:132-201 | every trip of every course is followed by exactly what its reply asks for, both ways: the first 401 of a replayable call, on any attempt, by a refresh; a failed trip not cancelled, or a listed or blocked status, with budget left, by a sleep for that attempt with the reply's hint; anything else by the end with the exit that belongs to it; and a refresh or sleep that succeeds by the next turn |
| RetryRules.FirstTripIsRuled | executor.go:132-201 | the same for the first trip from any turn on, and no trip iff the token fails |
| Executor.PassedOnFromTurn | executor.go:147-195 | an error that is passed on is what the sleep or the refresh of the last turn returned, and the reply of that turn called for it |
| Executor.TemporaryWithBudgetIff | executor.go:143-200 | with the default statuses, a replayable document and budget left, the returned error is Temporary iff the last turn slept or refreshed and its sleep or refresh returned a Temporary error |
| Executor.TemporaryErrorsExhaustTheBudget | executor.go:188-200 | if the sleep and the provider bring in no Temporary error, one is returned only if the document is not replayable, MaxAttempts <= 1, or the attempts are used up |
| Executor.OutageOfRefreshIsSurfaced | executor.go:180-186 | the failing input: a 401, then a refresh answered with 429 or 5xx, returns a Temporary error on attempt 1 of 4 |
| Executor.UnlistedIsFinalIff | executor.go:188-200 | any response that is no success, not listed and not due for a refresh ends the loop iff its body does not say "temporarily blocked" or there is no budget, at every trip of every run |
| Executor.NeverRetriedIff | executor.go:180-200 | the same for 400, 402, 403, 404 and 401 after a refresh with the default statuses |
| Executor.BlockedResponseIsRetried | executor.go:188-196 | a family of runs in which a 400, 402, 403 or 404 is followed by a sleep and a second trip |
| Executor.RetriedIsTemporaryIff | executor.go:188-200 | with the default statuses a response may be retried iff it is marked Temporary when surfaced, except exactly 401, 402 and 403 with a "temporarily blocked" body |
| Executor.FailedTripsAreRepeated | executor.go:143-152 | while the connection fails exactly MaxAttempts trips are made |
| Executor.MutationsAreSentAgain | executor.go:125-152 | mutations hidden in a comment, or second in their document, are sent MaxAttempts times |
| Executor.ResentRequestIsQuery | executor.go:125-201 | what is sent more than once runs a query, if its leading comments are clean and the request names no operation or the first |
| Executor.ObservedAreTheTurns | executor.go:139-142 | the receipts observed are those of the turns, one for each response with a status, in order |
| Executor.SeenAreTrue | executor.go:139-142 | each receipt is true of the body that one of the turns read |
| Executor.AnswerIsTheLast | executor.go:163-178 | an answer is the complete reply of the last turn, with a 2xx status |
| Executor.CourseIsEvident | executor.go:139-178 | for every chunking, every receipt tells the truth about its body and an answer holds the whole body |
| Executor.Settle | executor.go:140-201 | what a turn makes of its reply: goes on or returns as specified, with the receipts so far and this response's, after the delay specified |
| Executor.SettleFailure | executor.go:143-152 | the same for a trip that failed |
| Executor.SettleStatus | executor.go:180-200 | the same for a response that is no success |
| Executor.TakeTurn | executor.go:133-201 | the same for a whole turn, from the token to the body of the response |
| Executor.Sleep | executor.go:148-150 | sleeps for the backoff of this attempt and hint; a failed sleep is surfaced with its own receipts first, then this request's |
| Executor.NextTurn | executor.go:132-201 | each turn stays on the specified course of the loop |
| Executor.Attempts | executor.go:132-201 | the loop runs the specified course, terminates, and reports its exit |
| Executor.Do | executor.go:99-202 | on every exit the receipts of the outcome are exactly one per observed response in order, after those a passed-on error had, and each is true of the body read; a result is returned only for a 2xx and holds the whole body; the kind, status and Temporary mark of every error; each trip carries the token obtained for it, and each sleep lasts the backoff of its attempt, hint and draw |
| RequestPacing.TripsPerCall | executor.go:113-201 | calls let through by the limiter make at most MaxAttempts + 1 requests each |
| RequestPacing.PacedTrips | ratelimit.go:42-78 | the calls granted between bucket times s and t make at most (rpm + (t - s) / perToken) * (MaxAttempts + 1) requests |
| RequestPacing.OneWaitPerRequestIff | ratelimit.go:9-13 | one Wait per request, in every environment, iff the call is never retried |
| RequestPacing.TokensAreSent | executor.go:134-139 | each trip carries the token that its own turn obtained |
| RequestPacing.TokenAfterRefreshIsFresh | executor.go:134-185 | the trip after a 401 refresh carries a token fetched by that refresh or later, whoever else uses the provider |

## Left out

- Sockets, `CoderDialer`, `http.Client`, TLS and the OAuth wire format: scripted outcomes stand for them.
- JSON encoding and decoding: a frame carries its decoded kind, a response says whether it parses; the frame type strings of the two subprotocols would only add an easy table.
- Logging, redaction and error message texts.
- Wall-clock timestamps (`ReceivedAt`, `ObservedAt`, `CapturedAt`), and the wrap-around of the 64-bit counters for epochs, sequences and drops.
- SubscriptionStream.Stream.Cancel: models the cancellation in `Close`, not that `Close` also closes the socket itself and then waits; a connection torn down by the consumer shows as a failing read or write.
- SubscriptionStream.Stream.Untouched: the consumer keeps the slices it is given but does not write to them.
- Fairness of the scheduler: safety holds for every interleaving, progress is stated as "never stuck" and as termination on every finite script.
- SubscriptionClient.Client.Run: the environment is a finite script whose end is a cancellation; unbounded runs are covered by the theorems on runs, which speak of every finite log.
- Backoff.DelayOf: the jitter factor is an exact rational; the rounding of the product of two floating-point numbers is not modelled.
- TokenBucket.PerMinute: floating-point rounding of tokens, which are exact credits here.
- Backoff.DelayIsBounded: assumes of a jitter source that a draw below n lies in [0, n); a source that panics on an empty range, which only a cap of 2^62 nanoseconds or more can ask for, is not modelled.
- Executor.Classify: whether a body says "temporarily blocked" is a flag of the reply; the lower-casing and the search are library calls.
- Executor.Do: the limiter and the provider answer by script; `RequestPacing` says what follows when they are the token bucket and the caching provider.
- OperationSelection.Tokens: numbers and strings are cut coarsely, and whether a document is valid is not checked; invalid UTF-8 and the characters that a comment may hold are not modelled.
- `parseRetryAfter` and HTTP dates: the hint is an arbitrary integer.
- The Strict mode wrapper, configuration options, endpoint resolution, `v1` and `v2` queries and projections: thin wrappers and constant data.
