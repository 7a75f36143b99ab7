# Fronta in Dafny

Fronta is a task queue kept in PostgreSQL: many workers, a reaper, operators, publishers and feed
consumers step on shared rows, and nothing but fenced statements keeps them apart. This project
models its protocols as machines whose schedules are chosen by an adversary, and proves what the
code claims of every run. `dafny verify dfyconfig.toml` checks it.

How to read it: each machine has a `Step` datatype, a function `Next` from state to state, and
`Exec`, the state after any finite schedule. A step whose guard does not hold changes nothing, so a
theorem over `Exec(steps)` is a theorem over every reachable state. Where the source is an object
whose methods update its fields, a class with those fields stands beside the machine and each method
is proved to take exactly the machine's step. What such an object remembers of shared state between
two of its own steps is proved to survive every step of everybody else, so the theorems hold of it.

| files | what they model |
|---|---|
| `Rows`, `Fleet`, `FleetLease`, `FleetTangle`, `FleetHistory`, `FleetOutcomes`, `FleetBudget`, `FleetFence`, `FleetOperations` | one task row and every statement of `store.py` on it; workers that claim, renew, complete and release while replies are lost, repeated and reordered |
| `Store` | `enqueue`'s insert-or-find loop with other clients stepping in, and the batch completion statement |
| `Feed`, `FeedPurity`, `FeedDelivery`, `FeedNoGap`, `FeedBackfill`, `FeedRuns`, `FeedSnapshots`, `FeedOperations`, `FeedLate`, `FeedStray`, `FeedOutbox`, `FeedObjects` | the transactional outbox: publishing transactions, row locks on the registration, backfill behind a transaction barrier, delete-on-acknowledge delivery, unsubscribe |
| `Completions`, `CompletionsSteps`, `CompletionsRuns` | the worker's coalescing completion batcher |
| `Attempts` | one attempt: controller, runner and sandbox |
| `Renewal` | the real-time bound of the lease renewal loop |
| `Hints` | the coalesced wake, cancel and feed hints |
| `Codec`, `Decoding`, `Truncation`, `Graph` | JSON under byte caps, reading it back, shrinking error metadata, the walk over object graphs |

Text is a sequence of code points; escapes follow section 7 of RFC 8259 and byte counts section 3 of
RFC 3629.

## What the code does not keep

Five promises hold only under a condition. Each has a run or an input that breaks it and the exact
condition under which it holds.

1. *Lease exclusion.* A worker tracks attempts by task id (`worker.py:793-801`). If it claims a task
   again while its previous attempt of the same task is still ending, that end unregisters the new
   attempt and an orphan release can give a live lease away (`FleetTangle.TangledRunBreaksExclusion`).
   Starting a row endangers exclusion exactly when its task is still tracked, is still there and has
   not succeeded (`FleetTangle.StartIsSafeIff`). The second way is an orphan release that is resent
   after a lost connection and whose first copy is run late, with its old list of live ids
   (`FleetTangle.LateRunBreaksExclusion`). It endangers exclusion exactly when it finds a row whose
   holder may count on its lease, now or later: an attempt at work that has, or may still be told, a
   lease start younger than the lease, or a claim younger than that with its row still to be started
   (`FleetTangle.LateScanIsSafeIff`). No other step endangers it, so a run is out of danger at every
   moment exactly when none of its steps is of these two kinds (`FleetTangle.SafeRunsIff`), and then
   exclusion holds (`FleetLease.LeaseExclusion`).
2. *Unsubscribe.* It deletes the registration, then the name's events. When the first statement finds
   nothing it locks nothing, and the second can delete events of a registration created in between
   (`FeedStray.UnsubscribeRace`). A first statement that has to wait can end up the same way on a
   name that was registered: another unsubscribe is done first (`FeedStray.OverlapRace`). A call
   under way is safe exactly when it holds the row (`FeedStray.UnderWayIsSafeIff`), and seen when it
   is made, exactly when the name is registered and nobody holds a lock on its row
   (`FeedStray.UnsubscribeIsSafeIff`).
3. *Error metadata.* `error_metadata` is documented to return a storable value always; it raises
   exactly when the class's qualified name is not storable, since only message and traceback are
   sanitized (`Truncation.ErrorMetadataIsKept`, `Truncation.UnstorableTypeNameRaises`). The outcome is
   still recorded exactly when the first 64 code points of that name are storable
   (`Truncation.FailureIsRecordedIff`).
4. *Completion batcher.* Closing it between the creation of its task and that task's first step leaves
   outcomes pending with nobody to resolve them (`CompletionsRuns.ClosedTooEarly`); this is the only way
   (`CompletionsRuns.NothingStaysPendingIff`).
5. *Renewal budget.* The budget is documented to leave room for a retry before the lease ends. Its floor
   of 0.05 s breaks that for very short leases, which the settings accept: it holds in every run of the
   loop exactly when half a heartbeat and two budgets fit in the lease (`Renewal.RetriesInTimeIff`).

## Model

| member | source | states |
|---|---|---|
| FleetLease.LeaseExclusion | src/fronta/worker.py:860-916 | in every run in which no worker starts a row it still tracks, unless the task is over, and no orphan release runs so late that it finds a row whose holder may count on its lease, an attempt that is not lost, has submitted nothing and is within its own reckoning of the lease holds its row's current token with at least that lease, no reap matches the row, and no other attempt of the task on any worker is in that position |
| FleetLease.StepKeepsLease | src/fronta/worker.py:734-775 | every step but the start of a tracked open task keeps the lease invariant: every confirmed lease start, of attempts, of claims not yet started and of replies still on the wire, is backed by the row, spent by a completion, or over |
| FleetLease.StepKeepsSpent | src/fronta/worker.py:763-791 | every orderly step keeps it so that nobody counts, or ever will, on a token with a completion on the wire |
| FleetLease.StepGivesNoHope | src/fronta/worker.py:860-916 | once the holder of a token cannot come to count on its lease, no step brings that back: not a late or repeated reply, a renewal still on the wire, a reordered lease start or a reclaim |
| FleetLease.OnlyOwnersEnd | src/fronta/store.py:149-212 | in a state of the invariant, a step takes a row from a token's holder only by delivering that token's own completion or reaping a lease that has run out, and otherwise leaves the lease alone or renews it for a whole lease from now |
| FleetTangle.ExclusionBreaksIff | src/fronta/worker.py:763-801 | after any orderly run, any step lets exclusion fail in some orderly future if and only if the step itself is out of order |
| FleetTangle.SafeRunsIff | src/fronta/worker.py:763-801 | over whole runs: exclusion is never in danger if and only if every step is orderly |
| FleetTangle.StartIsSafeIff | src/fronta/worker.py:793-801 | a start can lead to broken exclusion while nothing else is out of order if and only if the worker still tracks the task and the task is there and has not succeeded |
| FleetTangle.LateScanIsSafeIff | src/fronta/worker.py:763-775 | an orphan release run late with an old list of live ids can lead to broken exclusion if and only if it finds a row whose holder may count on its lease, now or later: an attempt at work with a lease start it has or may still be told that is younger than the lease, or a young claim still to be started |
| FleetTangle.ComesDue | src/fronta/store.py:181-222 | time, the reaper and operators can bring any task that is there and has not succeeded back into the queue, due, whatever it or the holder of its key is doing |
| FleetTangle.LateRunBreaksExclusion | src/fronta/store.py:153-157 | a concrete run: release sent, sent again, task claimed and started, first copy run |
| FleetTangle.RunsKeepRegistry | src/fronta/worker.py:793-801 | in every run, tangled or not, the registry names only unfinished attempts under their own worker and task, and a claimed row still to be started has no attempt yet |
| FleetTangle.RegistryIsCompleteIff | src/fronta/worker.py:800-801 | the registry names every unfinished attempt throughout a run if and only if no row is started whose id is still tracked |
| FleetTangle.TangledRunBreaksExclusion | src/fronta/worker.py:763-801 | a concrete run: reaped, claimed again by the same worker, unregistered by the first attempt's end, released as an orphan with a whole lease left |
| FleetHistory.NoActiveDuplicates | src/fronta/store.py:116-130 | never two queued or running rows of one type and key, requeues included |
| FleetHistory.PublishedHistoryIsTheLifecycle | src/fronta/store.py:181-222 | the published entries of a task walk the lifecycle automaton and replay to its row; attempt is the number of claims; failures are the charges since the last requeue and never exceed the budget; token and lease are set exactly while running and finished_at exactly when terminal |
| FleetHistory.TokensAreSpentOnce | src/fronta/store.py:149-157 | a token is granted by one claim and ended by at most one write, whatever is retried |
| FleetBudget.FailingTasksEnd | src/fronta/store.py:191-222 | since its last requeue a task is claimed at most max_attempts times beyond the executions that put it back uncharged, and once it has been it is running its last time or terminal |
| FleetHistory.PublishedWritesMoveTokens | src/fronta/complete.sql:10-30 | a published write either grants a fresh token to a tokenless row or leaves the row tokenless, and an unpublished one moves neither token nor state |
| FleetFence.RetriesRefineApplyOnce | src/fronta/worker.py:1006-1045 | any schedule with retried, reordered and late completion deliveries ends exactly where a schedule ends that delivers at most one completion per token |
| FleetFence.EndedTokensAreInert | src/fronta/store.py:149-179 | once a token's execution has ended, no completion, renewal or progress write that carries it changes or publishes anything |
| FleetFence.CancelIntegrity | src/fronta/worker.py:847-890 | an attempt is stopped by CANCEL only if a request was committed under its own token, its acknowledgement is then refused only when the token is gone, and no queued row carries a request |
| FleetOperations.RequestReachesTheAttempt | src/fronta/worker.py:860-891 | the other direction: a renewal delivered after a request was committed under its token is answered with the flag or a refusal, and whenever that answer is received, whatever came in between, the attempt has a cause: the one it had, else CANCEL or LOST |
| FleetOperations.ReplyIsHeeded | src/fronta/worker.py:883-890 | a confirmed reply gives the attempt the lease start it answers and, if flagged, the cause CANCEL unless it has one; a refusal the cause LOST unless it has one; nothing else changes |
| FleetOperations.DecisionsStand | src/fronta/worker.py:183-189 | over any continuation an attempt keeps its cause, its settlement and what it submitted, and a lost or settled one that has not spoken never speaks |
| FleetOutcomes.EveryTaskIsExplained | src/fronta/complete.sql:8-30 | in every reachable state a task keeps the type, key and budget it was enqueued with; it is Succeeded exactly when its last write is the holder's completion of kind succeed, with that result; Failed exactly after a final failure, or a failure or reap that used up the budget, unrequested; Cancelled exactly when acknowledged, requested while queued, or ended with a request pending; Queued exactly when enqueued, requeued, released or retried; and its error, due time, worker and finish time are what its writes said last |
| FleetOperations.EnqueueAddsTheTask | src/fronta/store.py:116-125 | one fresh row holding what was asked for, or nothing at all where an active task has the same type and key |
| FleetOperations.ClaimTakesTheDue | src/fronta/claim.sql:112-118 | takes a row exactly when it is queued and due, under a token never drawn before, for a whole lease, counted as one more attempt, with its progress cleared |
| FleetOperations.LostClaimIsReleased | src/fronta/worker.py:747-775 | after a claim whose reply was lost, every row it claimed that the orphan release looks at, and the worker still holds and does not track, gets a release |
| FleetOperations.OrphansAreReleasedIff | src/fronta/store.py:153-157 | an orphan release, on time or late, releases exactly the running rows of its worker that it looks at and that its list of live ids does not name |
| FleetOperations.CompletionLandsIff | src/fronta/complete.sql:1-30 | a completion on the wire takes effect exactly when its token holds the row, and a cancel only if requested; then as the one published write of its kind |
| FleetOperations.RenewalExtendsIff | src/fronta/store.py:162-173 | the lease is extended by a whole one from now exactly when the token holds the row; the answer tells that and whether a cancel was requested |
| FleetOperations.ProgressIsStoredIff | src/fronta/worker.py:104-113 | stored exactly when the token holds the row; otherwise the attempt is lost |
| FleetOperations.CancelRequestLands | src/fronta/store.py:181-189 | ends a queued task at once, flags a running one keeping the first request, and does nothing else |
| FleetOperations.ReapTakesTheExpired | src/fronta/store.py:191-212 | takes a row exactly when its lease has run out by the statement's clock |
| FleetOperations.RequeueRevives | src/fronta/store.py:214-221 | revives a failed or cancelled task whose key is free, with its whole budget and no request; nothing otherwise |
| FleetOperations.PurgeForgets | src/fronta/store.py:256-262 | deletes a task exactly when it finished before the cut-off |
| Rows.WriteKeepsShape | src/fronta/store.py:181-222 | every statement that writes a row leaves it shaped: token and lease iff running, finished_at iff terminal, no cancel request on a queued row, a retry left while active |
| Rows.WritePublishesTheMove | src/fronta/store.py:94-113 | a published write takes an edge of the lifecycle automaton |
| Rows.FlaggedRowsEnd | src/fronta/complete.sql:16-18 | the next transition of a running row with a cancel request is terminal |
| Store.Enqueue | src/fronta/store.py:461-510 | with anybody's statements between its own: the first round that decides answers; an inserted id is fresh, its row holds the task as asked for, its key was free at the insert and it is the call's only write; an existing id is the only one active under the key at the lookup; a time-out comes in a round past the deadline whose insert met a holder of the key and whose lookup found none |
| Store.EnqueueTwice | src/fronta/store.py:484-510 | enqueued again under the same type and key while the first task is active, the second call answers with the first's id and adds nothing |
| Store.FoundWhileActive | src/fronta/store.py:499-504 | a call that finds a task active under its key, at its insert and at its lookup, answers with that task in its first round and writes nothing |
| Store.OneRound | src/fronta/store.py:484-510 | one insert and one lookup decide exactly: insert a row that holds the task when the key is free, return the active task the lookup finds, time out past the deadline, otherwise go round again |
| Store.FindActive | src/fronta/store.py:127-130 | finds an active row of the type and key if and only if there is one |
| Store.ReplayKeeps | src/fronta/store.py:116-125 | no trace of statements breaks the unique index on active keys |
| Store.CompleteBatch | src/fronta/store.py:566-580 | refused exactly for more than 256 outcomes or a repeated id; otherwise answers exactly the ids whose own token holds the row (and whose cancel was requested), with the state reached; each such row ends where its kind, a pending request and the budget say, with its result, error, charge, due and finish times; no other row is touched |
| Store.EachOnItsOwn | src/fronta/complete.sql:1-30 | each outcome of a batch is judged by the row it found before the batch: a stale one cannot hold up the others |
| Store.BatchOrderIsFree | src/fronta/complete.sql:1-30 | the order of a batch does not matter for the rows |
| Store.DistinctBySize | src/fronta/store.py:570-572 | comparing the number of distinct ids with the number of outcomes detects duplicates exactly |
| Store.BatcherIsNeverRefused | src/fronta/worker.py:384-399 | no write of a worker's batcher is ever refused by `complete` |
| FeedRuns.NoGap | src/fronta/feed.py:58-122 | for a backfilling registration with stable filters: once its marker has cleared, every retained task it asks for has had its current state published under its generation; before that, such a task is at worst ahead of its state's cursor |
| FeedNoGap.PollKeepsGap | src/fronta/feed.py:58-91 | once the transactions captured at the start have ended, none older than the registration is left |
| FeedNoGap.CommitKeepsGap | src/fronta/store.py:94-102 | a commit makes rows and events visible together; an old transaction may commit rows without events only while every cursor is still behind them |
| FeedNoGap.ScannedWillShow | src/fronta/store.py:245-254 | whatever a chunk's scan leaves out is ahead of the cursor the chunk leaves behind |
| FeedRuns.GenerationPurity | src/fronta/feed.py:161-197 | stored and buffered events, open chunks and open batches belong to the registration of the moment, and nobody acknowledges another generation's events, however often the name is recreated |
| FeedRuns.DeliveryConservation | src/fronta/feed.py:125-208 | every committed event is in exactly one of waiting, acknowledged, expired, dropped and strayed; a number names one event; open batches never share one |
| FeedRuns.AckTakesExactlyTheBatch | src/fronta/feed.py:131-140 | an acknowledgement removes exactly the events its batch was given, none of which can have gone meanwhile, and commits the batch's reactions with it |
| FeedLate.LateEventsAreNotSkipped | src/fronta/feed.py:175-181 | over whole runs, a committed event waits until a batch that was given it is acknowledged, it expires unheld, or an unsubscribe deletes it; and while it waits no batch is given a higher number without taking it too or leaving it to a batch that holds it |
| FeedLate.OvertakenOnlyByLower | src/fronta/feed.py:131-140 | acknowledging a batch that holds only lower numbers brings a waiting event exactly that many places forward, but for what the batch's own reactions publish |
| FeedRuns.BackfillRunsOnce | src/fronta/store.py:693-741 | over all resumers and rolled-back chunks, the ids a generation projects for one state strictly increase |
| FeedRuns.BackfillEnds | src/fronta/feed.py:103-120 | with ids bounded, each committed chunk leaves strictly less to do |
| FeedBackfill.ChunksMakeProgress | src/fronta/store.py:716-737 | a chunk lowers what remains and no cursor ever retreats |
| FeedSnapshots.BackfillShowsOnlyWhatIsAsked | src/fronta/store.py:245-254 | while its filters are unchanged a registration never gets a backfilled event, committed or in an open chunk, of a state or type it did not ask for |
| FeedSnapshots.BackfillShowsWhatWas | src/fronta/store.py:245-254 | every backfilled event shows a task with exactly the state, type and attempt it had when some chunk scanned it, of a type asked for then, and if terminal finished within the window |
| FeedOperations.RegisterInstalls | src/fronta/store.py:640-672 | the first registration draws a generation and installs filters, window and a marker with every state at its beginning; a later one changes the filters and nothing else |
| FeedOperations.DeliveriesFollowTheBackfill | src/fronta/feed.py:245-258 | no batch is opened, and no run reports that it finished, while its generation's marker is pending |
| FeedOperations.StatesInNameOrder | src/fronta/store.py:713-716 | the state projected next is the first pending one by name |
| FeedOperations.WritePublishesIff | src/fronta/store.py:94-113 | a statement writes the row it sees unless another transaction holds it, and with it exactly one event exactly if it publishes and the registration it saw is still there and both match; where an unsubscribe holds the registration the whole statement waits |
| FeedOperations.CrashLeavesNoTrace | src/fronta/store.py:699-700 | a chunk that is not committed leaves the marker, the backlog and the published events as they were and frees the row |
| FeedOutbox.OutboxFollowsTheLifecycle | src/fronta/store.py:94-125 | a task's committed moves walk the automaton and end at its row; each live event stands for one move, in sequence order; since a registration with stable filters a move has an event exactly if it matches |
| FeedStray.UnsubscribeIsSafeIff | src/fronta/feed.py:260-268 | an unsubscribe call can come to delete events of a live registration if and only if, when it is made, the name is not registered or somebody holds a lock on its row |
| FeedStray.UnderWayIsSafeIff | src/fronta/feed.py:264-268 | a call whose first statement has run or waits can do so if and only if it does not hold the row |
| FeedStray.OverlapRace | src/fronta/feed.py:260-268 | a run of two overlapping calls on a registered name, the second of which deletes an event of the registration made after it woke |
| FeedStray.NothingStraysIff | src/fronta/feed.py:260-268 | over whole runs, no event of a live registration is lost this way if and only if no unsubscribe that found nothing reaches its second statement while events wait |
| FeedStray.BlindStepsStray | src/fronta/feed.py:264-268 | such a second statement deletes the whole backlog while the registration stays |
| FeedStray.UnsubscribeRace | src/fronta/feed.py:260-268 | a concrete run that loses an event of a registration that lives on |
| FeedObjects.FeedClient.Anext | src/fronta/feed.py:161-197 | one turn of the consumer is its rollback followed by its pull; it stops exactly when the registration is gone or replaced |
| FeedObjects.FeedClient.AckBatch | src/fronta/feed.py:131-140 | refused without an open batch, otherwise the machine's acknowledgement |
| FeedObjects.FeedClient.RollBack | src/fronta/feed.py:155-159 | ends the open batch, so that its acknowledgement is refused from then on |
| FeedObjects.FeedClient.StaysValid | src/fronta/feed.py:143-160 | what the consumer knows, its generation, whether it is closed and its open batch with what it was given, survives any steps of everybody else |
| FeedObjects.FeedClient.DeliverThenAck | src/fronta/feed.py:131-197 | a delivery and its acknowledgement with anything in between: the acknowledgement removes exactly what was delivered |
| FeedObjects.BackfillRun.PollBlockers | src/fronta/feed.py:63-91 | the barrier opens exactly when none of the captured transactions is left; a replaced registration stops the run |
| FeedObjects.BackfillRun.LockRow | src/fronta/store.py:697-712 | a missing or replaced registration stops the run and a cleared marker finishes it |
| FeedObjects.BackfillRun.ScanRows | src/fronta/store.py:713-734 | the dictionary edited in place is the marker the chunk will commit: keys only leave, cursors only advance |
| FeedObjects.BackfillRun.CommitRows | src/fronta/feed.py:103-120 | the counters count exactly the events inserted, and the run is over when nothing is pending |
| FeedObjects.BackfillRun.StaysValid | src/fronta/store.py:697-712 | what the run knows, inside a chunk also the marker it has read and edited, survives any steps of everybody else |
| FeedObjects.BackfillRun.WholeChunk | src/fronta/store.py:693-741 | a chunk with anything in between its statements inserts the rows it scanned, once, and counts them, or stops having inserted nothing |
| CompletionsRuns.EveryOutcomeIsSomewhere | src/fronta/worker.py:368-412 | an unresolved outcome sits exactly once in pending or in flight, under its own future and in submission order; a resolved one still there was abandoned by its controller |
| CompletionsRuns.WritesAreAdmissible | src/fronta/worker.py:384-397 | every write gets 1 to 256 outcomes of distinct ids, and writes follow submission order, so outcomes of one task are written at most once each and in order |
| CompletionsRuns.AnswersAreOnesOwn | src/fronta/worker.py:398-412 | every outcome of a finished write has its own row's answer, or the exception, unless abandoned; and nobody is answered without such a write |
| CompletionsRuns.AbandonedAreNotWritten | src/fronta/worker.py:396-397 | an outcome goes to a write only while its controller waits for it |
| CompletionsRuns.EndsHaveReasons | src/fronta/worker.py:403-411 | a future is cancelled only by its own controller or a close, and raises only after a write that raised |
| CompletionsRuns.DoneIsFinal | src/fronta/worker.py:400-408 | a future that is done is never touched again |
| CompletionsRuns.NothingStaysPendingIff | src/fronta/worker.py:377-417 | nothing is ever pending without a runner if and only if no close arrives before a runner's first step |
| CompletionsRuns.ClosedTooEarly | src/fronta/worker.py:414-417 | the shortest run that strands an outcome, for good unless another is submitted |
| CompletionsRuns.TakeBatch | src/fronta/worker.py:387-395 | the longest prefix of at most 256 distinct ids, nothing lost or reordered |
| CompletionsRuns.Resolve | src/fronta/worker.py:399-401 | resolves the futures that wait and no others |
| CompletionsRuns.Coalescer.Complete | src/fronta/worker.py:377-382 | queues the outcome under a fresh future and starts a runner if none is alive |
| CompletionsRuns.Coalescer.WriteReturned | src/fronta/worker.py:398-402 | answers the batch and goes on to the next write or the end, skipping batches nobody waits for |
| CompletionsRuns.Coalescer.Unwind | src/fronta/worker.py:403-412 | a failed or cancelled write resolves everything in flight and pending |
| CompletionsRuns.Coalescer.CloseDown | src/fronta/worker.py:414-417 | cancels the runner, whose except clause runs only if it had started |
| Attempts.AttemptSettlement | src/fronta/worker.py:218-356 | at most one outcome: succeed exactly if the execution returned a value before a stop was observed, with that value; fail_final exactly for its own final failure; cancel and release exactly for a stop by that cause, release also if nothing could start; fail exactly for a time-out, a failure that is not final, or self-cancellation, each with its own text; a process attempt submits only while its sandbox is verified dead or was never spawned |
| Attempts.LateDispatchRunsIff | src/fronta/worker.py:198-216 | a claim dispatched late runs only if its renewal is confirmed and its lease not known lost; otherwise nothing ever runs for it, and it is released unless lost |
| Attempts.IgnoringHandlersAreFatal | src/fronta/worker.py:236-246 | an outcome submitted while a handler in the worker's own process still runs makes the attempt fatal, and nothing else does |
| Attempts.RunsOnlyInTime | src/fronta/worker.py:191-216 | whatever runs was dispatched at once, or late with its renewal confirmed while its lease was not known lost |
| Attempts.KilledOnlyAfterGrace | src/fronta/worker.py:228-235 | an execution is killed only after it was asked to stop and its grace period has passed without its end |
| Attempts.StopsAndKillsArrive | src/fronta/executors.py:146-173 | a stop observed during the spawn is passed on as soon as the process is there, and a kill that answers yes leaves nothing alive |
| Attempts.EveryAttemptCanEnd | src/fronta/worker.py:218-283 | from every reachable state fourteen steps of the execution and its controller settle the attempt, with nobody cancelling it |
| Attempts.CancelledControllersEnd | src/fronta/worker.py:261-283 | a cancelled controller settles and submits nothing more |
| Attempts.DecisionsAreFinal | src/fronta/worker.py:183-216 | over any continuation, the cause, an observed stop, the runner's result and the submission never change, and nothing is spawned after a submission |
| Attempts.StoppedNeverSucceeds | src/fronta/worker.py:224-264 | a handler still running when the stop is observed never yields its own result, whatever it returns later; the cause is the one given before, else TIMEOUT |
| Attempts.LostSubmitsNothing | src/fronta/worker.py:297-302 | an attempt whose cause is LOST before it has submitted never submits |
| Attempts.EveryAttemptReports | src/fronta/worker.py:191-356 | an attempt whose controller is not cancelled ends without an outcome only if its lease was lost or its own failure cannot be encoded |
| Attempts.Controller.StopFor | src/fronta/worker.py:183-189 | the first cause wins |
| Attempts.Controller.FirstWaitEnds | src/fronta/worker.py:222-235 | a runner that is done is concluded; otherwise the stop is recorded, as TIMEOUT if nobody gave a cause |
| Attempts.Controller.KillAnswered | src/fronta/worker.py:252-260 | no outcome before kill() has answered yes |
| Attempts.Controller.Settle | src/fronta/worker.py:297-356 | hands over at most one outcome, the one AttemptSettlement accounts for, and none only for a lost token, a runner that is not done or a failure that cannot be encoded |
| Attempts.Controller.SpawnReturned | src/fronta/executors.py:146-173 | a stop that came during the spawn is passed on when it ends |
| Renewal.Renewals | src/fronta/worker.py:893-916 | the loop's log is that of its turns and satisfies an independent timing account: budgets, wake-ups, lease starts, and LOST only after a whole lease without confirmation |
| Renewal.ConfirmedIff | src/fronta/worker.py:872-891 | a round confirms the attempt exactly if it renews it and a good answer comes within what the round spends |
| Renewal.NextRenewalIsInTime | src/fronta/config.py:73-95 | after a confirmed renewal every round up to the next renewal starts within half a lease, for every pattern of early wake-ups |
| Renewal.RetryIsInTime | src/fronta/config.py:73-80 | if that one burns its whole budget, the next round renews again at least half a heartbeat before the lease ends |
| Renewal.OneMissIsNeverFatal | src/fronta/worker.py:860-916 | over whole runs, an attempt is never lost to the clock while no two clock-due renewals in a row go unanswered |
| Renewal.TwoMissesCanBeFatal | src/fronta/config.py:29-40 | with the default settings two in a row can be: a run of the loop that loses the lease |
| Renewal.RetriesInTimeIff | src/fronta/config.py:74-80 | in every run of the loop the first clock-due renewal after a confirmed one leaves room for a retry before the lease ends, whatever rounds come between, if and only if half a heartbeat and two budgets fit in the lease |
| Renewal.RetriesTooLate | src/fronta/worker.py:893-916 | where they do not fit, a run: another attempt's renewal takes its budget just before this one is due, which takes the rest of the lease |
| Hints.NoHintIsLost | src/fronta/hints.py:57-91 | until close gives up, pending hints have the event set and a live runner, and every hint added is pending, in flight, or covered by a successful send that began after its last add |
| Hints.CompletedFlushSentAll | src/fronta/hints.py:94-107 | a graceful close whose flush completes has sent everything |
| Hints.GracefulCloseEnds | src/fronta/hints.py:62-78 | from any reachable closing state with a live runner, once nothing more is added and sends succeed, four stretches of the runner's own are enough for it to return, and until then it can always make one |
| Hints.GivingUpLeavesNothing | src/fronta/hints.py:94-107 | a close that gives up leaves nothing pending and no runner |
| Hints.FairRunsTakePending | src/fronta/hints.py:57-91 | whatever else happens, once the runner has got on three times every hint that was pending has been on its way |
| Hints.PendingGetsGoing | src/fronta/hints.py:57-91 | and from any reachable state with something pending it can get on so: at most three stretches of its own put all of it on its way |
| Hints.MergeBack | src/fronta/hints.py:79-83 | merging a failed batch back restores it among whatever was added meanwhile |
| Hints.Emission.ResumeRunner | src/fronta/hints.py:62-71 | takes everything pending, or returns when closing with nothing pending |
| Hints.Emission.SendFailed | src/fronta/hints.py:79-89 | the machine's failed send, on the three sets |
| Hints.Emission.SendSucceeds | src/fronta/hints.py:75-78 | the machine's successful send; while closing it sets the event again |
| Hints.Emission.WakeTypes | src/fronta/hints.py:27-29 | adds the hints, sets the event and makes sure a runner is alive |
| Codec.SanitizeIsExact | src/fronta/codec.py:106-113 | the result is storable, changes exactly NULs and surrogates, is the text itself iff the text was storable, and is idempotent |
| Codec.QuotedLen | src/fronta/codec.py:116-117 | an encoded text takes at least one byte and at most six per code point, and two quotes |
| Codec.SizeIsFields | src/fronta/codec.py:51-63 | the byte count of an encoded object from those of its fields |
| Decoding.EncodedIsDecoded | src/fronta/codec.py:51-63 | whatever is encoded, its numbers being spelled as numbers, reading it by the grammar of RFC 8259 gives the value back |
| Decoding.EncodingIsFaithful | src/fronta/codec.py:51-63 | two values with the same encoding are the same |
| Decoding.EncodedIsStorable | src/fronta/codec.py:51-74 | a value is encoded exactly when it nests at most 200 levels deep, holds no NaN or infinity and has storable texts and keys only, and its encoding then holds no NUL and no lone surrogate |
| Decoding.CharsAreRead | src/fronta/codec.py:16-16 | the escaped form of any text, surrogates and control characters included, reads back as that text |
| Decoding.BytesAreCounted | src/fronta/codec.py:116-117 | the byte counts are those of UTF-8 octets from which the text is read back |
| Truncation.Truncate | src/fronta/codec.py:152-177 | raises exactly for unstorable input, keeps what fits, falls back to the type alone exactly when even the object with every string emptied exceeds the cap, and otherwise fits the cap with every string a prefix or (keep_tail) a suffix of its original, none more than twice as long as what is left of one that was cut |
| Truncation.Longest | src/fronta/codec.py:165-169 | the first of the longest non-empty strings |
| Truncation.SkeletonIsSmallest | src/fronta/codec.py:164-177 | no cut encodes to fewer bytes than the object with every string emptied |
| Truncation.ResultsFitTheCap | src/fronta/codec.py:152-177 | for storable input and every cap of at least 412 bytes the result fits, fallback included |
| Truncation.ErrorMetadataIsKept | src/fronta/codec.py:130-149 | with an error cap the settings accept, the metadata of an exception is shortened and never reduced to its type; it is refused exactly when the class's qualified name is not storable |
| Truncation.UnstorableTypeNameRaises | src/fronta/codec.py:130-137 | a concrete class name for which error_metadata raises |
| Truncation.FailureIsRecordedIff | src/fronta/worker.py:320-338 | an exception's outcome is recorded exactly when the first 64 code points of its class name are storable |
| Graph.Check | src/fronta/codec.py:77-103 | the recursive walk computes the specified verdict, always terminates, and leaves the path as it was on every exit |
| Graph.CheckAcceptsExactly | src/fronta/codec.py:77-103 | over any graph, accepted exactly when every chain nests at most 200 containers and all keys and texts reached are storable text |
| Graph.VerdictsAreDeserved | src/fronta/codec.py:77-103 | a refusal names a defect that is there: a reachable key that is not text, a reachable text that cannot be stored, a chain of more than 200 containers, a cycle |
| Graph.CheckValue | src/fronta/codec.py:51-60 | the walk as encode starts it: lets through exactly what is acceptable and otherwise raises what is deserved |
| Graph.SharingIsNotACycle | src/fronta/codec.py:88-91 | a circular reference is reported only where the value leads to a cycle |
| Graph.CyclesAreRejected | src/fronta/codec.py:84-91 | a value on a cycle is accepted at no depth |

## Left out

- Candidate ordering, byte budget, pauses and concurrency limits inside the claim: a claim takes any due queued row.
- Clock drift between hosts: one global clock; statements stamp their own now(), and a claim's lease stamp lies between the claim's start and the present.
- A heartbeat is one atomic step, stamped when it holds the row lock.
- Two feeds of different names: their events and locks never meet, so one name stands for all.
- Two-phase transactions, imported snapshots and repeatable-read callers: read committed is assumed, as the pool pins it.
- A consumer that commits or rolls back `batch.conn` itself.
- Columns that no transition reads: input, priority, concurrency_key, metadata, started_at, created_at, and the arithmetic and jitter of the backoff (the retry instant is any time).
- FeedRuns.NoGap: is stated for registrations whose filters were never changed, as the source promises it for those.
- FleetLease.LeaseExclusion: assumes an orderly run; FleetTangle proves that any step that is not orderly can break exclusion.
- Attempts.AttemptSettlement: assumes that the runner's first step precedes the end of the controller's first wait (the event loop runs ready tasks in order), that SandboxProcess.kill answering True means the sandbox is dead, and that a failed or cancelled spawn kills what it started.
- Attempts: what a second cancellation of a controller during its cleanup leaves behind, and the exit of the process after an ignored cancellation.
- Renewal.Renewals: at most one statement of 1000 attempts is due at a time, scheduling takes no time, and floating-point rounding is ignored (times are reals).
- Hints.NoHintIsLost: exceptions of the sender other than connection and database errors; the growth of the retry delay.
- Truncation.Truncate: str() of a "type" entry that is not text is a parameter; traceback formatting and broken `__str__` only supply texts.
- Codec: the spelling of numbers is a given text; json.dumps of unknown objects, which raises TypeError after the walk.
- Store.Enqueue: the deadline is a flag of the round in which it passes; field validation, notifications and the ids a conflicting insert skips.
- Store.CompleteBatch: the events it publishes are those of the same outcomes one by one; their order within the batch is not claimed.
- Validators, fingerprints, statistics, listing, purge batching, pools, the command line, the REST and MCP server, logging, the watchdog, signals, sandbox system calls, the planner and indexes.
