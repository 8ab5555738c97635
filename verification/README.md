# Verified model of the payment-operations engine

A Dafny model of the deterministic core of `bank_sim`: the discrete-event
scheduler and everything that runs on it, from arrival of a payment to
reconciliation.  Each engine appears twice.  As a *value*, it is a datatype and
functions that give the exact next state of every operation; as an *object*, it
is a class whose methods and loops update fields in place and are proved to
reach the state the functions give.  The theorems are about the values, so they
hold of the objects: they quantify over all workloads, all runs and all
reachable states.

| files | subject |
|---|---|
| `Scheduler`, `SchedulerObject`, `SchedulerRuns` | the event heap, the clock, execution history |
| `WorkerPool*` | the worker pool with fixed service time: exact start times, order of the ledger, Little's law, its events and figures |
| `PaymentQueue*`, `Queue*` | the FIFO queue served by one-minute ticks, its exact latency, its events |
| `Submissions`, `Retries`, `Retry*`, `DeadLetter*`, `LockStep` | the two bounded-retry engines, termination, conservation, lock step, what they record |
| `Ledger*` | the append-only ledger, its refusals and its replay |
| `Ordering*`, `OrderedEventProcessor` | the event re-ordering buffer |
| `Sorting`, `Settlement*` | expectations and reconciliation |
| `Duplicate*`, `Idempotency*`, `IdempotentPaymentProcessor` | the naive and the protected run of a delivery script |
| `Ach*` | ACH transfers and returns on one scheduler and one ledger |

`dafny verify dfyconfig.toml` checks everything.

## How the program is represented

- The heap of the scheduler is the sequence of its events in (time, order); pushing and popping the least are its only uses.
- A scheduled callback is a value of a datatype of actions, which the run loop dispatches. The queue takes the effect of its callbacks as a parameter (`Client`), so its theorems hold for every client that does not raise, move the clock or enqueue from inside a work callback. From outside, at an event boundary, the clock may be moved to any time that no pending event precedes. Callbacks of the bare scheduler may do all of this except run further events.
- A queued payment, which the program shares by reference between the line, the workers and the completed list, is an entry of one table; the others hold its index, which is its arrival order.
- Identifiers that the program builds by suffixing (`-DEBIT`, `-CREDIT`, `-SETTLEMENT`, `-DELIVERY-n`) are values of `Ledgers.EntryId`, equal only if built alike; a ledger handed in may hold entries of any name. Idempotency keys and settlement record identifiers are real strings.
- A Python error is an out-parameter or a result value, and the state it leaves behind is modelled: where a step has already changed something when the ledger or the scheduler raises, the model has changed it too.
- The per-payment buffers of the re-ordering processor are one map from (payment, sequence). Dictionaries whose order of insertion matters come with the sequence of their keys.
- Floor division rounds towards minus infinity, as in Python (`WorkerPoolMetrics.FloorDiv`); strings are compared character by character and sorting is stable.

## Where the code does less than its prose

These are stated as theorems, with the exact condition where the property holds:

- Of two doomed submissions that share a payment identifier, or of one whose identifier the given dead-letter queue already holds, one ends neither completed nor isolated (`EverybodyAccountedIff`, `SharedIdentifierExample`, `StoredIdentifierExample`).
- A settlement can be refused after the ordering state has advanced: a completion that was buffered is too old for the ledger by the time it is applied, or the ledger handed in has settled the payment before (`RefusedExactlyWhen`, `RefusalExample`, `SettledBeforeExample`).
- The identifier of a buffered event is not checked again when it is drained, so a delivery can apply one again; exactly when can be told before it (`SharedEventId`, `RepeatsIff`, `EachIdOnceIff`).
- Reconciliation compares only the last internal row of a payment (`TrustworthyIffDistinct`, `EarlierRowOverlooked`), and the derived expectations can contain two rows of one payment (`ExpectationsDistinctIff`, `SettlementExpectations.SharedIdentifierExample`).
- The reported elapsed time of the pool is negative while nothing has completed (`ElapsedIsNegativeWhen`).
- ACH holds reduce the available balance of every account: it is the account's own exactly while no transfer of another account holds funds (`AvailableIs`, `AvailableIsOwnIff`, `SharedHoldExample`).
- ACH funds are compared one minute before the hold is taken: every transfer is judged against the opening balance alone, so an account is overdrawn exactly when the transfers that pass by themselves come to more than it had (`JudgedAlone`, `EndBalance`, `OverdrawnByRequests`, `OverdrawExample`).
- A description of nothing but blanks passes validation and raises when the hold is made: the transfer stays pending for ever, without a hold (`RaisedIff`, `UnendedExactlyIf`, `BlankDescriptionExample`). A transfer received after time 1 is kept but never validated (`ReceiveTransferInv`, `UnendedExactlyIf`, `LateTransferExample`).
- On a ledger that is already past time 10, or holds an entry of that name, a transfer completes without a debit (`RaisedIff`, `CompletionRaisesIff`, `LateLedgerExample`), and its return is credited nevertheless if the ledger has room for it by then (`NeverFarAboveOpening`, `UnearnedCreditExample`); `NeverGivesIff` says on which ledgers this cannot happen.

## Model

| member | source | states |
|---|---|---|
| `SchedulerObject.EventScheduler.constructor` | src/bank_sim/scheduler.py:36-40 | a new scheduler has nothing pending, nothing executed and hands out order 0 first |
| `SchedulerObject.EventScheduler.Push` | src/bank_sim/scheduler.py:60 | pushing puts an event behind everything that does not come after it in (time, order) |
| `SchedulerObject.EventScheduler.ScheduleAt` | src/bank_sim/scheduler.py:52-61 | refused exactly for a time before the clock, and then nothing changes; otherwise the event gets the next order number |
| `SchedulerObject.EventScheduler.ScheduleAfter` | src/bank_sim/scheduler.py:63-67 | schedules at the clock plus the delay, which is never refused |
| `SchedulerObject.EventScheduler.AdvanceTo` | src/bank_sim/clock.py:20-26 | the clock never moves backward; a refused move leaves it alone |
| `SchedulerObject.EventScheduler.Take` | src/bank_sim/scheduler.py:71-74 | removes the least event and advances the clock to it; an event the clock has already passed raises and is lost |
| `SchedulerRuns.HistoryStrictlyIncreases` | src/bank_sim/scheduler.py:1-7 | over every run, with callbacks that schedule, move the clock or raise, the history is strictly increasing in (time, order) |
| `SchedulerRuns.EveryEventOnce` | src/bank_sim/scheduler.py:52-82 | every event ever accepted is in exactly one place: pending, executed at its own time, or lost; order numbers have no gaps |
| `SchedulerRuns.NothingLostUnless` | src/bank_sim/scheduler.py:69-82 | nothing is lost unless a callback raised or a clock move passed a pending event, and once the queue is empty exactly then |
| `WorkerPoolObject.WorkerPool.constructor` | src/bank_sim/worker_capacity.py:82-98 | the new pool is idle and empty, its depth clock starting at the scheduler time |
| `WorkerPoolObject.WorkerPool.AssignTo` | src/bank_sim/worker_capacity.py:150-166 | the oldest waiting payment starts now on the given worker, its completion scheduled one processing time later |
| `WorkerPoolObject.WorkerPool.Dispatch` | src/bank_sim/worker_capacity.py:144-166 | the loop over the workers equals recursive assignment to the lowest idle worker while anything waits |
| `WorkerPoolObject.WorkerPool.Enqueue` | src/bank_sim/worker_capacity.py:113-142 | the object goes to the state the specification of joining and dispatching gives |
| `WorkerPoolObject.WorkerPool.CompleteBy` | src/bank_sim/worker_capacity.py:168-187 | an idle worker raises and nothing changes; otherwise its payment is posted and completed, the worker is free and dispatching follows |
| `WorkerPoolObject.WorkerPool.RunNext` | src/bank_sim/scheduler.py:69-77 | one scheduler event dispatched to the pool |
| `WorkerPoolObject.WorkerPool.Run` | src/bank_sim/scheduler.py:79-82 | the run ends with nothing pending and every admitted payment completed |
| `WorkerPoolInvariant.NextCompletionIsOldest` | src/bank_sim/worker_capacity.py:163-187 | among the pending completions the next one is always that of the oldest payment in service, ties included |
| `WorkerPoolInvariant.DispatchOne` | src/bank_sim/worker_capacity.py:144-166 | when one payment waits or one worker is idle, dispatching is a single assignment to the lowest idle worker |
| `WorkerPoolInvariant.ExecKeepsInv` | src/bank_sim/worker_capacity.py:113-187 | every operation keeps the link between pending completions, busy workers, start times and the waiting line |
| `WorkerPoolTheorems.StartTimes` | src/bank_sim/worker_capacity.py:113-187 | in every reachable state payment k started on arrival if k < n, else at the later of its arrival and the start of payment k - n plus the processing time, and it completes one processing time later |
| `WorkerPoolTheorems.NobodyIdlesWhileWorkWaits` | src/bank_sim/worker_capacity.py:144-153 | whenever a payment waits every worker is busy |
| `WorkerPoolTheorems.StepArrivals` | src/bank_sim/worker_capacity.py:113-187 | one event neither adds, drops nor reorders an arrival and reduces the remaining work by exactly one |
| `WorkerPoolTheorems.RunEnds` | src/bank_sim/scheduler.py:79-82 | the run takes exactly two events per pending arrival and one per uncompleted payment, and then every payment has completed |
| `WorkerPoolTheorems.PlanRuns` | src/bank_sim/worker_capacity.py:239-272 | the run of a scheduled workload completes all of its arrivals and only those |
| `WorkerPoolTheorems.MoreWorkersNeverDelay` | src/bank_sim/worker_capacity.py:144-187 | for the same scheduled arrivals, with m >= n workers every payment starts and completes no later than with n |
| `WorkerPoolTheorems.CapacityNeverChangesTheLedger` | src/bank_sim/worker_capacity.py:225-230 | any two worker counts and processing times post the same effects in the same order: one per arrival, in arrival order |
| `WorkerPoolMetrics.LittlesLaw` | src/bank_sim/worker_capacity.py:108-111 | in every reachable state the recorded depth area is the total wait of assigned payments plus what the waiting ones had accrued at the last change |
| `WorkerPoolTheorems.DrainedArea` | src/bank_sim/worker_capacity.py:189-204 | when nothing is pending the area is the sum of the reported waits, and the average depth is that sum over the elapsed time |
| `WorkerPoolMetrics.UtilizationBounded` | src/bank_sim/worker_capacity.py:189-217 | once a payment has completed no worker is busy longer than the elapsed time, no utilisation exceeds 100, and neither the work done nor the reported throughput exceeds what the workers can do |
| `WorkerPoolFigures.UtilizationIsExact` | src/bank_sim/worker_capacity.py:206-217 | once a payment has completed, the utilisation of a worker is one hundred times the sum of the service times, start to completion, of the completed payments assigned to it, divided by last completion minus first arrival and rounded down |
| `WorkerPoolFigures.RatesAreExact` | src/bank_sim/worker_capacity.py:189-204 | the throughput is one hundred times the completed payments, the average depth one hundred times all that has been waited, each divided by last completion minus first arrival and rounded down |
| `WorkerPoolFigures.NothingDone` | src/bank_sim/worker_capacity.py:189-217 | before that throughput and utilisation are zero, and the average depth is divided by minus the first arrival |
| `WorkerPoolFigures.WaitsAreExact` | src/bank_sim/worker_capacity.py:194-201 | the longest wait is the greatest wait of a completed payment, the average wait their sum over their number, rounded down |
| `WorkerPoolLog.LogIsTrue` | src/bank_sim/worker_capacity.py:134-142 | in every reachable state the events are, in time, one arrival for each payment with its position, one assignment for each payment that has started with its worker, and one completion by that worker for each completed payment, each in arrival order and with the length of the line after it |
| `WorkerPoolLog.WorkersAreTrue` | src/bank_sim/worker_capacity.py:168-187 | a worker has completed the payments assigned to it that are done and been busy for the sum of their service times |
| `WorkerPoolMetrics.ElapsedIsNegativeWhen` | src/bank_sim/worker_capacity.py:190-193 | the reported completion time is negative exactly while nothing has completed and the first arrival was after time zero |
| `WorkerPoolMetrics.NegativeElapsedExample` | src/bank_sim/worker_capacity.py:190-193 | one payment enqueued at time 5 and not done reports -5 |
| `WorkerPoolDepth.MaximumDepth` | src/bank_sim/worker_capacity.py:127-137 | the recorded maximum depth is the greatest position at which anybody joined, and the line is never longer |
| `PaymentQueueObject.PaymentQueue.constructor` | src/bank_sim/payment_queues.py:107-114 | on any scheduler, whatever is pending or executed there, the new queue is empty with no tick scheduled |
| `PaymentQueueObject.PaymentQueue.Wake` | src/bank_sim/payment_queues.py:78-83 | the next tick is scheduled one minute ahead unless one already is |
| `PaymentQueueObject.PaymentQueue.Enqueue` | src/bank_sim/payment_queues.py:128-165 | the job joins the end of the line at its position and the worker is woken |
| `PaymentQueueObject.PaymentQueue.StartNext` | src/bank_sim/payment_queues.py:88-93 | the oldest job leaves the line and starts now |
| `PaymentQueueObject.PaymentQueue.FinishJob` | src/bank_sim/payment_queues.py:95-99 | the job is completed at the instant it started |
| `QueueLatency.ExecInv` | src/bank_sim/payment_queues.py:78-165 | in every reachable state, whatever the callbacks do, jobs are served in arrival order and exactly one tick is pending, at most a minute ahead, exactly when somebody waits |
| `QueueLatency.TickServes` | src/bank_sim/payment_queues.py:85-101 | a tick starts and completes exactly the first capacity jobs at its instant, leaves all other jobs alone and leaves a tick one minute later if somebody still waits |
| `QueueLatency.ExactLatency` | src/bank_sim/payment_queues.py:39-44 | every job of every reachable state, whoever enqueued it, that joined at position p waits ceil(p / capacity) minutes, one less if a tick was still due at that instant, whatever arrives or is retried later; when nothing is pending it has been served |
| `QueueLog.LogIsTrue` | src/bank_sim/payment_queues.py:85-165 | in every reachable state and for any client the events are, in time, one arrival for each job with its position, one start for each job served and one completion for each, in arrival order and with the length of the line after it; the maximum depth is the greatest position |
| `DeadLetterObjects.DeadLetterQueue.Isolate` | src/bank_sim/dead_letters.py:60-68 | a payment identifier is stored once; a second one is refused and changes nothing |
| `DeadLetterObjects.DeadLetterProcessor.Submit` | src/bank_sim/dead_letters.py:134-165 | the payment is recorded and its first attempt put on the queue |
| `DeadLetterObjects.DeadLetterProcessor.RetryDue` | src/bank_sim/dead_letters.py:207-211 | the retry counter goes down and an unsettled payment goes back on the queue |
| `DeadLetterObjects.DeadLetterProcessor.Isolate` | src/bank_sim/dead_letters.py:228-252 | the entry is offered to the dead-letter queue; only if it is stored is the payment isolated and the result recorded |
| `DeadLetterObjects.DeadLetterProcessor.Attempt` | src/bank_sim/dead_letters.py:178-224 | one attempt: permanent reason first, then scripted failure with retry or isolation at the limit, else the work runs and the payment is completed |
| `DeadLetterObjects.DeadLetterProcessor.ServeMany` | src/bank_sim/payment_queues.py:87-99 | the loop of a tick serves the jobs one after the other, each with its attempt |
| `DeadLetterObjects.DeadLetterProcessor.ProcessTick` | src/bank_sim/payment_queues.py:85-101 | the tick of the queue, with the attempts of this engine as the work |
| `DeadLetterObjects.DeadLetterProcessor.RunNext` | src/bank_sim/scheduler.py:69-77 | one scheduler event dispatched to queue or engine |
| `DeadLetterObjects.DeadLetterProcessor.Run` | src/bank_sim/scheduler.py:79-82 | the run terminates with nothing pending |
| `DeadLetterInvariant.WorkFates` | src/bank_sim/dead_letters.py:178-224 | an attempt that is due settles the payment or requests exactly one retry, counts one attempt, and touches no other payment |
| `DeadLetterRuns.StepKeeps` | src/bank_sim/dead_letters.py:167-252 | every event keeps the invariant and reduces the work left, so a run cannot go on for ever |
| `DeadLetterTheorems.EveryRunSettles` | src/bank_sim/dead_letters.py:167-252 | every run ends with every submission settled: one attempt if permanently unprocessable, otherwise min(failures, limit) + 1; its work run exactly once if completed and never otherwise |
| `DeadLetterTheorems.EverybodyAccountedIff` | src/bank_sim/dead_letters.py:228-252 | with whatever entries the dead-letter queue starts, nobody ends both completed and isolated, and everybody ends as one of them if and only if no two doomed submissions share an identifier and none carries one already stored |
| `DeadLetterTheorems.SharedIdentifierExample` | src/bank_sim/dead_letters.py:243 | two permanently invalid submissions of one identifier leave one payment neither completed nor isolated |
| `DeadLetterTheorems.StoredIdentifierExample` | src/bank_sim/dead_letters.py:98-116 | a doomed submission whose identifier the given dead-letter queue already holds ends neither completed nor isolated |
| `DeadLetterTheorems.Conservation` | src/bank_sim/dead_letters.py:254-269 | at every event boundary submitted = completed + isolated + queued + pending retries + left over; the retry counter is the number of retry events pending; one dead-letter entry for each isolated payment |
| `DeadLetterTheorems.LeftOverOnlyBySharedId` | src/bank_sim/dead_letters.py:243-244 | a payment is left over only if its identifier was stored before or an isolated payment carries it |
| `DeadLetterDiagnostics.EntriesAreTrue` | src/bank_sim/dead_letters.py:234-242 | each entry added to the dead-letter queue is a true snapshot of an isolated payment: identifiers, state, reason, retry count and the message of its last failure |
| `DeadLetterHistory.EntriesAreDated` | src/bank_sim/dead_letters.py:228-252 | the entries added are those of the results that report an isolation, in the same order, under the same identifiers and isolated at the same times |
| `DeadLetterHistory.ResultsAreTrue` | src/bank_sim/dead_letters.py:178-252 | in every reachable state there is one result for each job served, in order, with the time of its start, the number of the attempt among those of its payment and how it ended, except for hopeless attempts at a payment whose identifier was taken |
| `RetryObjects.RetryScheduler.Submit` | src/bank_sim/retries.py:117-131 | the payment is recorded and its first attempt put on the queue |
| `RetryObjects.RetryScheduler.RetryDue` | src/bank_sim/retries.py:164-174 | the retry counter goes down and the payment goes back on the queue |
| `RetryObjects.RetryScheduler.Attempt` | src/bank_sim/retries.py:134-217 | one attempt: scripted failure with a retry a delay later while the limit allows, permanent failure, or success; what it records is stated by RetryHistory.AttemptsAreTrue and RetryHistory.RetriesAreKept |
| `RetryObjects.RetryScheduler.ProcessTick` | src/bank_sim/payment_queues.py:85-101 | the tick of the queue, with the attempts of this engine as the work |
| `RetryObjects.RetryScheduler.RunNext` | src/bank_sim/scheduler.py:69-77 | one scheduler event dispatched to queue or engine |
| `RetryObjects.RetryScheduler.Run` | src/bank_sim/scheduler.py:79-82 | for any workload, shared identifiers included, the run ends with nothing pending, in the state of the specified run |
| `LockStep.EnginesInStep` | src/bank_sim/retries.py:133-219 | with the same operations, limit, delay and capacity and no permanent reasons, and no identifier that is doomed twice or already stored, the two engines have the same queue and pending events at every boundary, the same attempts at the same times, and fail permanently in one exactly when isolated in the other |
| `RetryNaming.DoAlike` | src/bank_sim/retries.py:133-239 | the retry engine never looks at an identifier: two runs that differ in identifiers alone stay alike under every operation |
| `RetryRuns.EveryRetryRunSettles` | src/bank_sim/retries.py:133-239 | from any state reached with any identifiers the run ends with nothing pending and every submission, made or scheduled, at its last word: min(failures, limit) + 1 attempts, success exactly if the failures are within the limit, its work run once exactly then |
| `RetryRuns.RetriesSettle` | src/bank_sim/retries.py:133-239 | the same of every reachable state in which nothing is pending, for any operations and identifiers |
| `RetryHistory.AttemptsAreTrue` | src/bank_sim/retries.py:134-217 | in every reachable state there is one attempt for each job served, in order: made when the job was started, numbered by the jobs of its payment so far, failed with the reason that the script has in that place or succeeded behind its end, asking for a retry one delay later exactly if the number is within the limit, with limit - number + 1 retries remaining |
| `RetryHistory.RetriesAreKept` | src/bank_sim/retries.py:144-176 | every retry time that an attempt names is the time of the pending event of that retry, or the time at which the retry put the payment back on the queue |
| `RetryHistory.TriesAreVisits` | src/bank_sim/retries.py:134-137 | a payment has been attempted exactly as often as it has been served |
| `RetryHistory.TimelineIsTrue` | src/bank_sim/retries.py:128-217 | the events are, in time, one for each attempt, saying which and how it ended, and one for each arrival at the queue, saying whether it is a submission or which retry, each in order |
| `Ledgers.AppendSound` | src/bank_sim/ledger.py:88-102 | an append is accepted exactly when the longer history is contiguous, without repeated identifier and never moves back in time |
| `Ledgers.BatchAcceptable` | src/bank_sim/ledger.py:104-128 | a batch is accepted exactly when the history it leaves is sound |
| `Ledgers.Ledger.Append` | src/bank_sim/ledger.py:88-102 | appends, or reports the first objection in the order of the checks and changes nothing |
| `Ledgers.Ledger.Check` | src/bank_sim/ledger.py:109-125 | the pass over a batch finds the objection that appending one by one would meet first |
| `Ledgers.Ledger.AppendBatch` | src/bank_sim/ledger.py:104-128 | all of the batch or nothing |
| `Ledgers.Replay` | src/bank_sim/ledger.py:131-139 | refuses a history with a gap, otherwise returns the sum of credits less debits |
| `LedgerObjections.ObjectionIsFirst` | src/bank_sim/ledger.py:88-102 | an entry is refused for the first of these that is true of it: its sequence is not the next, its identifier is known, it is posted before the last; and for nothing else |
| `LedgerObjections.OneFault` | src/bank_sim/ledger.py:88-102 | no entry has two such faults |
| `LedgerObjections.BatchRefusedFor` | src/bank_sim/ledger.py:104-125 | a batch is refused for the fault of its first entry that has one behind the ledger and the entries before it |
| `LedgerObjections.BalanceIsCreditsLessDebits` | src/bank_sim/ledger.py:131-139 | the balance is all credits less all debits |
| `LedgerObjections.EntryMovesItsAccount` | src/bank_sim/transfers.py:79-86 | an entry moves the balance of its own account, up by a credit and down by a debit, and of no other |
| `OrderingObjects.OrderedEventProcessor.constructor` | src/bank_sim/ordering.py:118-127 | a new processor has seen and buffered nothing |
| `OrderingObjects.OrderedEventProcessor.Apply` | src/bank_sim/ordering.py:164-187 | an event of another amount is rejected; otherwise the state advances and a completion is brought to the ledger, which may raise after the state has advanced; what it posts is stated by OrderingPostings.PostingsAre |
| `OrderingObjects.OrderedEventProcessor.Drain` | src/bank_sim/ordering.py:189-193 | the loop applies buffered events while the next one is there |
| `OrderingObjects.OrderedEventProcessor.ApplyAndDrain` | src/bank_sim/ordering.py:154-156 | the expected event, then the drain |
| `OrderingObjects.OrderedEventProcessor.Receive` | src/bank_sim/ordering.py:129-157 | duplicate, stale, conflicting, buffered or applied, in this precedence |
| `OrderingInvariant.ReachableIsSound` | src/bank_sim/ordering.py:129-217 | on any ledger, with no assumption on identifiers or amounts and whatever was refused: buffered events lie beyond the next expected one; the ledger gains exactly one settlement debit, of the amount of the first applied event, for each payment that came to its last step and was not refused, and for none that it had settled before; received = decided + buffered + refused |
| `OrderingPostings.PostingsAre` | src/bank_sim/ordering.py:169-187 | after any stream every entry added is a debit of the one account, posted at the arrival of the completing event of its payment for the amount of its first applied event; so that account falls by these amounts over the payments newly settled, and no other account changes |
| `OrderingDecisions.ResultsAreTrue` | src/bank_sim/ordering.py:129-162 | every result names the sequence that was expected when it was made, and the counters of out-of-order and buffered events are the number of results that say buffered |
| `OrderingDecisions.DecidedAsDeserved` | src/bank_sim/ordering.py:138-157 | each delivery is decided as the history before it deserves: duplicate, stale, conflicting, buffered or processed, told from the results so far |
| `OrderingDecisions.WaitingWasBuffered` | src/bank_sim/ordering.py:141-153 | whatever waits in a buffer was delivered and decided to be buffered |
| `OrderingSequence.AppliedInSequence` | src/bank_sim/ordering.py:138-193 | whatever is delivered, the events applied for a payment are 1, 2, ..., last, in this order and each once, or 1, 2, 3 if the ledger refused the last |
| `OrderingSequence.EachStepOnce` | src/bank_sim/ordering.py:164-187 | no step of a payment is applied twice, refusals or not |
| `OrderingSequence.SharedEventId` | src/bank_sim/ordering.py:189-193 | an event buffered under an identifier that is meanwhile processed is applied all the same when it is drained |
| `OrderingSequence.EachIdOnce` | src/bank_sim/ordering.py:138-139 | if each identifier names one step of one payment, no identifier is applied twice |
| `OrderingSequence.ReceiveApplies` | src/bank_sim/ordering.py:138-193 | a delivery applies exactly its own identifier, if it is next, and then those of the buffered run behind it: this can be told before |
| `OrderingSequence.RepeatsIff` | src/bank_sim/ordering.py:138-193 | a delivery applies an identifier again if and only if that list repeats one or meets those already processed |
| `OrderingSequence.EachIdOnceIff` | src/bank_sim/ordering.py:138-193 | over a whole stream no identifier is applied twice if and only if every delivery was fresh in this sense |
| `OrderingSequence.OwnedIsFresh` | src/bank_sim/ordering.py:138-193 | if each identifier names one step of one payment, every delivery is fresh |
| `OrderingSequence.FreshWithoutOwner` | src/bank_sim/ordering.py:138-139 | identifiers shared by two payments can still be applied once: unique naming is sufficient, not necessary |
| `OrderingTheorems.DeliveriesDetermineState` | src/bank_sim/ordering.py:129-193 | on any ledger, after any stream of consistent deliveries, in any order, with repetitions and refusals: last sequence is the largest k with 1..k all delivered, the buffer holds exactly the other delivered sequences, and the payment has been settled now if and only if k = 4 and it was not refused |
| `OrderingTheorems.ArrivalOrderDoesNotMatter` | src/bank_sim/ordering.py:129-193 | two streams that deliver the same pairs leave the same sequences and the same buffers, whatever is refused, and the same balance if the same payments are refused |
| `OrderingRefusals.RefusedExactlyWhen` | src/bank_sim/ordering.py:164-193 | after any deliveries at all a delivery raises if and only if it is new and next, its amount does not conflict, and the completion it brings, its own or the one at the end of the buffered run of its amount, is in the ledger already or arrived before the last posting |
| `OrderingExample.RefusalExample` | src/bank_sim/ordering.py:169-186 | a consistent stream whose buffered completion is refused |
| `OrderingExample.SettledBeforeExample` | src/bank_sim/ordering.py:169-186 | four events in order and on time, of a payment that the ledger handed in has settled before: the last is refused |
| `Settlement.Index` | src/bank_sim/settlement.py:145 | the dictionary keeps the last internal row of each payment |
| `Settlement.Group` | src/bank_sim/settlement.py:146-148 | every payment gets its external rows, in the order of the report |
| `Settlement.Arrange` | src/bank_sim/settlement.py:150 | the payments of either side, each once, in increasing order |
| `Settlement.Reconcile` | src/bank_sim/settlement.py:135-197 | the loops produce a report of the specified form; what its items and figures say is stated by SettlementOrder.ItemsAreTrue and SettlementReport.ReportAddsUp |
| `SettlementOrder.ItemsAreTrue` | src/bank_sim/settlement.py:155-183 | every payment of either side is reported, and each item says truly how its internal row and its external rows compare: reference, direction and both amounts |
| `SettlementOrder.ItemsAreOrdered` | src/bank_sim/settlement.py:184-186 | items come by payment, then status, then reference |
| `SettlementSorting.ItemsInPlace` | src/bank_sim/settlement.py:184-186 | that order told from characters: a payment comes before another if it begins it or has the smaller character where they first differ; statuses come by name, amount mismatch first; references like payments |
| `SettlementOrder.GroupCount` | src/bank_sim/settlement.py:146-148 | grouping keeps every external row exactly as often as it occurs, under its own payment |
| `SettlementOrder.InputOrderDoesNotMatter` | src/bank_sim/settlement.py:145-197 | with distinct internal payments the multiset of items, the status counts and the totals do not depend on the order of either input |
| `SettlementTheorems.ItemsCarryCents` | src/bank_sim/settlement.py:155-183 | the items of a payment carry exactly the cents of its kept internal row and of its external rows |
| `SettlementTheorems.EveryCentAccounted` | src/bank_sim/settlement.py:135-226 | with distinct internal payments the item amounts add up to both sides, and the item differences to the outbound and return differences together |
| `SettlementReport.ReportAddsUp` | src/bank_sim/settlement.py:188-226 | the outbound figures of a report are the sums of the outbound rows of each side and the return figures those of the return rows, its status totals count the items of each status in declared order, and it bears the given time |
| `SettlementReport.ExceptionsAre` | src/bank_sim/settlement.py:68-98 | the exceptions are the items that are not matched, and an item differs by its external less its internal amount |
| `SettlementAgreement.NoExceptionsExactly` | src/bank_sim/settlement.py:96-98 | for any input, zero exceptions are reported exactly when the last internal row of each payment is met by its external rows |
| `SettlementAgreement.NoExceptionsIffSidesAgree` | src/bank_sim/settlement.py:135-197 | with distinct internal payments, zero exceptions if and only if the two sides are equal as multisets of (payment, direction, amount) |
| `SettlementAgreement.TrustworthyIffDistinct` | src/bank_sim/settlement.py:145 | that equivalence holds for every external file if and only if no two internal rows share a payment |
| `SettlementAgreement.EarlierRowOverlooked` | src/bank_sim/settlement.py:145 | of two internal rows of one payment, a file with only the last raises no exception although the sides differ |
| `SettlementExpectations.Expectations` | src/bank_sim/settlement.py:101-132 | one row for each payment and direction of the completed workflows, the last one found, in order of payment and direction |
| `SettlementRows.RowsAreTrue` | src/bank_sim/settlement.py:101-132 | each expected row is that of the last completed transfer or return of its identifier, with its amount, its direction, the identifier it derives and the given time; none is missing; they come by payment, the outbound one first |
| `SettlementExpectations.ExpectationsDistinctIff` | src/bank_sim/settlement.py:101-132 | the expectations name each payment once, as reconciling needs, exactly when no completed return has the identifier of a completed transfer |
| `SettlementExpectations.SharedIdentifierExample` | src/bank_sim/settlement.py:101-132 | a transfer and a return completed under one identifier give two rows of one payment |
| `Duplicates.DebitNext` | src/bank_sim/duplicates.py:180-192 | the next delivery is debited exactly when it repeats no number of its request |
| `Duplicates.DebitEach` | src/bank_sim/duplicates.py:178-195 | the loop debits every delivery up to the first the ledger refuses |
| `Duplicates.ProcessNaively` | src/bank_sim/duplicates.py:164-210 | the naive run raises exactly when the opening balance is not positive or a request repeats a delivery number, and otherwise leaves one debit for each delivery, the attempts and the counts |
| `Duplicates.DebitedBalance` | src/bank_sim/duplicates.py:164-195 | the naive balance is the opening balance less every delivery |
| `DuplicateFigures.NaiveEntries` | src/bank_sim/duplicates.py:164-195 | the naive run posts the opening credit at time 0 and one debit of the one account for each delivery, a minute after it arrived; no other account changes |
| `DuplicateFigures.StatisticsAreTrue` | src/bank_sim/duplicates.py:197-210 | the duplicates are the deliveries whose request was delivered before, the unique requests the others, and their share is given in hundredths of a percent, rounded down |
| `IdempotencyObjects.IdempotencyStore.Remember` | src/bank_sim/idempotency.py:68-72 | an operation is remembered once |
| `IdempotencyObjects.IdempotentPaymentProcessor.constructor` | src/bank_sim/idempotency.py:107-111 | a new processor has acknowledged nothing and created no entry |
| `IdempotencyObjects.IdempotentPaymentProcessor.Process` | src/bank_sim/idempotency.py:113-165 | stored result for a known key, conflict for a different payment, else one debit remembered; a call that raises changes nothing |
| `IdempotencyObjects.ProcessIdempotently` | src/bank_sim/idempotency.py:196-215 | with a positive opening balance the script is run through the protection up to the first call that raises |
| `Idempotency.CallsKeep` | src/bank_sim/idempotency.py:113-165 | under any deliveries and keys: each key has one debit and one result, every delivery under it was acknowledged with that result and counted, and nothing else was added to the ledger |
| `Idempotency.OneDebitPerRequest` | src/bank_sim/idempotency.py:138-149 | no request is debited twice, even under different keys |
| `Idempotency.AcknowledgementsAddUp` | src/bank_sim/idempotency.py:171-182 | acknowledgements = records + the duplicate counts of the records |
| `IdempotencyTheorems.KeyForIsInjective` | src/bank_sim/idempotency.py:191-193 | two deliveries carry the same key exactly when they are of the same request |
| `IdempotencyTheorems.ProtectedFinishesIff` | src/bank_sim/idempotency.py:119-131 | the protected run of a valid script never meets a ledger refusal, and finishes exactly when each request has one amount |
| `IdempotencyTheorems.DuplicatesChangeNothing` | src/bank_sim/idempotency.py:196-215 | the protected run leaves the entries, up to identifiers, and the balance of the naive run on the script cut to first deliveries |
| `IdempotencyTheorems.NaiveOvercharge` | src/bank_sim/duplicates.py:164-195 | the naive run of the whole script is short by exactly the amount of the later deliveries |
| `IdempotencyTheorems.OneRecordPerRequest` | src/bank_sim/idempotency.py:171-182 | one debit, one record and one created entry for each request; acknowledgements = deliveries = records + duplicate counts |
| `IdempotencyAnswers.AnswersAreTrue` | src/bank_sim/idempotency.py:113-165 | the protected run answers every delivery, in order, with the result of the first of its request, marked as a duplicate unless it is that, and remembers the requests in the order in which they first came, with that result and the number of the others |
| `IdempotencyAnswers.EveryRequestHasAFirst` | src/bank_sim/idempotency.py:113-165 | every delivery has a first of its request, so the answers tell of all of them |
| `AchObjects.AchNetwork.constructor` | src/bank_sim/ach.py:108-113 | a new network has no transfer, hold or submission |
| `AchObjects.AchNetwork.Transition` | src/bank_sim/ach.py:88-98 | an allowed transition changes status and history, any other raises and changes nothing |
| `AchObjects.AchNetwork.Receive` | src/bank_sim/ach.py:115-122 | a known identifier raises; a new transfer is kept and its validation scheduled for time 1 |
| `AchObjects.AchNetwork.Validate` | src/bank_sim/ach.py:124-134 | rejected with the first reason found, blank texts first, or validated at 1 with the hold due at 2; which requests are refused and why is stated by AchVerdicts.JudgedByTable |
| `AchObjects.AchNetwork.MarkPending` | src/bank_sim/ach.py:136-147 | pending at 2, then the hold is taken and submission is due at 3; a blank description raises after the change of status and before the hold |
| `AchObjects.AchNetwork.Submit` | src/bank_sim/ach.py:149-152 | submitted at 3, processing due at 5 |
| `AchObjects.AchNetwork.Process` | src/bank_sim/ach.py:154-156 | processing at 5, completion due at 10 |
| `AchObjects.AchNetwork.Release` | src/bank_sim/ach.py:161-165 | the loop drops the holds of one transfer and keeps the rest in order |
| `AchObjects.AchNetwork.Complete` | src/bank_sim/ach.py:158-179 | completed, hold gone, one debit; if the debit cannot be written or the ledger raises the status and the hold have already changed |
| `AchObjects.AchReturnProcessor.constructor` | src/bank_sim/ach_returns.py:97-100 | a new processor knows no return |
| `AchObjects.AchReturnProcessor.Transition` | src/bank_sim/ach_returns.py:80-87 | an allowed transition changes status and history, any other raises and changes nothing |
| `AchObjects.AchReturnProcessor.Receive` | src/bank_sim/ach_returns.py:102-109 | a known return is left alone; a new one is validated one minute later |
| `AchObjects.AchReturnProcessor.Validate` | src/bank_sim/ach_returns.py:111-122 | rejected with the first reason found, or accepted as the return of its transfer |
| `AchObjects.AchReturnProcessor.Process` | src/bank_sim/ach_returns.py:124-130 | processing, completion due three minutes later |
| `AchObjects.AchReturnProcessor.Complete` | src/bank_sim/ach_returns.py:132-164 | completed with one full credit; if the ledger raises the status has already changed |
| `AchObjects.AchReturnProcessor.RunNext` | src/bank_sim/scheduler.py:69-77 | one event dispatched to network or processor; an action that raises is not recorded |
| `AchObjects.AchReturnProcessor.Run` | src/bank_sim/scheduler.py:79-82 | events one after the other until none is left or one raises |
| `AchInvariant.RunNextInv` | src/bank_sim/ach.py:124-179 | the next event raises exactly for a hold with a blank description and for a posting that the ledger, as it was at the start, has no room for; either way the link between pending events and statuses, the holds, the postings and the returns are kept |
| `AchTheorems.ReachedInv` | src/bank_sim/ach_returns.py:102-189 | all of this holds on any sound ledger after any interleaving of received transfers, received returns, events, raised or not, and permitted clock moves |
| `AchTheorems.ReceiveTransferInv` | src/bank_sim/ach.py:115-122 | receiving raises exactly for a known identifier or after time 1, and keeps the invariant either way |
| `AchTheorems.NextRaisesIff` | src/bank_sim/ach.py:124-179 | in every reachable state whether the next event raises is settled by its action, the description of its transfer and the ledger at the start |
| `AchTheorems.HoldIffInFlight` | src/bank_sim/ach.py:136-165 | a hold exists exactly while its transfer is pending, submitted or processing and its description is not blank; there is one, of the transfer amount |
| `AchTheorems.AvailableIs` | src/bank_sim/ach.py:181-187 | with any number of accounts: available = opening - debited transfers + credited returns of the account - every hold of any account |
| `AchBalances.AvailableIsOwnIff` | src/bank_sim/ach.py:181-187 | the available balance of an account is its posted balance less its own holds if and only if no transfer of another account holds funds |
| `AchHolds.SharedHoldExample` | src/bank_sim/ach.py:181-187 | an account with 100 and no transfer of its own has 40 available while another account has 60 on hold |
| `AchTheorems.AvailableOfOneSource` | src/bank_sim/ach.py:181-187 | with one source account: available = opening - transfers held or debited + credited returns |
| `AchTheorems.ReturnedOnce` | src/bank_sim/ach_returns.py:166-189 | no transfer has two accepted returns, and an accepted return is of a completed transfer and its full amount |
| `AchTheorems.OnePostingEach` | src/bank_sim/ach.py:166-176 | to the ledger as it was, one debit for each completed transfer and one credit for each completed return it has room for, and no other of either kind |
| `AchTheorems.NeverFarAboveOpening` | src/bank_sim/ach_returns.py:132-164 | in general it stands above by at most the credits for transfers that were completed without a debit |
| `AchRefunds.LoneReturn` | src/bank_sim/ach_returns.py:102-164 | a return that is valid when it is filed, with nothing else pending, is completed five minutes later |
| `AchRefunds.UnearnedCreditExample` | src/bank_sim/ach_returns.py:132-164 | on a ledger that stands at 12 a transfer of 60 completes without a debit and its return is credited: 100 become at least 160 |
| `AchSafety.NeverGivesIff` | src/bank_sim/ach_returns.py:132-164 | on a ledger no account can come to stand above what it had, whatever is received and run, if and only if it has room for the debit of every transfer that validation can accept, or no account has anything to send |
| `AchSafety.GivingGives` | src/bank_sim/ach_returns.py:102-164 | otherwise this run gives: one cent sent, completed without a debit, and returned once the time of the ledger has come |
| `AchTheorems.OnTimetable` | src/bank_sim/ach.py:56-68 | the history of a transfer is the fixed timetable up to its status, without the last observation exactly when there was no room for the debit |
| `AchTheorems.ReturnOnTimetable` | src/bank_sim/ach_returns.py:60-87 | the same of a return, relative to its receipt |
| `AchTheorems.DrainedIsSettled` | src/bank_sim/ach.py:124-179 | when nothing is pending no hold is left, every return has ended, and so has every transfer that is not still received or pending with a blank description |
| `AchLate.UnendedExactlyIf` | src/bank_sim/ach.py:115-147 | when nothing is pending every transfer has been completed or rejected, except exactly those received after time 1 and those that are valid, affordable from the opening balance and described by blanks |
| `AchLate.EndsAs` | src/bank_sim/ach.py:115-179 | a transfer received in time ends rejected, pending or completed as its own fields and the opening balance say, whatever else is received |
| `AchFunds.JudgedAlone` | src/bank_sim/ach.py:124-134 | validation judges every transfer as if it were the only one, whatever else is held or completed |
| `AchVerdicts.JudgedByTable` | src/bank_sim/ach.py:124-131 | in every reached state a transfer that is no longer only received bears the first defect of its request as its reason, by a table over its own fields and the opening balance, and is rejected exactly if it has one; any other is complete, positive and affordable |
| `AchVerdicts.OneDefect` | src/bank_sim/ach.py:190-208 | the table has exactly one line for each request |
| `AchVerdicts.ReturnJudged` | src/bank_sim/ach_returns.py:111-189 | a return whose validation is next is rejected for the first thing wrong with it, by a table over the return, its transfer and the other returns, or accepted if there is none |
| `AchDiary.EntriesTold` | src/bank_sim/ach.py:158-176 | in every reached state each entry behind the start of the ledger is the debit of a completed transfer at time 10 or the credit of a completed return five minutes after its receipt, with account, amount, kind and sequence |
| `AchDiary.HoldsTold` | src/bank_sim/ach.py:136-146 | every hold bears the description of its transfer, or the standard text if that is empty, and the holds are numbered in the order in which they were made, without a gap before time 10 |
| `AchDiary.SubmissionsTold` | src/bank_sim/ach.py:149-152 | exactly the transfers that are submitted or further on have been handed to the network, each once |
| `AchExamples.EndBalance` | src/bank_sim/ach.py:115-187 | the run of any list of requests ends with no hold and takes from each account all the requests that pass by themselves |
| `AchBalances.OverdrawnByRequests` | src/bank_sim/ach.py:115-187 | from time 3 on the one source account is overdrawn exactly when the requests received in time that pass by themselves, with room in the ledger once completed, come to more than it had and has got back |
| `AchExamples.OverdrawExample` | src/bank_sim/ach.py:124-134 | two transfers of 60 from an account of 100 are both completed, and it ends at -20 |
| `AchExamples.LateTransferExample` | src/bank_sim/ach.py:115-122 | a transfer received at time 2 raises, is kept and nothing is left to run |
| `AchFailures.RaisedExactly` | src/bank_sim/ach.py:124-179 | over any run the events that raised are exactly those whose mark is there: pending and described by blanks, completed without a debit, completed without a credit |
| `AchFailures.RaisedIff` | src/bank_sim/ach.py:136-179 | the hold of a transfer raised exactly if it is pending with a blank description; a completion exactly if the ledger started after time 10 or with an entry of that name; a credit exactly likewise at its own time |
| `AchFailures.CompletionRaisesIff` | src/bank_sim/ach.py:158-176 | on a ledger without debits of transfers some completion of a run raises if and only if the ledger started after time 10 and some transfer came to completion |
| `AchFailures.NothingRaisesIff` | src/bank_sim/ach.py:124-179 | a run that has come to its end raised nothing if and only if everything it accepted had a description that is not blank and room in the ledger |
| `AchExamples.BlankDescriptionExample` | src/bank_sim/ach.py:136-147 | a transfer described by one space raises at time 2 and stays pending, without a hold, with nothing left to run |
| `AchExamples.LateLedgerExample` | src/bank_sim/ach.py:158-176 | on a ledger that stands at time 300 a transfer completes and no debit is posted |
| `AchRuns.RunNextShrinks` | src/bank_sim/scheduler.py:79-82 | every event leaves strictly less to do |
| `AchRuns.RunSettles` | src/bank_sim/ach_returns.py:102-164 | from any reachable state the run, taken up again after every raise, settles everything; the first run raises exactly if this leaves a new mark of failure, and otherwise is the whole of it |
| `AchRuns.ClearRunSettles` | src/bank_sim/ach.py:124-179 | if nothing received has a blank description and the ledger has room for every posting, one run settles everything without raising |

## Left out

- Text rendering, the command line, the chapter scenarios and the laboratory: fixed scripts and output; the theorems are about arbitrary workloads.
- Onboarding, institutions, deposits, withdrawals, internal transfers and balance projections: short guarded wrappers around the ledger; only the balance of an account is used here, for ACH.
- Runtime type checks and error texts: types take their place. Blank identifiers and texts are modelled in the ACH workflows, where they are looked at after a request has been accepted; the other engines refuse them at the door and change nothing, and take identifiers that are not blank here. Descriptions elsewhere are fixed texts. Amounts that the ledger requires to be positive are checked where a workflow can reach the check (ACH) and are natural numbers elsewhere.
- The details text of a reconciliation item, the display name of a payment state, the payment type of a queued payment and the returned object handles: they are functions of what is modelled.
- The statistics of the payment queue but its greatest depth, retry statistics beyond attempts, outcomes and pending retries, and dead-letter reason counts: plain sums over modelled lists.
- Calling the ACH steps `submit`, `process`, `complete` or the return steps directly and out of turn: the guard of each transition is modelled, but the invariants are about steps run by the scheduler.
- ACH transfers and returns are values in the maps of their network and processor, not objects of their own: their transitions are methods of the owner, and aliasing of a transfer by its caller is not modelled. The same holds for workers, queued payments and idempotency records.
- A worker pool, queue, ledger or store shared by several owners: each theorem about runs is for one engine with its own scheduler and ledger, except that the scheduler theorems allow any callbacks. A clock move past a pending event, which loses it, is covered by the scheduler theorems only.
- A work callback that raises: in the pool and the queues it would leave the worker busy or the line without a tick; the model assumes it does not.
- SchedulerObject.EventScheduler.Take: covers only the half of `run_next` before the callback; the callback itself is run by the engine that owns the action.
- WorkerPoolTheorems.MoreWorkersNeverDelay: compares runs of arrivals scheduled in advance, since arrivals created by callbacks of one run would not exist in the other.
- OrderingSequence.EachIdOnceIff: is about streams in which nothing was refused, since the identifier of a refused completion is remembered without having been applied; `OrderingRefusals.RefusedExactlyWhen` says which those are.
- QueueLatency.ExactLatency: leaves out work callbacks that enqueue, for which the line would grow while a tick is served; no client in the repository has one.
- AchTheorems.DrainedIsSettled: allows a transfer to remain received or pending; AchLate.UnendedExactlyIf says which ones do.
