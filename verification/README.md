# Verified models of the serverless patterns

A Dafny model of five of the repository's patterns, and proofs about every run of them. Each pattern is
a place where three things have to agree: an Amazon States Language (ASL) machine or an SQS queue, Lambda
handlers, and a DynamoDB item.

`dafny verify dfyconfig.toml` checks everything.

## How it is laid out

| files | pattern |
|---|---|
| `integers.dfy` | minimum and maximum |
| `states_language.dfy` | ASL error matching, ordered `Retry`/`Catch` lists, retry counters of one state execution |
| `saga_store`, `saga_handlers`, `saga_machine`, `saga_execution` | the saga: table, nine handlers, transition table, the running machine |
| `saga_reactions` | what each state's retries, catches, replies and writes are, in the definition's own terms |
| `saga_rollback`, `saga_agreement`, `saga_lifecycle`, `saga_ledger`, `saga_bounds`, `saga_clean` | theorems about all saga runs |
| `saga_witnesses`, `saga_losses` | runs that reach the bounds, and runs that leave something behind |
| `approval_store`, `approval_protocol`, `approval_service`, `rejection_cause`, `approval_rejection` | the approval gate, its concurrent clicks, and the JSON cause of a rejection |
| `job_store`, `job_handlers`, `job_rounding`, `job_workflow`, `job_reactions`, `job_theorems`, `job_termination`, `job_clean` | the long-running poll loop |
| `retry_backoff`, `retry_queue` | the SQS processor and the queue around it |
| `batch_handlers`, `batch_map`, `batch_workflow` | the scheduled batch, its Map state and the whole execution |

Each store, handler set and machine is a class whose methods update its fields; their contracts equate the
new state with a specification function (`ApplyWrite`, `Invoke`, `Step`, ...). A run is a fold of the step
function over an arbitrary sequence of events, so a lemma about `RunAll` is a lemma about every run. The
environment is part of the events: a Lambda attempt may succeed, fail before any of its store calls, or
finish them all and lose its reply (`Fault(after, error)`).

## What is proved, in short

- Saga: compensations are always a prefix of the reversed list of successes and the whole of it at
  `SagaFailed`; document and item agree; a compensation always names the id the forward Task returned; a
  rolled-back saga has given back everything it made if and only if no forward reply was lost;
  every run halts within 55 attempts, 425 seconds of retry waits and 2190 seconds of Tasks, and an adversary
  reaches the first two; the
  status only moves along its life cycle; runs without faults end as a function of the input.
- Approval: over all interleavings of any number of clicks with crashes and the timeout, a stored
  decision is the one that resumed the execution; at most one click is answered 200; a rejection reaches
  `on_rejected` with the stored approver and comment exactly when its cause was not cut.
- Poll loop: attempts strictly increase under lost replies, the budget bounds the evaluated polls, the
  loop is always left, COMPLETED needs a SUCCEEDED poll and a token callback; exact poll count and wait sum.
- Queue: conservation, at most `maxReceiveCount` processings, every message ends acknowledged or in the
  dead-letter queue; `batchItemFailures` decides which; the overflow guard of the backoff changes nothing.
- Batch: every schedule of the Map under every concurrency limit gives the sequential results, and the
  execution ends with their summary if and only if Split and Reduce recover.

Three statements that sound natural are false of the code, and are given with their exact condition:

- "Only, and all, the work that completed is undone" (`patterns/saga/README.md:32`). An attempt whose
  handler finishes but whose reply is lost has charged a payment that no compensation will ever name:
  either the step is not retried and the charge is not refunded (`LostChargeIsNeverRefunded`), or it is
  retried, charges again, and only the second charge is refunded while table and document agree
  (`FirstChargeIsNeverRefunded`). `NothingLeftBehindIff` keeps a ledger of what every attempt made and every
  compensation attempt gave back: wherever a run stands or ends, everything made was given back if and only
  if no attempt of the step lost its reply and, if the step succeeded, some attempt to undo it acted; and
  nothing is given back that was not made. `StoreAheadOfDocument` says exactly
  when the table shows such a loss, and `OrderLeftBehindIff` when an order is left DONE and not cancelled.
- "If any step fails, the steps that already succeeded are compensated" (`patterns/saga/statemachine.asl.json:2`).
  CompleteSaga has no Catch: when its retries run out, the execution fails with all four steps done and
  nothing compensated (`FailedCompletionIsNotRolledBack`). And the execution timeout of 900 seconds can cut a
  rollback anywhere (`CutRollbackLeavesCharge`): retry waits alone stay below it, but not together with the
  Tasks (`EveryRunHalts`, `BoundsAreReached`). `CompensationReversesSuccess` has the condition for each end:
  always at SagaFailed, never at CompensationFailed, after an uncaught error if and only if not all four
  steps had succeeded, and after the timeout if and only if it came in InitializeSaga, CreateOrder or
  MarkFailed.
- "A resumed execution has its decision recorded." A handler that dies between its accepted `SendTask*` and
  `record_decision` leaves the request open for good; `ResumedIsRecordedIff` says that, while the record is
  there, this is the only way to lose a decision.

One comment disagrees with the code: `patterns/retry-backoff/src/handler.py:165` calls an unparseable
record dropped; it is reported like a failed one, without backoff, and drains through redelivery.

## Model

| member | source | states |
|---|---|---|
| StatesLanguage.FirstRule | patterns/saga/statemachine.asl.json:20-26 | the first matching entry of a Retry or Catch array is taken, and none is taken only when no entry matches |
| StatesLanguage.RetrySpendsBudget | patterns/saga/statemachine.asl.json:20-23 | every granted retry takes exactly one retry and exactly its own wait out of the budgets of the state execution |
| StatesLanguage.DoublingWaits | patterns/saga/statemachine.asl.json:20-23 | the waits of a retrier with BackoffRate 2.0 sum to interval * (2^max - 2^used) |
| SagaRecords.SagaStore.Send | patterns/saga/src/store.py:104-112 | one request changes only its order's item, a SET below a missing map is refused and changes nothing, and an interrupted request writes nothing |
| SagaRecords.SagaStore.StartSaga | patterns/saga/src/store.py:61-89 | start replaces the item by STARTED with empty step and attempt maps and the order's customer, amount, currency and, when positive, lifetime |
| SagaRecords.SagaStore.Record | patterns/saga/src/store.py:92-113 | record_step sets one nested entry and keeps all others |
| SagaRecords.SagaStore.Status | patterns/saga/src/store.py:118-125 | set_status changes the status and nothing else, creating the item if it is missing |
| SagaRecords.SagaStore.Increment | patterns/saga/src/store.py:131-150 | increment_attempt adds one to the counter of its step and returns the new count |
| SagaHandlers.Handlers.MaybeInjectTransient | patterns/saga/src/handlers.py:80-95 | raises SagaTransientError exactly while the counter is below the flaky value, having counted the attempt; a zero value touches nothing |
| SagaHandlers.Handlers.RunForward | patterns/saga/src/handlers.py:108-195 | the four forward steps: validation before start before injection before record_step, with the reply and the item of each early exit |
| SagaHandlers.Handlers.RunCompensation | patterns/saga/src/handlers.py:219-266 | the three compensations: COMPENSATING first, then SKIPPED or DONE with the id found in the document |
| SagaHandlers.Handlers.RunMark | patterns/saga/src/handlers.py:198-205 | complete_saga and mark_failed set only the status |
| SagaHandlers.Handlers.InvokeHandler | patterns/saga/src/handlers.py:67-72 | one invocation under any fault: an order block that is not usable changes no item, a fault that outlives the store calls takes away the reply but not the writes |
| SagaExecutions.SagaExecution.PlaceOutput | patterns/saga/statemachine.asl.json:6-18 | ResultPath rewrites its own part of the document and never the order |
| SagaExecutions.SagaExecution.HandleReturn | patterns/saga/statemachine.asl.json:78-88 | a successful Task stores its result, goes to Next with fresh retry counters or ends the execution |
| SagaExecutions.SagaExecution.HandleRaise | patterns/saga/statemachine.asl.json:20-26 | a failed Task is retried, caught or fatal as its ordered lists and counters say |
| SagaExecutions.SagaExecution.RunOnce | patterns/saga/statemachine.asl.json:3-158 | one event of the running machine, with its handler and table, is one step of the model, and other orders' items stay as they are |
| SagaExecutions.SagaExecution.Run | patterns/saga/statemachine.asl.json:3-158 | executing a sequence of events in place is the run of the model over it |
| SagaExecutions.Orchestrate | patterns/saga/statemachine.asl.json:3-4 | 56 events bring every new execution to a halt |
| SagaReactions.ForwardErrors | patterns/saga/statemachine.asl.json:20-26 | for every forward step, counters and error: a transient error is retried while fewer than 3 retries of it were used, after 2 * 2^k seconds, one of the four Lambda service errors while fewer than 4 were, after 2^k; everything else goes to the step's Catch |
| SagaReactions.ForwardFailure | patterns/saga/statemachine.asl.json:20-26 | on the running execution a failed attempt is retried exactly then, with document and place unchanged, and otherwise `$.error` holds the error and the rollback begins |
| SagaReactions.ForwardSuccess | patterns/saga/statemachine.asl.json:14-76 | a successful step stores its output under its own result key, changes nothing else in the document, and goes on along the chain |
| SagaReactions.ForwardResult | patterns/saga/src/handlers.py:131-195 | what each forward step returns and what its entry holds, with the ids built from their prefixes and the fresh suffix |
| SagaReactions.CompensationFailure | patterns/saga/statemachine.asl.json:96-101 | a compensation is retried five times on any error after 3 * 2^k seconds, then the error is under `$.compensation.error` and the execution in CompensationFailed |
| SagaReactions.CompensationResult | patterns/saga/src/handlers.py:219-266 | in every run a compensation that returns names the reservation, payment or order that its forward step returned, under its own key of `$.compensation`, and goes on down the chain |
| SagaReactions.CompensationInterrupted | patterns/saga/src/handlers.py:223-235 | under a fault a compensation gets nowhere, as far as the status, or through both writes, in this order |
| SagaReactions.NothingToUndoIsSkipped | patterns/saga/src/handlers.py:226-232 | without a result of its forward step, release and refund record SKIPPED and return it |
| SagaReactions.MarkFailedErrors | patterns/saga/statemachine.asl.json:141-143 | MarkFailed is retried four times on any error, after 2 * 2^k seconds, then the execution fails with it |
| SagaReactions.CompletionErrors | patterns/saga/statemachine.asl.json:84-86 | CompleteSaga is retried three times on any error, after 2 * 2^k seconds, then the execution fails with it |
| SagaReactions.MarkResult | patterns/saga/src/handlers.py:198-205 | complete_saga and mark_failed set their status, return it, and end the execution |
| SagaReactions.Initialises | patterns/saga/statemachine.asl.json:6-12 | the first state empties the results and keeps the rest of the input |
| SagaReactions.InvalidOrderIsRefused | patterns/saga/src/handlers.py:115-118 | an order without a positive amount or without line items is refused under any fault, before any write |
| SagaReactions.InvalidOrderHasNoEffect | patterns/saga/src/handlers.py:115-118 | no run from such an input completes or compensates a step, reaches one after create_order, or writes more than the item's status |
| SagaReactions.ValidOrderIsCreated | patterns/saga/src/handlers.py:120-134 | a valid order that nothing disturbs is created, with customer, amount, currency and a lifetime of 90 days on record |
| SagaReactions.CreationInterrupted | patterns/saga/src/handlers.py:121-132 | under a fault create_order gets nowhere, as far as `start`, or through its entry |
| SagaReactions.OrderIsOnRecord | patterns/saga/src/store.py:77-89 | in every run the item keeps what `start` stored about the order |
| SagaReactions.NoOrderBlock | patterns/saga/src/handlers.py:67-72 | without a usable order block every handler raises and writes nothing |
| SagaRollback.CatchEntersReverseChain | patterns/saga/statemachine.asl.json:24-74 | each Catch edge enters the compensation chain exactly at the reversed list of the steps before it |
| SagaRollback.CompensationReversesSuccess | patterns/saga/statemachine.asl.json:14-157 | in every run the completed compensations are a prefix of the reverse of the succeeded steps, all of it at SagaFailed, a part at CompensationFailed, none on success; a failed CompleteSaga compensates nothing, a failed MarkFailed everything; a run cut by the execution timeout is rolled back if and only if the cut came in InitializeSaga, CreateOrder or MarkFailed |
| SagaAgreement.DocumentAgreesWithStore | patterns/saga/src/handlers.py:131-195 | the document holds results of exactly the succeeded steps, and the item says DONE with the same id for each, even after lost replies |
| SagaAgreement.CompensationHitsItsTarget | patterns/saga/src/handlers.py:212-255 | every compensation attempt of every run names the non-empty id its forward Task returned, so it never returns SKIPPED and no other target is ever stored |
| SagaAgreement.NestedWritesResolve | patterns/saga/src/store.py:92-150 | every nested write of every run finds its parent map, whatever item the order id had before |
| SagaLifecycle.StatusLifecycle | patterns/saga/src/store.py:76-129 | the status of a fresh order only moves along its life cycle; success means COMPLETED with all four steps DONE, SagaFailed means FAILED, CompensationFailed neither; a failed CompleteSaga leaves STARTED or COMPLETED, a failed MarkFailed never COMPLETED |
| SagaLifecycle.StoreAheadOfDocument | patterns/saga/src/handlers.py:137-195 | the item says DONE for a step the document lacks if and only if the step's last effective attempt lost its reply and it never succeeded |
| SagaLifecycle.StoreAgreesWithDocument | patterns/saga/src/handlers.py:137-195 | when every failure is raised before a handler returns, item and document name the same steps |
| SagaLedger.NothingLeftBehindIff | patterns/saga/src/handlers.py:137-266 | for every input, item and run, wherever it stands or ended, with distinct ids: the payments, reservations and shipments that attempts made have all been given back if and only if no attempt of the step lost its reply and, if the step succeeded, some compensation attempt acted; only what was made is given back; at SagaFailed it is given back exactly once if and only if no reply of step or compensation was lost; a completed saga made exactly one of each if and only if no reply was lost |
| SagaLedger.OrderLeftBehindIff | patterns/saga/src/handlers.py:108-134 | for a fresh order id, a rolled-back saga leaves the order DONE and not cancelled if and only if create_order's last effective attempt lost its reply and the step never succeeded |
| SagaLedger.NotYetUndone | patterns/saga/statemachine.asl.json:90-133 | no run compensates a step twice |
| SagaBounds.TableEdges | patterns/saga/statemachine.asl.json:6-157 | the Next and Catch edges used for the bounds are those of the table |
| SagaBounds.BudgetIs | patterns/saga/statemachine.asl.json:20-26 | the Retry lists allow 8 attempts per forward step, 6 per compensation, 5 for MarkFailed, 4 for CompleteSaga, and 29, 93, 30, 14 seconds of waits |
| SagaBounds.BeyondIsWorstExit | patterns/saga/statemachine.asl.json:6-157 | the budget beyond a state is that of its costlier exit, for every state |
| SagaBounds.EveryRunHalts | patterns/saga/statemachine.asl.json:4-157 | every run halts within 56 steps, within the attempts per state, 55 attempts in all, 425 seconds of retry waits and 2190 seconds of Task timeouts |
| SagaCleanRuns.CleanOutcome | patterns/saga/src/handlers.py:80-129 | without faults the saga completes if and only if each step's flaky value is at most 4 (1 for create_order, whose retries reset the counter) and nothing else blocks it, with max(1, n) attempts per step and the doubling waits; otherwise it rolls back from the first blocked step |
| SagaCleanRuns.CompletableMeans | patterns/saga/src/handlers.py:80-129 | an input lets the saga complete if and only if its amount is positive, it has line items, `fail_at` names no forward step, and the flaky values are at most 1 for create_order and 4 for the others |
| SagaWitnesses.InputResultsIgnored | patterns/saga/statemachine.asl.json:6-12 | a results object in the input has no influence on a run, because InitializeSaga overwrites it |
| SagaWitnesses.LostChargeIsNeverRefunded | patterns/saga/statemachine.asl.json:30-44 | for every plain order, a charge whose reply is lost ends in SagaFailed with only the order cancelled |
| SagaLosses.FirstChargeIsNeverRefunded | patterns/saga/statemachine.asl.json:30-44 | for every plain order there is a run that charges pay-a and pay-b, refunds pay-b alone and ends in SagaFailed, with table and document agreeing on pay-b |
| SagaLosses.FailedCompletionIsNotRolledBack | patterns/saga/statemachine.asl.json:78-88 | for every plain order, four timeouts of CompleteSaga fail the execution with all four steps done and nothing compensated |
| SagaLosses.CutRollbackLeavesCharge | patterns/saga/statemachine.asl.json:4 | for every plain order, a ReserveInventory failure followed by the execution timeout leaves order and charge with nothing compensated |
| SagaWitnesses.BoundsAreReached | patterns/saga/statemachine.asl.json:4-157 | some run uses exactly 55 attempts and 425 seconds of waits, and Tasks that take their full timeouts then exceed the 900 seconds of the execution |
| ApprovalRecords.OneDecisionPerOpening | patterns/approval-workflow/src/store.py:76-129 | with no assumption on tokens, accepted decisions never outnumber the openings by unguarded writes, in any order of writes |
| ApprovalRecords.FirstDecisionStays | patterns/approval-workflow/src/store.py:85-120 | of any number of decisions on an open request, exactly the first is accepted and stays |
| ApprovalRecords.ApprovalStore.CreateRequest | patterns/approval-workflow/src/store.py:49-74 | create makes the request PENDING with its title, amount, requester, context and, when positive, lifetime, whatever was there, and touches no other request |
| ApprovalRecords.ApprovalStore.Attach | patterns/approval-workflow/src/store.py:76-83 | attach_token stores the token and NOTIFIED unconditionally |
| ApprovalRecords.ApprovalStore.ForceStatus | patterns/approval-workflow/src/store.py:122-129 | set_status is unguarded |
| ApprovalRecords.ApprovalStore.Record | patterns/approval-workflow/src/store.py:85-120 | record_decision is accepted exactly on a present PENDING or NOTIFIED request, and otherwise changes nothing |
| ApprovalProtocol.GateErrors | patterns/approval-workflow/statemachine.asl.json:41-45 | the ordered Catch list sends ApprovalRejected to HandleRejection, the timeout to ApprovalTimedOut, everything else to ApprovalError |
| ApprovalProtocol.GateExits | patterns/approval-workflow/statemachine.asl.json:39-46 | the state that follows each way the gate can end |
| ApprovalProtocol.GateEnds | patterns/approval-workflow/statemachine.asl.json:39-45 | a waiting task that times out leads to ApprovalTimedOut, a failing notification where the catch list says |
| ApprovalProtocol.RecordedAnswers | patterns/approval-workflow/src/handlers.py:241-253 | an accepted record_decision is answered 200, a refused one 409 |
| ApprovalProtocol.DecisionAgreement | patterns/approval-workflow/src/handlers.py:223-257 | over all interleavings a stored decision is that of the click that resumed the execution, with its approver and comment and the matching next state, and only that click can be answered 200 |
| ApprovalProtocol.DecisionIsFinal | patterns/approval-workflow/src/handlers.py:223-257 | no action but TTL expiry changes a decided request, a resolved gate stays resolved, and nothing is recorded after a timeout |
| ApprovalProtocol.WinnerNeverConflicts | patterns/approval-workflow/src/handlers.py:252-253 | while the record is there the click whose signal was accepted finds it open, so AlreadyDecidedError is unreachable |
| ApprovalProtocol.ResumedIsRecordedIff | patterns/approval-workflow/src/handlers.py:236-250 | while the record is there, a resumed request is decided if and only if no crash of the schedule fell between an accepted signal and record_decision, and the winner is not still between them |
| ApprovalProtocol.CrashedWinnerNeverRecords | patterns/approval-workflow/src/handlers.py:236-250 | after a crash in between the request stays undecided in every continuation |
| ApprovalProtocol.CrashLeavesUndecided | patterns/approval-workflow/src/handlers.py:236-250 | such a run exists for every click |
| ApprovalService.ApprovalEndpoint.PrepareRequest | patterns/approval-workflow/src/handlers.py:99-130 | a missing title or an amount that is not numeric raises without a write; otherwise the request is created PENDING under its own or a fresh id |
| ApprovalService.ApprovalEndpoint.SendApprovalEmail | patterns/approval-workflow/src/handlers.py:133-153 | missing id or token raises without a write; otherwise the token is attached before the mail, whether or not the mail fails |
| ApprovalService.ApprovalEndpoint.SendTask | patterns/approval-workflow/apigateway.tf:8-12 | a token is accepted once, while its task waits |
| ApprovalService.ApprovalEndpoint.DecisionHandler | patterns/approval-workflow/src/handlers.py:199-257 | in terms of the event: the route, or on another path the `action` parameter in any letter case, decides between APPROVED with TaskSuccess and REJECTED with TaskFailure(ApprovalRejected); approver and comment are the parameters, the approver "unknown" when empty; 400 for a malformed link, 404 without a record, 409 for a decided one, 410 when the task no longer waits, 200 for a decision, and no write but for 200 |
| ApprovalService.ApprovalEndpoint.Decide | patterns/approval-workflow/src/handlers.py:199-257 | an invocation that is not interrupted is one schedule of the protocol: same item, same gate, same status code |
| ApprovalService.ChoiceMeans | patterns/approval-workflow/src/handlers.py:206-213 | the route decides, only another path falls back to the `action` parameter, in any letter case |
| ApprovalService.UninterruptedIsARun | patterns/approval-workflow/src/handlers.py:223-257 | that schedule is a run of five protocol actions, so the theorems over all runs apply to the handler |
| RejectionCause.BodyReads | patterns/approval-workflow/src/handlers.py:181-185 | decoding an escaped string gives it back, with split surrogate pairs joined, and stops at its quote |
| RejectionCause.LoadsDumps | patterns/approval-workflow/src/handlers.py:244-248 | the encoded object parses to its three members |
| RejectionCause.CutObjectFails | patterns/approval-workflow/src/handlers.py:247 | no proper prefix of a complete object parses |
| RejectionCause.CauseRoundTrip | patterns/approval-workflow/src/handlers.py:179-192 | on_rejected reads back approver and comment when nothing was cut, and the whole cut text as comment when something was |
| RejectionCause.FaithfulIff | patterns/approval-workflow/src/handlers.py:179-192 | the round trip is exact if and only if the cause fits 32000 characters and neither text holds a split surrogate pair |
| RejectionCause.PlainCause | patterns/approval-workflow/src/handlers.py:247 | for plain texts the cause is, character for character, the three members with nothing escaped |
| RejectionCause.UnitEscapes | patterns/approval-workflow/src/handlers.py:247 | other characters are written as four lower-case hexadecimal digits |
| RejectionCause.PlainRoundTripIff | patterns/approval-workflow/src/handlers.py:179-192 | for plain texts the round trip is exact if and only if they have at most 31948 characters together |
| ApprovalRejection.RejectionReport | patterns/approval-workflow/src/handlers.py:174-192 | in every interleaving a request stored as REJECTED has its execution in HandleRejection, which reports the stored approver and comment unless the cause was cut |
| ApprovalRejection.CauseText | patterns/approval-workflow/src/handlers.py:244-248 | the cause of a click holds its approver, clock reading and comment under their keys |
| JobRecords.JobStore.Send | patterns/long-running/src/store.py:92-126 | a request changes only its job's item, and an interrupted one changes nothing |
| JobRecords.WritesAreSeparate | patterns/long-running/src/store.py:72-126 | each write sets its own attributes and keeps the others; create replaces the record |
| JobHandlers.Handlers.SubmitJob | patterns/long-running/src/handlers.py:83-116 | submit_job resets the record with a threshold of at least 1, the payload and, for a positive number of days, a lifetime, and returns attempt 0 with the base wait |
| JobHandlers.Handlers.PollJob | patterns/long-running/src/handlers.py:119-161 | poll_job counts the attempt before anything else can fail, then stores status and progress and returns them; a missing record raises |
| JobHandlers.Handlers.RequestSignoff | patterns/long-running/src/handlers.py:164-183 | request_signoff stores the token and leaves the status alone; a missing job id or token raises without a write |
| JobHandlers.Handlers.Finalize | patterns/long-running/src/handlers.py:186-201 | finalize sets COMPLETED and nothing else |
| JobWorkflow.JobExecution.Handle | patterns/long-running/statemachine.asl.json:3-121 | one event of the running machine is one step of the model; records of other jobs stay as they are |
| JobWorkflow.JobExecution.Run | patterns/long-running/statemachine.asl.json:3-121 | executing a sequence of events in place is the run of the model over it |
| JobReactions.TaskErrors | patterns/long-running/statemachine.asl.json:18-23 | SubmitJob and PollJob are retried four times on the four Lambda service errors, after 2 * 2^k seconds; everything else leads to JobFailed |
| JobReactions.GateErrors | patterns/long-running/statemachine.asl.json:79-82 | at the sign-off gate the timeout leads to SignoffTimedOut, every other error to JobFailed, and nothing is retried |
| JobReactions.GateReplies | patterns/long-running/statemachine.asl.json:66-102 | after any run a failing reply or request_signoff attempt leads to SignoffTimedOut if and only if it reports States.Timeout, and a successful reply leads through Finalize to COMPLETED |
| JobReactions.SignoffIsEarned | patterns/long-running/statemachine.asl.json:55-102 | by the events of a run: completion needs an evaluated SUCCEEDED poll and a successful token callback, SignoffTimedOut a SUCCEEDED poll and a timeout of the gate |
| JobReactions.FinalizeErrors | patterns/long-running/statemachine.asl.json:98-100 | Finalize is retried three times on any error, after 2 * 2^k seconds, then the execution fails with it |
| JobReactions.PollReports | patterns/long-running/src/handlers.py:131-161 | what a poll returns and stores for a failing, a finished and a running job, the percentage of a FAILED poll included |
| JobReactions.PollInterrupted | patterns/long-running/src/handlers.py:131-148 | under a fault a poll does nothing, counts the attempt alone, or does everything, and its reply is lost |
| JobReactions.PollWithoutRecord | patterns/long-running/src/handlers.py:121-129 | a missing job id or record raises JobNotFoundError and writes nothing |
| JobReactions.SubmitReports | patterns/long-running/src/handlers.py:89-116 | what submit_job returns and stores |
| JobReactions.OneWriteInterrupted | patterns/long-running/src/handlers.py:164-195 | the handlers that write once have written nothing or everything when their reply is lost |
| JobReactions.SignoffIsAsked | patterns/long-running/src/handlers.py:164-183 | request_signoff stores its task's token and nothing else, and is not asked again |
| JobReactions.Waits | patterns/long-running/statemachine.asl.json:27-32 | a negative wait is an error of the interpreter, any other leads to PollJob |
| JobRounding.DoubleRoundsLikeQuotient | patterns/long-running/src/handlers.py:143 | rounding the double nearest to a quotient gives what rounding the exact quotient gives, for every dividend below 2^52 |
| JobRounding.ProgressWithDoubles | patterns/long-running/src/handlers.py:143 | for every attempt number below 2^52 / 100, progress computed by correctly rounded double division and round() is the integer nearest to the exact percentage, ties to even, capped at 100 |
| JobTheorems.RunningShows100Iff | patterns/long-running/src/handlers.py:143-145 | a RUNNING poll shows 100 exactly when 200 * (n - attempt) <= n |
| JobTheorems.First100WhileRunning | patterns/long-running/src/handlers.py:136-148 | the formula gives 100 for some attempt below the threshold if and only if the threshold is at least 200 |
| JobCleanRuns.LastPollShows100 | patterns/long-running/src/handlers.py:136-148 | every faultless run of a job with threshold 200 or more, within the budget, has its record at RUNNING and 100 percent after the last poll but one |
| JobCleanRuns.RunningAt100Iff | patterns/long-running/src/handlers.py:136-148 | some run of a new job ends with a record at RUNNING and 100 percent if and only if the job does not fail and its threshold is at least 200 |
| JobTheorems.RunningStaysBelow100 | patterns/long-running/src/handlers.py:136-148 | in every run of a job that fails or has a threshold up to 199 the record never says RUNNING at 100 percent, whatever the job id had before, unless that earlier record was never written to |
| JobTheorems.PollLoopIsBounded | patterns/long-running/statemachine.asl.json:34-102 | under lost replies the attempts seen strictly increase, at most max(1, max_attempts) polls are evaluated, a reachable threshold never times out, COMPLETED needs a SUCCEEDED poll and a successful token callback or is an earlier record never written to; for any record the job id had before |
| JobTheorems.ProgressNeverFalls | patterns/long-running/src/handlers.py:143-148 | once submitted, no event of any run lowers the stored progress, which stays within 0..100; for any record the job id had before |
| JobTermination.LoopAlwaysEnds | patterns/long-running/statemachine.asl.json:6-64 | every run leaves the loop within 5 + 7 * max(1, max_attempts) turns, replies lost or not, for any record the job id had before |
| JobCleanRuns.ExactPollCount | patterns/long-running/src/handlers.py:83-161 | without faults a job, new or submitted again, is polled once if it fails, else min(succeed_after, max(1, max_attempts)) times, and reaches the gate exactly when its threshold is within the budget |
| JobCleanRuns.WaitClosedForm | patterns/long-running/src/handlers.py:68-76 | the waits before the n-th poll sum to base * (2^m - 1) + (n - m) * cap |
| JobCleanRuns.CapIndex | patterns/long-running/src/handlers.py:68-76 | m is the smaller of n and the first poll whose uncapped interval reaches the cap |
| JobCleanRuns.WaitsGrow | patterns/long-running/src/handlers.py:68-76 | each wait is at least the one before and at most the cap |
| RetryBackoff.GuardIsInvisible | patterns/retry-backoff/src/handler.py:97-104 | for all integers the guarded ceiling equals the documented one |
| RetryBackoff.CeilingGrows | patterns/retry-backoff/src/handler.py:97-104 | the ceiling never shrinks from one attempt to the next, for any base and cap |
| RetryBackoff.JitterWithinCeiling | patterns/retry-backoff/src/handler.py:104 | a jittered delay is within [0, ceiling], and both ends occur |
| RetryBackoff.Processor.ComputeBackoffSeconds | patterns/retry-backoff/src/handler.py:72-104 | the computed delay is within [0, documented ceiling] |
| RetryBackoff.Processor.BackoffRecord | patterns/retry-backoff/src/handler.py:125-143 | the record's visibility becomes the delay, or stays when the change is refused |
| RetryBackoff.Processor.Handle | patterns/retry-backoff/src/handler.py:146-179 | the response is the failing records of the batch, and the visibility changes are those of its raising records |
| RetryBackoff.FailuresAreTheSubsequence | patterns/retry-backoff/src/handler.py:152-179 | batchItemFailures is exactly the in-order subsequence of unparseable or raising records |
| RetryBackoff.OnlyRaisingAreBackedOff | patterns/retry-backoff/src/handler.py:160-177 | only records that parsed and raised get a new visibility, within the ceiling of their attempt |
| RetryBackoff.RaisingIsBackedOff | patterns/retry-backoff/src/handler.py:169-177 | in a batch of distinct messages a record that parsed and raised gets draw * ceiling cut to whole seconds as its visibility, unless the change is refused; every other record keeps what it had |
| RetryBackoff.OthersKeepVisibility | patterns/retry-backoff/src/handler.py:136-140 | a message outside the batch keeps its visibility |
| RetryQueue.QueueConservation | patterns/retry-backoff/main.tf:62-67 | in every run a message is in exactly one of queue, flight, acknowledged and dead letters; acknowledged only after process_record returned; processed at most maxReceiveCount times; its delays sum to at most its ceilings |
| RetryQueue.FateIsEarned | patterns/retry-backoff/main.tf:62-67 | by the actions of a run: an acknowledged message had a call that returned, a dead-lettered one exactly maxReceiveCount deliveries, and no message more calls than deliveries |
| RetryQueue.MessageMoves | patterns/retry-backoff/main.tf:62-67 | a queued message that is received goes in flight, or to the dead-letter queue once its receives are spent; without an answer it is queued again |
| RetryQueue.AnswerDecidesFate | patterns/retry-backoff/src/handler.py:146-179 | the returned list decides: named messages are back on the queue, all others of the batch acknowledged, no other message moves |
| RetryQueue.EveryMessageIsSettled | patterns/retry-backoff/main.tf:62-67 | once deliveries and answers keep coming, every message ends acknowledged or in the dead-letter queue, unparseable bodies in the latter |
| RetryQueue.ProgressDrains | patterns/retry-backoff/main.tf:62-67 | the receives a message has left bound the progress until the queue is empty |
| RetryQueue.NeverStuck | patterns/retry-backoff/main.tf:56-67 | while a message is pending, something can be delivered or become visible again |
| BatchHandlers.ShardsTile | patterns/scheduled-batch/src/handlers.py:42-50 | a record index lies in shard i exactly when i is its thousand, so the shards tile [0, 1000 * count) |
| BatchHandlers.ShardFields | patterns/scheduled-batch/src/handlers.py:42-50 | shard i carries its number, the run source and the i-th thousand |
| BatchHandlers.ProcessCounts | patterns/scheduled-batch/src/handlers.py:62-73 | processing a shard of any range reports its id and the length of the range |
| BatchHandlers.CountsAddUp | patterns/scheduled-batch/src/handlers.py:80-89 | succeeded and failed results add up to all, and some result failed exactly when the status is PARTIAL |
| BatchHandlers.SummaryIsExact | patterns/scheduled-batch/src/handlers.py:76-93 | records_processed is 1000 * (shards - failed), PARTIAL exactly when a shard failed |
| BatchMap.ShardError | patterns/scheduled-batch/step_functions.tf:55-67 | all errors but a timeout get three retries of 3, 6, 12 seconds; then, and for a timeout at once, ShardFailed |
| BatchMap.FailsIff | patterns/scheduled-batch/step_functions.tf:55-77 | a shard fails exactly when one of its first four attempts times out after failures only, or all four fail |
| BatchMap.EverySlotIsSequential | patterns/scheduled-batch/step_functions.tf:39-80 | under every schedule at most MaxConcurrency shards are active, and a finished one holds its sequential result at its own index after at most 4 attempts and 21 seconds |
| BatchMap.StartsWithRoom | patterns/scheduled-batch/step_functions.tf:42 | a waiting shard starts as soon as the limit leaves room |
| BatchMap.ResultFields | patterns/scheduled-batch/step_functions.tf:54-77 | result i carries the number of shard i, and 1000 records or the error that ended it |
| BatchMap.NeverStuck | patterns/scheduled-batch/step_functions.tf:39-43 | the concurrency limit never blocks the batch |
| BatchMap.MapRefinesSequential | patterns/scheduled-batch/step_functions.tf:39-99 | every schedule that makes progress finishes with exactly the sequential results, and the summary depends on neither schedule nor limit |
| BatchMap.MapExecution.StartShard | patterns/scheduled-batch/step_functions.tf:39-43 | a shard starts only when its slot is free to run and the limit leaves room |
| BatchMap.MapExecution.ReturnAttempt | patterns/scheduled-batch/step_functions.tf:46-77 | an attempt that returns updates its own slot of the result array in place, as its Retry and Catch say |
| BatchWorkflow.RunTask | patterns/scheduled-batch/step_functions.tf:30-35 | Split or Reduce succeeds if and only if one of its first five attempts does after service errors only, within 30 seconds of waits |
| BatchWorkflow.RunBatch | patterns/scheduled-batch/step_functions.tf:20-99 | the execution ends with the summary of the sequential batch if and only if Split and Reduce recover, and otherwise with the error that Split, or else Reduce, ended on |

## Left out

- JobRounding.ProgressWithDoubles: attempt numbers from 2^52 / 100 on, where the division itself may cross a halfway point.
- SagaLedger.NothingLeftBehindIff: create_order is not in the ledger, because all its attempts share the caller's order id and each starts the record over (OrderLeftBehindIff speaks about it); that two draws of `uuid` differ is a hypothesis on the ledger.
- SagaBounds.EveryRunHalts: there is no clock; the execution timeout is an event that can come at any time, even before the Tasks could have used it up.
- The saga's execution input is an object, and its `compensation`, if there is one, is an object too. With any other value there, `$.compensation` paths cannot be applied (`patterns/saga/statemachine.asl.json:94`, `:100`), and a rollback would end in an error of the interpreter.
- RejectionCause.LoadsDumps: the parser covers flat objects of strings, which is what causes and their prefixes are; other JSON is not needed.
- ApprovalService.ApprovalEndpoint.DecisionHandler: assumes that a link carries the token of its own request and that request ids are not reused; the links' secrecy is not modelled.
- ApprovalService.ApprovalEndpoint.SendApprovalEmail: mail, links and HTML are one outcome parameter.
- RetryQueue.QueueConservation: leases that outlive a Lambda, duplicate message ids in one batch and message retention are outside the queue contract.
- RetryBackoff.Processor.Handle: whether a body parses and whether process_record raises are inputs, since process_record is a placeholder.
- ApprovalProtocol.ResumedIsRecordedIff: runs in which TTL removes the record; a decision may then be gone, or refused to the winner.
- Client-side retries of DynamoDB requests (`_DDB_CONFIG` in `patterns/saga/src/store.py:24`, `patterns/approval-workflow/src/store.py:22`, `patterns/long-running/src/store.py:24`): each request is applied at most once. A resend after a lost DynamoDB response could raise AlreadyDecidedError for the winner itself or count an attempt twice.
- The wiring of the approval payload: `patterns/approval-workflow/statemachine.asl.json:14-17` and `:35` wrap the request twice, while `patterns/approval-workflow/src/handlers.py:140-143` expects it one level up. The handlers are driven with the event shape of `tests/test_approval_workflow.py:78`, and nothing is claimed about that JSON path end to end.
- States.ALL follows the ASL specification; errors that the service never lets a workflow catch are not distinguished.
- One execution at a time per order, job and request id; Lambda attempts that keep running after they were reported as failed.
- Order amounts that are not numbers, or NaN; amounts are reals. Flaky values are integers.
- Clock readings (`created_at`, `updated_at`, `decided_at`, `at`): a lifetime is stored as the seconds from creation to expiry. Tracking numbers and logging; `uuid` is a fresh suffix parameter.
- `patterns/idempotent-processor` (its logic is in AWS Lambda Powertools, which is not part of this model), `patterns/webhook-ingest` and `patterns/fan-out` (easier than the retry queue), Terraform and IAM.
