# Workflow runtime: model and proofs

A Dafny model of the runtime's four stateful cores and proofs of what they keep.

**Jobs and workers.** Jobs move between queued, scheduled, running and four end statuses. Workers claim jobs under
leases, run them, lose leases and are reset; operators cancel, reschedule, prune, repair and recover. Two record
stores must agree about who runs what. `QueueJobs` holds the job record and its updates, `JobAudit` its log,
`JobInvariants` what one update keeps. `LeaseProtocol` gives every API call as a relation between states; `LeaseStore`
is the imperative store, whose methods are proved to be those relations and keep a trail of the states after each
record write. `LeaseSafety`, `LeaseScheduling`, `LeaseRecovery`, `LeaseHolding` and `LeaseHistory` hold the theorems
over all runs, `LeaseCrash` those about calls cut off between two writes. What each call does to each record is said
once more in the records' own fields, without the functions that compute it: `QueueLaws` for one update, `LeaseLaws`
for one call, `LeaseListings` for the calls that work through a sorted listing. `LeaseWaiting` draws from these that
over every run nothing is queued or claimed early.

**Workflows and the agent's interpreter.** A workflow is a list of steps (an action, waits put in front of the finish,
the finish) with a retry budget and a change log. `WorkflowSteps` gives its operations, `WorkflowObjects` the mutable
object that performs them. `WorkflowShape` is the shape a workflow keeps, `WorkflowShapeLaws` says for every operation
exactly when it keeps it, `WorkflowRedo` describes the second life of a workflow that has lost its result at the
finish, `WorkflowResults` what each operation makes of every step of a workflow in order. `WorkflowAudit`,
`WorkflowEvolution` and `WorkflowIds` are about the log and about what the operations touch. `WorkflowLogLaws` says
entry by entry what a write logs. `Approvals` is the approval record. `AgentSteps` puts them together: one turn of the
interpreter's loop, the exception handler, later runs on a workflow in any state, operator decisions at any time,
crashes. `AgentSafety` and `AgentHistory` prove what holds over every such history, `AgentOrder` what holds while no
run begins on a restartable workflow, `AgentRestarts` exactly when a run misbehaves and what it then does,
`AgentTermination` that the loop ends, `AgentOutcomes` what a workflow costs and what its end means. `AgentRuns` is
the run as an object with its loop; `AgentScenarios` are two histories that happen. `AgentTurns` says in the machine's
own fields what each turn and each beginning of a run does, `AgentFaults` what becomes of each thing that can go
wrong, `AgentDecisions` what an operator's decision means for every history that follows.

**Delegation.** `Delegation` builds what a parent hands to a child; `WorkflowTree` is the tree of workflows and its
size and depth bounds. `DelegationLaws` gives the checks of starting a child in their order and the records they let
through.

**Bounded context.** `BoundedText` and `Continuity` model session compaction and its texts, `MemoryQuery` the
retrieval of memories within a character budget, `Summaries` the search in a text and the summary cut around what is
found. `ContinuityLaws` and `MemoryLaws` say in their own fields what advice, compactions and summaries record, and
how an answer is scored and ordered and what it leaves out.

`Common` and `Text` hold shared vocabulary. Ids are natural numbers, times are integers, records live in maps. What
the world decides (the clock, new ids, what a tool, a model or an agent's configuration returns or raises) is a
parameter of the step it affects.

## Findings

These are properties one might expect of the code that do not hold. Each has its exact condition.

- `start_workflow` begins a run on an approval whatever the status of the approval's workflow
  (runtime/workflow_runner.py:20-40, runtime/agent.py:600-625); only `resume_workflow` checks it. A failed
  workflow can so make further calls without bound: post the same request with the same, resumed approval again
  (`AgentScenarios.RepeatedRequestCallsForever`). A run behaves, and the number of calls on an ended workflow is
  bounded, exactly when the stored workflow is not restartable: it has not failed, or it failed at its finish or
  at an approval that was denied or aborted (`AgentRestarts.RunBehavesExactlyWhen`,
  `AgentRestarts.CallsStopExactlyWhen`, `AgentRestarts.CallsBoundedExactlyWhen`). On a restarted workflow even the
  exception handler can raise (`AgentRestarts.HandlerRaisesOnEnded`). What survives every restart is the approval
  gate, the log, the final status and that success needs a call.
- An artifact lost to an error that counts as retryable makes the runtime schedule a retry at the finish. The
  workflow loses its shape exactly then (`AgentOrder.MoveKeepsShape`, `AgentHistory.ShapeStaysExactlyWhen`): it gets
  a second life in which the completed action is called again (`WorkflowRedo.RetryPastAction`,
  `WorkflowRedo.RedoCompletes`). Guards and budgets still hold in it.
- Taken for themselves, the operations keep the shape only under the conditions that `WorkflowShapeLaws` gives for
  each. `WorkflowShape.RetryAtFinishBreaksShape` and `WorkflowShape.ResumingAFailedWaitBreaksShape` are witnesses.
- A running job need not have a holder. It loses it exactly by a forced reset without requeue, or by running a
  canceled job on a worker busy with another one (`LeaseHolding.StepKeepsHeldUnlessStranding`). It is not lost
  (`LeaseHolding.StrandedJobIsReclaimed`).
- Repairing orphaned workers does not notice a consistent holder that is not marked busy
  (`LeaseRecovery.UnlimitedRepairRestoresOwnership`, `LeaseRecovery.MislabeledHolderSurvives`). Crashes between
  record writes do not produce one (`LeaseCrash.RepairAfterCrash`, `LeaseCrash.RepairAfterCrashes`).
- A delegation does not bind what its holder hands on (`Delegation.AttenuationIsNotTransitive`). It does exactly
  when the holder's subrun policy admits nothing beyond it (`Delegation.CapabilitiesAttenuateExactlyWhen`,
  `Delegation.ToolsAttenuateExactlyWhen`).
- A text limit below three is exceeded, because the slice then counts from the end (`BoundedText.TruncateFits`,
  `BoundedText.BoundedFits`, `Continuity.CompactionTextIsBounded`); and a carry-forward text may be four characters
  over its limit (`BoundedText.FourOverIsReached`).
- The summary of a memory can miss the match it was cut around (runtime/memory.py:261-272). A window moved back from
  the end of the text, if not blank at its ends, fills its limit before the mark is added, so it is cut once more and
  the last six characters of the text are lost (`Summaries.MovedWindowLosesEnd`); a query longer than what the window
  leaves for it is cut too. The exact
  condition, on the place of the match, its length and the limit, is `Summaries.SummaryShowsMatch`. The witness, for
  every limit of at least six with a text of any greater length, is `Summaries.MatchAtEndIsCutOff`. The law is about queries
  without a dot, because one with dots can also be read in the marks around the slice; which slice of the text is
  kept, and that the match lies in it under the same condition, holds for every query
  (`Summaries.SummaryKeepsMatch`).

## Model

| member | source | states |
|---|---|---|
| JobAudit.UpdateKeepsLog | runtime/queue.py:171-215 | every update keeps the log faithful: it replays to the job, and the new entry says what changed from what |
| JobAudit.ChainAt | runtime/queue.py:117-138 | at any place of a faithful log, an entry's old value of a field is the value replayed so far |
| JobAudit.ClaimsBalanceExits | runtime/queue.py:141-168 | claimed events exceed exits from running by one exactly while the log ends in running |
| JobAudit.RunningMeansOneOpenClaim | runtime/queue.py:141-168 | a faithful job has one open claim if it is running and none otherwise |
| JobInvariants.MoveKeepsBudgetAndLease | runtime/queue.py:557-622 | no update takes a live job out of its attempt budget or leaves a lease on a job that is not running |
| JobInvariants.MoveSpendsFairly | runtime/queue.py:557-622 | each update changes attempts and reclaims only as claims, failures and reclaims account for |
| JobInvariants.MoveWaitsLonger | runtime/queue.py:572-622 | no update brings a live job's ready time forward, and a failure adds the doubled delay |
| JobInvariants.DelaysAddUp | runtime/queue.py:572-576 | the delays after the first to the n-th failure add up to backoff times (2^n - 1) |
| JobInvariants.MoveKeepsJobOk | runtime/queue.py:348-379 | every enabled update of a job keeps the whole job invariant: budget, timeliness, backoff, accounts, lease, log |
| QueueLaws.UpdateGains | runtime/queue.py:171-215 | an update that changes status or ready time adds one entry with the event, the time, both statuses, and the reason: that given, else why it was canceled, else why it was requeued, else its error |
| QueueLaws.PromotedRecord | runtime/queue.py:508-516 | a scheduled job whose time has come is queued, every other stays as it is |
| QueueLaws.ClaimedRecord | runtime/worker.py:577-587 | a claimed job runs, names its worker, and has a lease of the given length from now |
| QueueLaws.RequeuedRecord | runtime/queue.py:557-569 | a requeued job has no worker and no lease, and one reclaim more |
| QueueLaws.FinishedRecord | runtime/worker.py:636-644 | a finished job is completed with its result and no error or lease; no attempt is spent |
| QueueLaws.RetriedRecord | runtime/queue.py:579-622 | a failure with attempts left spends one and makes the job wait for the backoff times two to the number of earlier attempts |
| QueueLaws.SpentRecord | runtime/queue.py:579-622 | the last failure leaves a failed job if it had one attempt, else a dead-lettered one |
| QueueLaws.CanceledFields | runtime/queue.py:935-952 | a canceled job keeps the name of its worker only if it ran, and has neither lease nor result |
| QueueLaws.RescheduledFields | runtime/queue.py:955-984 | a rescheduled job starts afresh at its new time, scheduled iff that lies ahead, with the reschedule on its log |
| QueueLaws.RepairedFields | runtime/queue.py:625-671 | a stale record is queued if it is due and loses worker and lease unless it runs; others stay |
| LeaseSafety.StepKeepsInv | runtime/worker.py:163-705 | every API call keeps: what a worker holds exists, runs and names it; idle exactly without a job; leases nested; keys unique; all jobs in order |
| LeaseSafety.RunsAreSafe | runtime/worker.py:163-705 | that invariant holds in every state of every run of API calls from the empty store |
| LeaseSafety.ClaimKeepsInv | runtime/worker.py:559-595 | claiming keeps the invariant |
| LeaseSafety.RunKeepsInv | runtime/worker.py:676-705 | running a claimed job, however it ends and however long it takes, keeps the invariant |
| LeaseSafety.CancelKeepsInv | runtime/worker.py:660-673 | canceling a job keeps the invariant |
| LeaseSafety.ResetKeepsInv | runtime/worker.py:268-319 | resetting a worker keeps the invariant, also when forced |
| LeaseSafety.RescheduleKeepsInv | runtime/queue.py:955-984 | rescheduling keeps the invariant |
| LeaseSafety.PruneKeepsInv | runtime/queue.py:885-932 | pruning keeps the invariant: no worker's job is removed |
| LeaseSafety.CreateKeepsInv | runtime/queue.py:432-505 | creating a job keeps the invariant, and idempotency keys stay unique |
| LeaseSafety.RecoverKeepsInv | runtime/control_plane.py:1338-1389 | recovering a workflow with any actions and limit keeps the invariant |
| LeaseSafety.RepairOrphansKeepsInv | runtime/worker.py:322-366 | repairing orphaned workers keeps the invariant |
| LeaseScheduling.ReclaimQueuesClaimable | runtime/worker.py:527-556 | after reclaiming and promoting, queued are exactly the jobs that were queued, due or on an expired lease, in unchanged order |
| LeaseScheduling.ClaimSelectsFirst | runtime/worker.py:559-595 | from any state, a free worker gets the least claimable job by (-priority, ready_at, created_at), and nothing exactly if there is none |
| LeaseScheduling.ClaimGuardsNeverMisfire | runtime/worker.py:559-595 | in a reachable state a claim fails only for an unknown worker or one that holds a job with a lease that still runs |
| LeaseScheduling.ClaimedJobWaited | runtime/worker.py:573-586 | no attempt starts early: a claimed job has waited out the doubled delays of all its failures |
| LeaseLaws.CreateLaw | runtime/queue.py:432-505 | malformed and mistimed requests are refused, a repeated key answered by its latest job, and else one job is made as asked for: ready at the run time or after the delay, scheduled iff that lies ahead |
| LeaseLaws.RescheduleLaw | runtime/queue.py:955-984 | refused exactly for an unknown, running, completed or canceled job or a bad time; else the job is as new, ready at the run time or after the delay |
| LeaseLaws.RunRefusals | runtime/worker.py:676-705 | exactly when a run is refused, with which error, and that a refusal leaves at most a heartbeat and a promotion |
| LeaseLaws.RunReturnsLaw | runtime/worker.py:676-705 | a run that returns completes the job with its result, spends no attempt, and frees the worker; all else stays |
| LeaseLaws.RunRaisesLaw | runtime/worker.py:676-705 | a run that raises records the error, spends an attempt, and leaves the job waiting for its doubled backoff or ended, the worker free; all else stays |
| LeaseLaws.RunCanceledLaw | runtime/worker.py:676-705 | a run of a canceled job runs nothing; a worker that holds it or is not idle lets go |
| LeaseLaws.ReclaimLaw | runtime/worker.py:527-556 | overdue jobs are back in the queue, due ones queued, and exactly the holders of overdue jobs that name them are freed |
| LeaseLaws.ClaimRefusals | runtime/worker.py:559-595 | who is not free is refused as unknown, lapsed or assigned already |
| LeaseLaws.ClaimLaw | runtime/worker.py:559-595 | a free worker gets a job iff there is work, of the highest priority, then the earliest ready time, then the earliest creation; job and worker are on leases of the same length; all else stays |
| LeaseLaws.HeartbeatLaw | runtime/worker.py:224-237 | refused for an unknown worker and one that lets a lease lapse over a job; else only the lease is renewed |
| LeaseLaws.RegisterLaw | runtime/worker.py:163-180 | a new worker is idle on a lease of the length asked for, which has to be positive |
| LeaseLaws.CancelLaw | runtime/worker.py:660-673 | a job that has not ended is canceled and the worker that holds it lets go; all else stays |
| LeaseLaws.ResetLaw | runtime/worker.py:268-319 | when a reset is refused and with which error, and what it makes of the worker and of the job it runs |
| LeaseListings.ListedInOrder | runtime/queue.py:519-541 | the queued come before all others, both by priority, ready time and creation |
| LeaseListings.ArgumentsLaw | runtime/queue.py:72-100 | exactly which limits, statuses and recoveries are refused |
| LeaseListings.PromoteDueLaw | runtime/queue.py:674-706 | the due jobs are promoted by ready time, priority and creation up to the limit, all others stay |
| LeaseListings.RepairOrphansChoice | runtime/worker.py:322-366 | the first workers, by id and up to the limit, that are not idle without a job, or whose job is unknown, not running or another's |
| LeaseListings.RepairOrphansLaw | runtime/worker.py:322-366 | they are as good as new, the others stay, and only due jobs held by a worker looked at are promoted |
| LeaseListings.RepairStaleChoice | runtime/queue.py:625-671 | the first stale jobs in listing order, up to the limit |
| LeaseListings.RepairStaleLaw | runtime/queue.py:625-671 | they lose their traces of a run and are queued if due, all others stay |
| LeaseListings.EndTimeLaw | runtime/queue.py:877-882 | when a job counts as ended |
| LeaseListings.PruneLaw | runtime/queue.py:885-932 | of the jobs in the statuses asked for, dead-lettered by default, that ended at least so long ago, the first to have ended are removed; all else stays |
| LeaseListings.RecoverChoice | runtime/control_plane.py:1338-1389 | the first jobs, by creation and up to the limit, that name the workflow and have failed or are dead-lettered, as asked for |
| LeaseListings.RecoverLaw | runtime/control_plane.py:1338-1389 | they start afresh now, overdue jobs of the workflow are back in the queue if asked for, and all other records stay |
| LeaseWaiting.StepWaits | runtime/queue.py:557-622 | no call makes a job that it does not start afresh ready any sooner |
| LeaseWaiting.NothingRunsEarly | runtime/queue.py:226-239 | over every run, from its creation or rescheduling until it is started afresh, a job is neither queued nor running before its run time or the time of the call plus the delay |
| LeaseWaiting.NothingIsClaimedEarly | runtime/worker.py:559-595 | so no worker claims it before then |
| LeaseRecovery.RepairRemovesChosen | runtime/worker.py:322-366 | a repair takes exactly the chosen workers out of the orphans and touches no other worker |
| LeaseRecovery.LimitedRepairCounts | runtime/worker.py:322-366 | with limit k exactly the first min(k, n) of n orphans are repaired |
| LeaseRecovery.UnlimitedRepairRestoresOwnership | runtime/worker.py:322-366 | from any state whatever, an unlimited repair restores ownership; idle exactly without a job iff no holder was mislabeled |
| LeaseRecovery.MislabeledHolderSurvives | runtime/worker.py:322-366 | the witness for that exception |
| LeaseCrash.RepairMendsExactly | runtime/worker.py:322-366 | job records in order, an unlimited repair restores the whole invariant exactly when each worker fits them or is an orphan |
| LeaseCrash.JobWriteStaysIntact | runtime/queue.py:348-379 | a single write of a job record keeps the state one that a repair restores |
| LeaseCrash.WorkerWriteStaysIntact | runtime/worker.py:193-214 | so does a single write of a worker record: freed, reset, beaten, assigned or registered |
| LeaseCrash.NewJobStaysIntact | runtime/queue.py:432-505 | so does the write of a new job |
| LeaseCrash.RecordWriteStaysIntact | runtime/queue.py:348-379 | so does every write of a single record: a job updated, made or dropped, a worker written, or time passing |
| LeaseCrash.WritesStayIntact | runtime/queue.py:348-379 | so every state on a path of single-record writes is one that a repair restores, if its first state is |
| LeaseCrash.RepairAfterCrash | runtime/worker.py:322-366 | wherever a crash cuts off a path of record writes, as every call of the store is proved to be, an unlimited repair restores the whole invariant |
| LeaseCrash.RepairAfterCrashes | runtime/worker.py:322-366 | so it does after any number of such paths and crashes without a repair in between |
| LeaseRecovery.RepairIsIdempotent | runtime/worker.py:322-366 | repairing again changes nothing |
| LeaseRecovery.FullRecoveryIsComplete | runtime/control_plane.py:743-766 | full recovery leaves unrelated jobs alone and leaves nothing to recover iff the limit covers the related failures |
| LeaseRecovery.FullRecoveryIsFixpoint | runtime/control_plane.py:1309-1389 | at the same instant a second full recovery reclaims and reschedules nothing |
| LeaseHolding.StepKeepsHeldUnlessStranding | runtime/worker.py:268-705 | a call leaves some running job without a holder exactly if it is one of the two stranding calls |
| LeaseHolding.StrandedJobIsReclaimed | runtime/worker.py:527-556 | a stranded job is queued by the next reclaim after its lease |
| LeaseHistory.StepGrowsLogs | runtime/queue.py:339-379 | no call rewrites or drops a log entry of a job it keeps |
| LeaseHistory.ReachableJobReplays | runtime/queue.py:117-215 | the log of a reachable job replays to its twelve tracked fields, and each entry's old value is the one replayed so far |
| LeaseHistory.ReachableClaimsAccounted | runtime/queue.py:141-168 | claims of a reachable job, never rescheduled, are attempts plus reclaims plus one if it runs, completed or was canceled while running |
| LeaseHistory.ReachableBudget | runtime/queue.py:579-622 | attempts of a reachable job stay in its budget; failed and dead-lettered mean exactly spent |
| LeaseHistory.ReachableBackoff | runtime/queue.py:226-239 | a live reachable job is not ready before its origin plus backoff times (2^attempts - 1) |
| LeaseHistory.ReachableOwnership | runtime/worker.py:268-705 | in every reachable state a worker's job exists, runs, and is no other worker's |
| LeaseStore.Store.UpdateJob | runtime/queue.py:348-379 | writes one job record and logs the state it leaves on disk |
| LeaseStore.Store.UpdateWorker | runtime/worker.py:193-214 | writes one worker record and logs the state it leaves on disk |
| LeaseStore.Store.LoadJob | runtime/queue.py:508-516 | reading a due job promotes it, and nothing else changes |
| LeaseStore.Store.PromoteDueJobs | runtime/queue.py:674-706 | promotes the first due jobs up to the limit, in order |
| LeaseStore.Store.ListJobs | runtime/queue.py:519-541 | promotes what is due unless told not to, then lists all jobs, or those of a status, sorted |
| LeaseStore.Store.RequeueAndFree | runtime/worker.py:533-551 | requeues an expired job, then frees the worker that holds it |
| LeaseStore.Store.ReclaimExpiredLeases | runtime/worker.py:527-556 | requeues every job on an expired lease and frees the workers that held it |
| LeaseStore.Store.FindJobByIdempotencyKey | runtime/queue.py:397-413 | finds the latest job with the key, or none if there is none |
| LeaseStore.Store.CreateJob | runtime/queue.py:432-505 | creates one job, or returns the one with the same key and request, or refuses |
| LeaseStore.Store.HeartbeatWorker | runtime/worker.py:224-237 | renews the worker's lease, not the job's |
| LeaseStore.Store.ReleaseWorker | runtime/worker.py:651-657 | frees the worker |
| LeaseStore.Store.ClaimNextJob | runtime/worker.py:559-595 | is the claim step of the protocol; like every call here it is proved to be a step of the protocol, and logs its record writes, each of which leaves a state that a repair restores |
| LeaseStore.Store.TakeJob | runtime/worker.py:577-594 | claims a queued job for a free worker: the job's record first, then the worker's |
| LeaseStore.Store.Dispatch | runtime/worker.py:598-650 | ends a run as completed or as a recorded failure and frees the worker |
| LeaseStore.Store.RunClaimedJob | runtime/worker.py:676-705 | is the run step of the protocol, with all its refusals |
| LeaseStore.Store.CancelJobExecution | runtime/worker.py:660-673 | is the cancel step of the protocol |
| LeaseStore.Store.RescheduleJob | runtime/queue.py:955-984 | is the reschedule step of the protocol |
| LeaseStore.Store.ResetWorker | runtime/worker.py:268-319 | is the reset step of the protocol |
| LeaseStore.Store.RepairOrphanedWorkers | runtime/worker.py:322-366 | is the repair step of the protocol and returns whom it repaired; from a state that crashes left, without a limit, it restores the whole invariant |
| LeaseStore.Store.RepairStaleJobState | runtime/queue.py:625-671 | clears exactly the stale lease fields, up to the limit, and returns whose |
| LeaseStore.Store.PruneJobs | runtime/queue.py:885-932 | removes exactly the first prunable jobs up to the limit |
| LeaseStore.Store.RelatedJobsFor | runtime/control_plane.py:704-724 | lists exactly the related jobs, by creation time and id |
| LeaseStore.Store.RecoverWorkflow | runtime/control_plane.py:1338-1389 | is the recovery step of the protocol and returns what it rescheduled |
| Approvals.UpdateFollowsTable | runtime/approval.py:109-122 | an update is refused exactly outside the table and keeps the history a path of it |
| Approvals.ResumedWasApproved | runtime/approval.py:11-17 | a resumed approval was requested, pending, approved, resumed, and nothing else |
| Approvals.SettledStays | runtime/approval.py:11-17 | settled approvals, that is resumed, denied and aborted ones, refuse every update |
| Approvals.ApprovalStore.UpdateApprovalStatus | runtime/approval.py:109-122 | changes the one record as the table allows, or nothing |
| Approvals.ApprovalStore.MarkApprovalResumed | runtime/approval.py:137-141 | resumes an approved record for a run, or changes nothing |
| WorkflowShape.OneStepInProgress | runtime/workflow.py:513-565 | a step is in progress exactly if the workflow is not terminal and it is the current step |
| WorkflowShape.CreatedHasShape | runtime/workflow.py:513-565 | a new workflow has the shape |
| WorkflowShape.MarkActionCompletedMoves | runtime/workflow.py:326-333 | at the running action it raises nothing and moves to the finish, keeping the shape |
| WorkflowShape.CompleteFinishMoves | runtime/workflow.py:336-343 | at the finish it raises nothing, keeps the shape and succeeds |
| WorkflowShape.WaitForApprovalMoves | runtime/workflow.py:628-654 | at the running action it raises nothing and keeps the shape exactly if the approval is new |
| WorkflowShape.WaitForRetryMoves | runtime/workflow.py:657-713 | at the running action it raises nothing exactly under the guard of can_schedule_retry; the shape is kept either way |
| WorkflowShape.RetryStepInserted | runtime/workflow.py:657-713 | a scheduled retry is one new step in front of the finish, with its time and error; the others stay |
| WorkflowShape.RetryAtFinishBreaksShape | runtime/workflow.py:657-713 | a witness: at the running finish the same operation breaks the shape |
| WorkflowShape.NextRetryIsNew | runtime/workflow.py:624-713 | retry waits are numbered 1 to attempts_used, so the next number is new |
| WorkflowShape.ResumeFromApprovalMoves | runtime/workflow.py:716-727 | at the approval wait it raises nothing and returns to the running action, keeping the shape |
| WorkflowShape.ResumeFromRetryMoves | runtime/workflow.py:730-745 | at a retry wait it raises nothing and returns to the running action, keeping the shape |
| WorkflowShape.FailWorkflowMoves | runtime/workflow.py:753-766 | failing raises nothing, keeps the shape, and changes nothing on a terminal workflow |
| WorkflowShape.FailWorkflowRecords | runtime/workflow.py:753-766 | the error is recorded at the current step and the other steps stay |
| WorkflowShape.TerminalIsAbsorbing | runtime/workflow.py:15-28 | no operation changes the status of a succeeded or failed workflow |
| WorkflowShape.ResumingAFailedWaitBreaksShape | runtime/workflow.py:716-727 | a witness: resuming a failed wait sets a failed workflow's action in progress |
| WorkflowShapeLaws.ResumeFromApprovalLaw | runtime/workflow.py:716-727 | for every shaped workflow: keeps the shape exactly if the approval is unknown, the action is current, or this approval is waited for |
| WorkflowShapeLaws.ResumeFromRetryLaw | runtime/workflow.py:730-745 | keeps the shape exactly if the workflow has not failed at a retry |
| WorkflowShapeLaws.MarkActionCompletedLaw | runtime/workflow.py:326-333 | keeps the shape exactly if the current step is not a wait |
| WorkflowShapeLaws.CompleteFinishLaw | runtime/workflow.py:336-343 | keeps the shape exactly if the finish is current |
| WorkflowShapeLaws.WaitForApprovalLaw | runtime/workflow.py:628-654 | keeps the shape exactly if the approval is new and the action runs, or it is known and the workflow has ended or waits for it |
| WorkflowShapeLaws.WaitForRetryLaw | runtime/workflow.py:657-713 | keeps the shape exactly if it is refused or the action runs |
| WorkflowResults.ActionCompleted | runtime/workflow.py:326-333 | in order, completing the action changes the statuses of the action and the finish and the current step, and nothing else |
| WorkflowResults.FinishCompleted | runtime/workflow.py:336-343 | completing the finish changes its status and the workflow's, and nothing else |
| WorkflowResults.ApprovalAwaited | runtime/workflow.py:628-654 | waiting for a new approval blocks a running action and puts the wait, in progress, in front of the last step; no other step changes |
| WorkflowResults.ApprovalWaitOver | runtime/workflow.py:716-727 | resuming from the approval waited for completes its step and unblocks the action; no other step changes |
| WorkflowResults.RetryWaitOver | runtime/workflow.py:730-745 | so does resuming from the retry waited for, which also clears its time |
| WorkflowResults.StepTableLaw | runtime/workflow.py:297-307 | from which statuses a step may come to which |
| WorkflowResults.StatusTableLaw | runtime/workflow.py:310-318 | from which statuses a workflow may come to which |
| WorkflowRedo.RetryPastAction | runtime/workflow.py:657-713 | past its action a running workflow accepts a retry, which begins or continues its second life |
| WorkflowRedo.RedoCompletes | runtime/workflow.py:326-333 | in its second life the repeated action leads back to the shape |
| WorkflowRedo.OrderRetries | runtime/workflow.py:657-713 | in either life a running workflow accepts a retry exactly under the guard of can_schedule_retry |
| WorkflowRedo.OrderFails | runtime/workflow.py:753-766 | in either life failing is accepted and changes nothing on an ended workflow |
| WorkflowAudit.DifferenceReplays | runtime/workflow.py:67-203 | what a write logs turns the last snapshot's view into the new one's |
| WorkflowAudit.StepsReplay | runtime/workflow.py:59-64 | the step events alone replay the step-to-status map |
| WorkflowAudit.ReachIsClosure | runtime/workflow.py:22-28 | the status closure is exactly what paths of the step table reach |
| WorkflowLogLaws.DifferenceLaw | runtime/workflow.py:67-203 | a write logs exactly the changes there are, each with what was and what is: status, current step, run, steps, children, artifacts, memories, retry state |
| WorkflowLogLaws.DifferenceInOrder | runtime/workflow.py:67-203 | in the fixed order of these kinds |
| WorkflowLogLaws.ViewLaw | runtime/workflow.py:59-64 | what is followed by the log is what the workflow has |
| WorkflowLogLaws.WriteLaw | runtime/workflow.py:813-821 | a write appends the difference to what was written last and replaces it |
| WorkflowEvolution.MarkActionCompletedEvolves | runtime/workflow.py:326-333 | statuses move along the table and ids only grow, also when it raises half-way |
| WorkflowEvolution.WaitForRetryEvolves | runtime/workflow.py:657-713 | the same for scheduling a retry |
| WorkflowEvolution.ResumeFromRetryEvolves | runtime/workflow.py:730-745 | the same for resuming a retry |
| WorkflowEvolution.PutMemoryHolds | runtime/workflow.py:601-607 | a registered memory takes the place of the first one with its id, or the end; everything else stays |
| WorkflowEvolution.PutMemoryIds | runtime/workflow.py:601-607 | registering a memory adds its id unless it is there |
| WorkflowEvolution.FailWorkflowEvolves | runtime/workflow.py:753-766 | the same for failing |
| WorkflowEvolution.WriteStaysExplained | runtime/workflow.py:813-821 | after any operations a write leaves a log that replays to the file and records only moves in the closure |
| WorkflowIds.OperationsTouchOnlyTheirs | runtime/workflow.py:326-766 | the operations change no identity, registered id, retry policy or retry state |
| WorkflowIds.RetriesTouchOnlyTheirs | runtime/workflow.py:657-745 | the retry operations change the retry state in the stated way and nothing else of these |
| WorkflowObjects.WorkflowState.GetStep | runtime/workflow.py:281-290 | finds the first step with the id, or none |
| WorkflowObjects.WorkflowState.Configure | runtime/workflow.py:577-586 | sets the policy and what remains of it |
| WorkflowObjects.WorkflowState.AddArtifact | runtime/workflow.py:593-598 | adds the artifact unless it is there |
| WorkflowObjects.WorkflowState.AddMemory | runtime/workflow.py:601-607 | replaces the memory with the same id, summary included, or adds it |
| WorkflowObjects.WorkflowState.ActionDone | runtime/workflow.py:326-333 | does what mark_action_completed does, also to a workflow it raises on |
| WorkflowObjects.WorkflowState.Finish | runtime/workflow.py:336-343 | the same for complete_finish_step |
| WorkflowObjects.WorkflowState.AwaitApproval | runtime/workflow.py:628-654 | the same for wait_for_approval |
| WorkflowObjects.WorkflowState.AwaitRetry | runtime/workflow.py:657-713 | the same for wait_for_retry |
| WorkflowObjects.WorkflowState.ApprovalArrived | runtime/workflow.py:716-727 | the same for resume_from_approval |
| WorkflowObjects.WorkflowState.RetryArrived | runtime/workflow.py:730-745 | the same for resume_from_retry |
| WorkflowObjects.WorkflowState.Fail | runtime/workflow.py:753-766 | the same for fail_workflow |
| WorkflowObjects.WorkflowState.History | runtime/workflow.py:67-203 | collects the difference to the file's snapshot |
| WorkflowObjects.WorkflowState.Write | runtime/workflow.py:813-821 | appends the difference to the log and replaces the snapshot; the log still replays to it |
| WorkflowIds.ResumesMove | runtime/workflow.py:716-745 | a resume that returns stands at the action, one that raises where it was; neither opens or closes a workflow |
| AgentSafety.TurnKeepsGood | runtime/agent.py:1250-1327 | a turn on any workflow keeps the log, the approvals and the gate |
| AgentSafety.CatchKeepsGood | runtime/agent.py:1393-1432 | so does the exception handler, even where it raises |
| AgentSafety.ApprovedCallKeeps | runtime/agent.py:1016-1039 | a call under an approval is made only with that approval resumed and agreeing |
| AgentSafety.RequestKeeps | runtime/agent.py:631-670 | asking makes a new pending approval of this action, which no step waited for before |
| AgentSafety.ResumeKeeps | runtime/agent.py:600-628 | a later run on an approval, on a workflow of any status, keeps log, approvals and gate |
| AgentSafety.MoveKeepsGood | runtime/agent.py:1330-1454 | a turn, the handler, a later run, a decision, another workflow's approval, a child or a crash keeps log, approvals and gate |
| AgentOrder.TurnKeepsInv | runtime/agent.py:1250-1327 | in order, a turn raises nothing from the workflow itself and keeps the shape |
| AgentOrder.CatchKeepsInv | runtime/agent.py:1393-1432 | in order, the handler always succeeds: a retry wait exactly under can_schedule_retry, else a failed workflow, and it is written; the shape is lost exactly if the retry is scheduled at the finish |
| AgentOrder.ApprovalWaitInOrder | runtime/agent.py:802-866 | in order, an approval wait ends the run, leads to the action or raises, as the approval's status says |
| AgentOrder.FinishInOrder | runtime/agent.py:1212-1230 | in order, a run with a result succeeds unless the artifact store raises; a run without one raises |
| AgentOrder.MoveKeepsInv | runtime/agent.py:1330-1454 | a move keeps the order exactly if it begins no run on a restartable workflow |
| AgentOrder.MoveKeepsShape | runtime/agent.py:718-723 | a move keeps the shape exactly if it is not the handler scheduling a retry at the finish |
| AgentHistory.EveryHistoryIsGood | runtime/agent.py:1330-1454 | after every history, restarts included, log, approvals and gate are in order |
| AgentHistory.ApprovalGate | runtime/agent.py:985-1054 | in every history each call passed the delegation check, and policy allowed it without an approval, or an approval that agrees on every field the call fills in was pending, approved by an operator, then resumed |
| AgentHistory.HistoryReplays | runtime/workflow.py:67-203 | after every history the log replays to the file and records only moves in the closure |
| AgentHistory.HistoriesKeepInv | runtime/agent.py:1330-1454 | every point of a history is in order exactly if no run begins on the workflow while it is restartable |
| AgentHistory.UndisturbedHasInv | runtime/agent.py:1330-1454 | so an undisturbed history from the creation on ends in order |
| AgentHistory.GuardsNeverMisfire | runtime/agent.py:718-723 | in an undisturbed history whatever raises comes from outside the workflow, and the retry or failure that follows is accepted |
| AgentHistory.ShapeStaysExactlyWhen | runtime/workflow.py:513-565 | throughout an undisturbed history the shape holds in memory and on file exactly if no retry is scheduled at the finish |
| AgentHistory.HistoriesGrow | runtime/workflow.py:813-821 | over every history the log, the calls and the histories of approvals only grow, and settled approvals stay as they are |
| AgentTurns.CallLaw | runtime/agent.py:985-1054 | a call that is not made, fails, or is answered, and what each leaves: calls, memory, answer, completed action on file |
| AgentTurns.ActionTurnLaw | runtime/agent.py:933-1209 | at its action a run is refused, calls without an approval, asks, or calls with the approval it holds, marked resumed if it was only approved; exactly when each |
| AgentTurns.ApprovalTurnLaw | runtime/agent.py:802-866 | pending ends the run, approved is marked resumed by this run and leads back to the action, resumed leads back, denied and aborted raise |
| AgentTurns.RetryTurnLaw | runtime/agent.py:869-917 | before its time a retry wait ends the run, from then on it leads back to the action |
| AgentTurns.FinishTurnLaw | runtime/agent.py:1212-1230 | without a result the finish raises; else the artifact is registered once and the workflow has succeeded on file |
| AgentTurns.FirstRunLaw | runtime/agent.py:558-628 | a first run begins on a workflow under its id, running at its action, with no retry spent, under its policy |
| AgentTurns.LaterRunLaw | runtime/agent.py:600-628 | a later run begins iff none is under way and the approval is the workflow's; it is attached to what is on file and holds the approval as it is |
| AgentFaults.RetryLaw | runtime/workflow.py:657-713 | a retry puts its step, with time and cause, in front of the last one, blocks a running action and spends one attempt; all else stays |
| AgentFaults.FailLaw | runtime/workflow.py:753-766 | failing marks the current step failed with the fault on record unless it is over, and the workflow failed |
| AgentFaults.HandlerLaw | runtime/agent.py:696-723 | the handler schedules a retry exactly for a retryable fault from outside, raised once the budget is known, while attempts remain; else the workflow has failed with the cause on record |
| AgentFaults.HandlerTries | runtime/agent.py:1393-1432 | on any workflow the handler tries a retry exactly then and else to fail it; what works is written, what raises is not |
| AgentFaults.DeniedRunFails | runtime/agent.py:933-1209 | a run whose delegation or policy forbids its action leaves a failed workflow: no call, no retry, no attempt spent |
| AgentFaults.MissingResultFails | runtime/agent.py:1212-1230 | so does a run that comes to the finish without a result |
| AgentFaults.WorldFaultLaw | runtime/agent.py:1393-1432 | after a fault from outside a retry wait is on file iff the fault is retryable, the policy allows attempts and some remain; else the workflow has failed |
| AgentFaults.FalseStartFails | runtime/agent.py:1393-1432 | a run that fails before its loop never leads to a retry |
| AgentDecisions.DecisionLaw | runtime/approval.py:125-134 | an operator can approve and deny what is pending and abort what is pending or approved; any other decision changes nothing |
| AgentDecisions.RefusalIsFinal | runtime/approval.py:129-130 | what was denied while pending is denied by the operator in every longer history, and there is no call for it, ever |
| AgentDecisions.AbortIsFinal | runtime/approval.py:133-134 | the same for what was aborted while pending or approved |
| AgentDecisions.ApprovalStands | runtime/approval.py:125-126 | what was approved while pending keeps the operator's approval on record in every longer history, and is then resumed or aborted if anything |
| AgentDecisions.RefusedWaitFails | runtime/agent.py:802-866 | a workflow that waits for an approval that is then denied or aborted fails at its next turn, without a call |
| AgentDecisions.ApprovedWaitGoesOn | runtime/agent.py:802-866 | one whose approval is then approved has it marked resumed by this run and goes on to its action |
| AgentTermination.TurnLowersRank | runtime/agent.py:1262-1327 | on any workflow every turn that goes on lowers a measure of at most five, and one of at most three |
| AgentTermination.TurnsAreBounded | runtime/agent.py:1262-1327 | at most five turns with operator decisions at any time, at most three without |
| AgentTermination.LoopEnds | runtime/agent.py:1262-1327 | from any state the loop has ended after that many turns |
| AgentScenarios.FiveTurnsHappen | runtime/agent.py:1262-1327 | five turns happen in a history from the creation of a workflow on |
| AgentScenarios.RepeatedRequestCallsForever | runtime/workflow_runner.py:20-40 | after a failed call under a resumed approval, posting the same request k more times makes k more calls |
| AgentOutcomes.TurnHasEffect | runtime/agent.py:933-1209 | a turn calls only at the action, then raises or completes it, and spends no attempt |
| AgentOutcomes.StoredEndIsFinal | runtime/workflow.py:15-28 | in every history, restarts included, a stored success or failure is final |
| AgentOutcomes.SuccessNeedsAGatedCall | runtime/agent.py:1212-1230 | in every history, restarts included, a workflow succeeds only after a call that was behind the gate |
| AgentOutcomes.CallsAreBounded | runtime/agent.py:1399-1432 | over every undisturbed history at most one call more than the retries allowed, and one more for each crash, however many runs and approvals |
| AgentOutcomes.RetryWaitsItsBackoff | runtime/agent.py:869-917 | a scheduled retry spends one attempt and is resumed exactly from its backoff on |
| AgentOutcomes.ApprovalDecides | runtime/agent.py:802-866 | pending leaves all as it is; approved or resumed returns to the action; denied or aborted fails the workflow on disk |
| AgentRestarts.ClosedForever | runtime/agent.py:600-625 | an ended workflow that is not restartable makes no more calls, whatever runs begin on it |
| AgentRestarts.StuckCallsForever | runtime/agent.py:985-1054 | on a workflow that failed at its action the same request makes one more call each time it is posted |
| AgentRestarts.RestartsCallForever | runtime/agent.py:600-625 | a restartable workflow makes any number of further calls |
| AgentRestarts.CallsStopExactlyWhen | runtime/workflow_runner.py:20-40 | an ended workflow makes no more calls in every further history exactly if it is not restartable |
| AgentRestarts.CallsBoundedExactlyWhen | runtime/workflow_runner.py:20-40 | the number of its calls has a bound at all exactly then |
| AgentRestarts.RunBehavesExactlyWhen | runtime/workflow_runner.py:319-324 | whatever follows the start of a run, the file stays in order, no operation raises and an ended workflow makes no call, exactly if the stored workflow is not restartable |
| AgentRestarts.NextRunLaw | runtime/workflow_runner.py:319-324 | both laws at the end of every undisturbed history of a workflow, for a run on any of its approvals |
| AgentRestarts.HandlerRaisesOnEnded | runtime/agent.py:1393-1432 | on an ended workflow a scheduled retry raises in the handler and reaches no file |
| AgentRuns.AgentRun.constructor | runtime/agent.py:558-628 | creates, writes and configures the workflow of a first run |
| AgentRuns.AgentRun.Resume | runtime/agent.py:600-628 | loads, attaches, writes and configures for a later run, whatever the workflow's status |
| AgentRuns.AgentRun.ExecuteApprovalWaitStep | runtime/agent.py:802-866 | is the approval turn |
| AgentRuns.AgentRun.ExecuteRetryWaitStep | runtime/agent.py:869-917 | is the retry turn |
| AgentRuns.AgentRun.ExecuteActionStep | runtime/agent.py:933-1209 | is the tool or model turn |
| AgentRuns.AgentRun.ExecuteFinishStep | runtime/agent.py:1212-1230 | is the finish turn |
| AgentRuns.AgentRun.RunWorkflow | runtime/agent.py:1250-1327 | the loop ends, after at most five turns, or three without decisions, in the state its turns and the decisions lead to |
| AgentRuns.AgentRun.HandleException | runtime/agent.py:1393-1432 | is the handler; in order, what it leaves is in order and on disk |
| Delegation.NormalizedHolds | runtime/workflow_runner.py:43-59 | every stripped name once; refused exactly if one is blank |
| Delegation.NormalizedGrows | runtime/workflow_runner.py:43-59 | in the order in which they first occur: more names only add to the list |
| Delegation.NormalizeStringList | runtime/workflow_runner.py:43-59 | the loop computes that list |
| Delegation.RequestedActionIsNotDenied | runtime/workflow_runner.py:115-209 | a child is never denied the action it was started for |
| Delegation.ChildStaysWithinPolicy | runtime/workflow_runner.py:86-209 | whatever a child is not denied, its parent's subrun policy allows; a model child is denied every tool |
| Delegation.DelegatesWhatWasAsked | runtime/workflow_runner.py:115-209 | a child's lists are what was asked for, or just what is needed |
| Delegation.CapabilitiesAttenuateExactlyWhen | runtime/workflow_runner.py:115-209 | all a holder can hand on is within its own capabilities exactly if its subrun policy admits no capability beyond them |
| Delegation.ToolsAttenuateExactlyWhen | runtime/workflow_runner.py:115-209 | the same for tools |
| Delegation.AttenuationIsNotTransitive | runtime/workflow_runner.py:115-209 | a witness: a holder without model access starts a child with it, if its own subrun policy permits |
| DelegationLaws.BuildLaw | runtime/workflow_runner.py:115-209 | a request is refused with the first check it does not pass, in the order of the checks, and built if it passes them all |
| DelegationLaws.BuiltListsLaw | runtime/workflow_runner.py:115-209 | the child gets the capabilities and tools named, or those it needs, each once |
| DelegationLaws.BuiltTextsLaw | runtime/workflow_runner.py:115-209 | who assigned it, and its role, intent and output, stripped, or the agent and standard texts |
| DelegationLaws.BuiltCriteriaLaw | runtime/workflow_runner.py:115-209 | its criteria, each once, or two standard ones |
| DelegationLaws.DeniedLaw | runtime/workflow.py:492-510 | a workflow with a delegation may do exactly what it lists |
| DelegationLaws.ShareLaw | runtime/workflow_runner.py:212-224 | exactly which scopes a parent shares with a child |
| DelegationLaws.SharedProblem | runtime/workflow_runner.py:227-238 | the problem reported is that of the first memory, as named, that is unknown or not shared |
| DelegationLaws.AdmitLaw | runtime/workflow_runner.py:241-303 | exactly when a child is started: known parent, depth and number below the policy, delegation built, every memory shared |
| DelegationLaws.SpawnLaw | runtime/workflow_runner.py:241-303 | the parent has the child as its last, the child is below it under the same root if it was written, all others stay |
| DelegationLaws.RootAndRerunLaw | runtime/workflow.py:513-565 | a root is its own root at depth zero; a later run replaces the run and the policy only |
| WorkflowTree.SharedHolds | runtime/workflow_runner.py:212-238 | all named memories are handed on, exactly if each may be |
| WorkflowTree.MaterializeSharedMemories | runtime/workflow_runner.py:227-238 | the loop hands them on or reports the first problem |
| WorkflowTree.StepKeepsTree | runtime/workflow_runner.py:241-303 | every start and rerun keeps parent, child, depth and root in agreement and no child registered twice |
| WorkflowTree.HistoriesKeepTree | runtime/workflow_runner.py:241-303 | so they agree after every history |
| WorkflowTree.DepthIsChainLength | runtime/workflow.py:610-621 | depth is the length of the parent chain, at most the limit, and the root is constant along it and its end |
| WorkflowTree.ChainExists | runtime/workflow.py:513-565 | every workflow has such a chain |
| WorkflowTree.FanOut | runtime/workflow.py:610-621 | a set of workflows has at most C times as many children |
| WorkflowTree.FamilyIsWhole | runtime/workflow_runner.py:241-303 | the family counted is everyone with the root and everyone registered as a child of one of them |
| WorkflowTree.TreeSizeClosed | runtime/workflow_runner.py:241-303 | the bound in closed form: (C - 1) times it is C^(D+1) - 1 |
| WorkflowTree.TreesAreBounded | runtime/workflow_runner.py:241-303 | over every history a tree has at most 1 + C + ... + C^D workflows, failed and unwritten children included |
| WorkflowTree.WorkflowStore.StartChildWorkflow | runtime/workflow_runner.py:241-303 | nothing changes unless the request is admitted; then the parent has one child more, also if the run raised |
| Text.SpaceCodes | runtime/session.py:61-64 | which characters are white space, by their codes |
| Text.BlankIsStripped | runtime/session.py:61-64 | a text is blank exactly if nothing is left of it when it is stripped |
| BoundedText.TruncateFits | runtime/session.py:281-286 | a truncated text is within its limit iff it was short or the limit is at least three |
| BoundedText.BoundedHolds | runtime/session.py:489-504 | all lines if they fit, else the longest prefix of whole lines and a mark; only a too long first line is cut inside |
| BoundedText.BoundedFits | runtime/session.py:489-504 | the text is at most four characters over its limit exactly if the limit is at least three, or the first line fits it, or what a smaller limit leaves of that line is white space but for its beginning |
| BoundedText.FourOverIsReached | runtime/session.py:489-504 | four is the least such number |
| BoundedText.BoundedLinesText | runtime/session.py:489-504 | the loop computes that text |
| Continuity.CompactionPartitions | runtime/session.py:1091-1110 | compacted and retained ids are the messages, each once, in order, with the last `keep` retained |
| Continuity.CompactionRestoresBudget | runtime/session.py:423-486 | after a compaction and n more messages the advice is to recompact iff keep + n exceeds eight, and never a first compaction or refresh |
| Continuity.AdviceAfterExchanges | runtime/session.py:423-486 | after a compaction and any number of exchanges, raised or not, the advice is to recompact iff keep plus twice their number exceeds eight, and what is new since is their messages |
| ContinuityLaws.AdviceLaw | runtime/session.py:423-486 | which advice is given exactly when, on the numbers of messages, memories and characters |
| ContinuityLaws.ActiveLaw | runtime/session.py:369-398 | the compaction in use is the newest if none has the id on record; none iff none is stored |
| ContinuityLaws.NamedIsActive | runtime/session.py:369-398 | else it is the first with that id |
| ContinuityLaws.CompactionLaw | runtime/session.py:1066-1164 | when compacting is refused or repeats, and everything a new compaction records: numbers by role, ids folded and kept, memories, workflows |
| ContinuityLaws.CompactedLaw | runtime/session.py:1126-1164 | the new compaction comes first, the newest five are kept, it is in use; the rest of the session stays |
| ContinuityLaws.SummaryLaw | runtime/session.py:530-636 | what a summary carries: the last four messages, the memories selected, the workflows, and on which compaction it is based |
| ContinuityLaws.UniqueStringsGrow | runtime/session.py:267-278 | names are kept in the order in which they first occur |
| ContinuityLaws.TruncateLaw | runtime/session.py:281-286 | too long a text is cut to leave room for dots, and exactly the white space in front of them goes too |
| ContinuityLaws.DecimalReadsBack | runtime/session.py:300-333 | numbers in the texts read back |
| ContinuityLaws.WindowLaw | runtime/session.py:300-333 | the lines of a compaction's text: the numbers by role over the whole window, then one for each message |
| ContinuityLaws.SummaryLinesLaw | runtime/session.py:530-610 | every message, memory and compaction carried has its line, cut to its length |
| ContinuityLaws.PreviewLaw | runtime/session.py:289-297 | how a message reads, with its status if it is not completed or has no text |
| ContinuityLaws.AppendedLaw | runtime/session.py:1167-1302 | what an exchange changes in the session |
| Continuity.CompactsExactlyWhen | runtime/session.py:1066-1124 | exactly when compacting does anything |
| Continuity.RepeatIsNoOp | runtime/session.py:1112-1124 | repeating with unchanged memories changes nothing |
| Continuity.CompactedIsActive | runtime/session.py:369-398 | a new compaction is the active one, and the summary is based on it |
| Continuity.StoredIsBounded | runtime/session.py:1149-1155 | no more than five compactions are stored |
| Continuity.SummaryIsBounded | runtime/session.py:530-610 | the carry-forward text is within four characters of 900, with the last four messages and at most four memories |
| Continuity.CompactionTextIsBounded | runtime/session.py:300-333 | a compaction's summary is within four characters of its limit iff the limit is at least three |
| Continuity.AppendIsLater | runtime/session.py:1167-1302 | appending and refreshing changes neither the compactions nor which is active |
| Continuity.UniqueStringsHold | runtime/session.py:267-278 | exactly the stripped names that are not blank, each once |
| Continuity.SelectionHolds | runtime/session.py:515-527 | at most the limit, none twice, none left out below the limit |
| Continuity.Session.RefreshSummary | runtime/session.py:613-636 | rebuilds the carry-forward summary and nothing else |
| Continuity.Session.CompactContinuity | runtime/session.py:1066-1164 | is the compaction step with all its refusals |
| Continuity.Session.AppendExchange | runtime/session.py:1167-1302 | appends the exchange: two messages, and a new carry-forward summary unless the run raised |
| Continuity.SelectMemories | runtime/session.py:515-527 | the loop makes that selection |
| MemoryQuery.TokensHold | runtime/memory.py:227-228 | tokens are non-empty runs, and there are none exactly without a searchable character |
| MemoryQuery.ScoreHolds | runtime/memory.py:231-245 | a score is positive exactly if a token occurs, and at most three over the number of tokens |
| Summaries.SummarizeFits | runtime/memory.py:248-273 | a summary never exceeds its limit and is the text exactly if that fits |
| Summaries.SummaryShowsMatch | runtime/memory.py:248-273 | a summary shows the match it was cut around iff the text fits, or the match ends inside the window and, where the snippet is too long, before the last cut |
| Summaries.SummaryKeepsMatch | runtime/memory.py:248-273 | for every query a summary is one slice of the text between marks, and the match lies in the slice iff the same condition holds |
| Summaries.MovedWindowLosesEnd | runtime/memory.py:261-272 | a window moved back from the end of the text, not blank at its ends, loses the text's last six characters, and the match is shown iff it ends before them |
| Summaries.MatchAtEndIsCutOff | runtime/memory.py:261-272 | for every limit of at least six there is a text of any greater length whose only match, at its end, the summary does not show |
| MemoryQuery.QueryMemories | runtime/memory.py:433-518 | results are the longest prefix of the ranked candidates within the limits, sums and flags right; refused exactly on bad input |
| MemoryQuery.BeforeIsOrder | runtime/memory.py:474 | the sort key orders the candidates |
| MemoryQuery.AnswerIsDetermined | runtime/memory.py:433-518 | any two answers that meet the contract are the same, ranking included |
| MemoryLaws.AnswerLaw | runtime/memory.py:455-499 | results are memories asked for, with their scores and terms, best score first, then oldest, then smallest id; and everything asked for but left out comes after all of them |
| MemoryLaws.CandidatesLaw | runtime/memory.py:455-467 | the candidates are exactly the memories that pass every filter set and mention a token of the query |
| MemoryLaws.ScoreLaw | runtime/memory.py:231-245 | one for each token mentioned, two for the whole query, one more for the whole query in the payload; nothing without a token |
| MemoryLaws.TokensLaw | runtime/memory.py:227-228 | the tokens are exactly the longest runs of letters, digits and underscores, in lower case |
| MemoryLaws.SearchableLaw | runtime/memory.py:227-228 | the characters of tokens, by their codes |
| MemoryLaws.RefusalLaw | runtime/memory.py:446-453 | a query is refused exactly if a limit is not positive or it has no letter, digit or underscore |
| MemoryLaws.ContainsLaw | runtime/memory.py:231-245 | containment is occurrence up to upper and lower case |
| MemoryLaws.NamesAreFound | runtime/memory.py:212-224 | type, agent, workflow and run of a memory are found in what is searched |
| MemoryLaws.TagsAreFound | runtime/memory.py:212-224 | so is every tag |
| MemoryLaws.PayloadIsFound | runtime/memory.py:185-224 | so is every text of the payload, also in the payload's own text |
| MemoryLaws.PayloadBegins | runtime/memory.py:185-209 | which two fields lead the text of the payload, by type |
| MemoryLaws.OtherPayloadBegins | runtime/memory.py:185-209 | for all other types the first text of the payload does |

## Left out

- Unless a crash cuts it off, each API call is one atomic step, the run of a claimed job included. The code does not fence a finishing run, so the invariants would not survive interleaving inside it. A turn of the interpreter is one step too; crashes fall between turns.
- A record half written by a crash.
- An approval's request is not compared with a later run's: a run that does not fit stops before it touches the workflow.
- A crash between a child's run and its registration by the parent, and writes to the parent by others while the child runs; the code has no fencing there.
- The matching of patterns and paths in policies: what a policy says about an action is one fixed decision per run, any decision in the next.
- Worker transition history, and the free-form `details` of log entries.
- run_next_job, which is a claim followed by a run; both steps are modelled.
- Steps of a workflow are values in a list field that is reassigned, not objects with an identity of their own.
- Registered artifacts are their ids, memories their ids and summaries.
- The texts of error messages and reasons: they are a datatype, except where the bound of a text is stated.
- Malformed values of the wrong type (a list where a string belongs) are excluded by types; blank strings, missing keys and numbers out of range are modelled.
- White space is the ASCII white space, and lower-casing maps the ASCII letters only.
- Session status transitions and ownership, message metadata and grounding.
- The order of list_memories by creation time for continuity: what the memory store lists is a parameter.
- Health, posture, incident and timeline views; HTTP routes, user interface, tokens; files, directories and YAML; trace and cost records; budgets beyond the errors they raise.
