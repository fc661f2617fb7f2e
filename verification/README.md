# A verified model of the CI platform's control plane

This project models the decisions a CI control plane makes and proves what they
are meant to guarantee. It covers:

- the scheduler as one state machine: runs, jobs, queue rows with leases, plans
  and the audit log, moved by starting, approving, ticking, claiming, reporting,
  cancelling, re-running and restarting. The `Scheduler` and `Store` classes
  update those rows in place; each method is proved to do what a step function
  in `Steps.dfy` says, and the invariant in `Invariants.dfy` is proved of every
  step and so of every history (`Safety.dfy`);
- planning: job order and cycle search, matrix expansion, the build of a plan,
  the depths of the drawn graph;
- assembly of bytes and lines: chunked uploads, the live log and its watchers,
  the fold of `::group::` markers;
- two protocols over time, the replay window of signed requests and the rotation
  of signing keys, and the compiler of filter patterns.

## How it is laid out

| file | content |
|---|---|
| `Model`, `Retry`, `Entities` | vocabulary, reducers, retry policy, rows and the whole state as one value |
| `Store`, `Scheduler` | the objects, imperative |
| `Steps` | each entry point as a function from state to state |
| `Invariants` | what holds in every reachable state, and the guards of the entry points |
| `Moves`, `Attempts`, `Sweeps`, `Admission`, `EntryPoints`, `RunEntry`, `Rerun` | every step keeps the invariant |
| `Safety`, `AuditLog`, `Retrials` | the theorems over all histories |
| `Deciding`, `Turns` | what is queued or skipped, and when: for one job, and over a whole tick |
| `Effects`, `Budgets` | whom each entry point and each sweep reaches, and what becomes of them |
| `Settling`, `Settled`, `Unchanged`, `Idempotence`, `Restless` | when a second tick is idle, and when not |
| `Traces` | histories from an empty control plane that show what a guard is for |
| `Promises` | comments the code keeps only under a condition |
| `NeedsGraph`, `TopoSort`, `FindCycle`, `Planner`, `Matrix`, `MatrixLaws`, `Depths` | planning |
| `Tiling`, `ChunkedUpload`, `LogStream`, `Groups` | bytes and lines |
| `Glob`, `GlobLaws`, `Freshness`, `Keyring` | filter patterns, replay window, signing keys |

## Where the code and its comments disagree

The code is modelled as it is. Each disagreement has the exact condition under
which the promise is kept (for line ends only a sufficient one) and, where that
does not already hand one over, an input that breaks it, given as a history of
entry points from an empty control plane, as calls or as values:

- Tick is not idempotent. It changes nothing exactly when no lease has expired
  and every tracked run it gets to is quiet
  (`Unchanged.TickChangesNothingExactlyWhenAllIsQuiet`, for every state). Among
  orderly runs (groups confined to their runs, jobs in needs order, no waiting
  job about to cancel a holder) a second Tick is idle exactly when the first
  passed nobody over
  (`Idempotence.TickIsIdempotentExactlyWhenNobodyIsPassedOver`), which is always
  so where every job that cancels in progress is alone in its group
  (`Idempotence.TickIsIdempotent`); whoever is passed over makes the second Tick
  cancel (`Restless.PassedOverMakesTheNextTickCancel`), and of two contenders one
  always is (`Restless.RivalsMakeTheNextTickCancel`). Inputs:
  `Restless.TickIsNotIdempotentWithGroups` for a cancel-in-progress group, and
  `Traces.TickIsNotIdempotentAcrossRuns` for a plain group shared by two runs.
- A run can end cancelled without a reason
  (`Promises.CancelledRunsNameAReasonExactlyWhen`,
  `Traces.CancellingTheOnlyJobLeavesNoReason`), and a run cancelled before it
  starts is started all the same, its reason still on it
  (`RunEntry.StartRunIsSafeExactlyWhenNotCancelled`,
  `Traces.StartingACancelledRunBreaksTheInvariant`).
- The three status functions are neither exclusive nor exhaustive
  (`Promises.ExactlyOneStatusExactlyWhen`, `Promises.StatusesAreNotExclusive`).
- Approving a held job that was already cancelled revives it
  (`RunEntry.ApproveIsSafeExactlyWhenNothingHeldWasCancelled`,
  `Traces.ApprovingACancelledJobBreaksTheInvariant`), and re-running a job that
  still has a queue row leaves row and job at odds
  (`Reruns.RerunIsSafeExactlyWhenNothingResetIsQueued`,
  `Traces.RerunningAQueuedJobBreaksTheInvariant`).
- The exponential backoff overflows 64 bits for an initial delay of 2^62 or more
  (`Retry.ExponentialDelayIsTheClosedFormUnlessInitialOverflows`); within range every
  delay is the one its policy asks for (`Retry.DelayIsThePause`).
- The jobs TopoSort names as a cycle are those from which a cycle can be reached
  (`TopoSorting.TopoSort`); they are the members of cycles exactly when nobody
  else needs one (`NeedsGraph.OnlyMembersWaitExactlyWhen`,
  `NeedsGraph.TheThirdOnlyWaits`).
- A staged upload whose sort is not stable can be assembled wrongly: for ranges
  that add up, the object is right whatever the bytes exactly when no chunk with
  bytes in it was replaced (`Uploads.StagingIsRightExactlyWhen`,
  `Uploads.EmptyChunksCanSpoilAStagedObject`). A stable sort never lets one
  through (`Uploads.ChunkedUpload.Commit`).
- An upload that was told it passed its cap can still be committed
  (`Uploads.ARefusedWriteCanBeCommitted`); the size committed is the number of
  bytes written, so it is within the cap exactly when the last write was
  (`Uploads.ChunkedUpload.Commit`, `Uploads.ChunkedUpload.WriteRange`).
- `**` stops at a line end (`Glob.DoubleStarStopsAtALineEnd`,
  `Glob.LineEndsOnlyMatterToDoubleStars`).
- An empty class in a filter pattern takes in what follows it
  (`Glob.EmptyClassesSwallowWhatFollows`); patterns without one are read back as
  they were meant (`Glob.CompileGlob`).
- Two legs of a matrix can share an identity
  (`Planner.DifferentLegsCanShareAnIdentity`); without commas in their values
  they do exactly when every value looks the same
  (`Planner.LegsShareAnIdentityExactlyWhen`).
- A subscription starts right after the number asked for exactly when the log has
  reached that number (`LogStream.Attempt.Subscribe`).

## Assumptions

- Each entry point is one step: the locks and the interleaving of the store calls
  inside one are not modelled. A runner's guard and its write are one step too.
- The legal histories of `Invariants.Legal` start a run once, before it is
  cancelled and from a well-formed plan, register only that plan again, approve
  only when no held job was cancelled, and re-run only jobs without a queue row.
  Everything else, restarts included, may happen at any time in any order.
- One clock serves each entry point: a claim finds the rows that are due by the
  same reading that dates its dispatch event, where the source lets the store
  read its own clock after the scheduler has read the caller's.
- The order in which the library's sort leaves chunks of equal offset is a
  parameter of `Commit`; what is said holds for every order it may choose.
- The store behaves as its interface promises, and as both stores behind it do
  where the interface is silent: a completed job's queue row goes with the write
  that completes it. Store errors are not modelled.
- `origin` remembers the plan each run was started from; no decision reads it.
- Events carry an attempt number on every kind, and giving a job back has a kind
  of its own (`Released`), so that histories can be counted. Message texts are
  not modelled.
- Whether an if: names a status function is a fact of its text and is kept with the
  planned job. Beyond that the evaluator may be any function of the plan, the leg
  and what the needs came to.
- The expression evaluator, the two marker patterns of the log, rendering of
  matrix values and the building of an assignment are parameters.

## Model

A method of `Scheduler` without a loop is its step function written over the fields;
the rows below name the methods that search, iterate or combine.

| member | source | states |
|---|---|---|
| Safety.StepKeepsInv | internal/scheduler/scheduler.go:166-346 | Every entry point of the scheduler and of the runner API, each under its stated guard, keeps the one invariant all promises below follow from |
| Safety.HistoriesKeepInv | internal/scheduler/scheduler.go:268-321 | Any legal sequence of entry points, from any state with the invariant, ends in one |
| Safety.ReachableIsSafe | internal/scheduler/scheduler.go:77-92 | Whatever legal history led here from an empty control plane, restarts included, the invariant holds |
| Safety.OneJobPerGroup | internal/scheduler/concurrency.go:12-61 | At most one admitted unfinished job per non-empty concurrency group, across all runs, in every reachable state |
| Safety.MaxParallelHolds | internal/scheduler/readiness.go:184-254 | Never more legs of a job queued or running than its max-parallel, in every reachable state |
| Safety.NothingStartsBeforeItsNeeds | internal/scheduler/readiness.go:34-171 | A queued or running job whose if: is absent or names no status function has every leg of every need finished, none cancelled, none failed except under continue-on-error, and not all skipped |
| Safety.VerdictsAreHonest | internal/scheduler/scheduler.go:323-346 | A completed run has only completed jobs, concludes the aggregate of theirs, and says success exactly when there is a job and all succeeded |
| Safety.VerdictsNameTheWorst | internal/model/status.go:184-239 | A finished run concludes the worst that any of its jobs came to: config error, then infra failure, timeout, failure, required action, cancellation, each by name |
| Safety.NoAttemptIsDispatchedTwice | internal/scheduler/assignment.go:27-108 | The key run/job/attempt is handed out at most once more often than it was voluntarily given back, and later hand-outs of a job never carry an earlier attempt |
| Safety.NoAttemptEndsTwice | internal/scheduler/complete.go:90-155 | An attempt ends at most once: concluded, retried or lost with its runner |
| Safety.OnlyTheLeaseHolderReports | internal/runnerapi/handlers.go:17-48 | A report that changes anything comes from the runner holding the lease and names the running attempt, or none |
| Safety.ReportsOnEndedAttemptsAreIgnored | internal/runnerapi/handlers.go:186-223 | A report by number on an attempt that has ended, by completion, retry or reaping, changes nothing |
| Safety.RetriesWaitTheirPause | internal/scheduler/complete.go:157-208 | Every retry in the log ends its backoff at its own time plus the pause its policy asks for before that try, counted since the last rerun (none, fixed, linear or doubled, capped), and the row that waits is not claimable before |
| Safety.BackoffIsWaitedOut | internal/scheduler/complete.go:157-208 | A retried attempt is dispatched no earlier than its retry plus that pause |
| Safety.RetriesAreBounded | internal/scheduler/complete.go:113-117 | Infra retries since the last rerun stay between 0 and the policy's attempts minus one |
| Retrials.RetriedOnlyWhenInfraAndAllowed | internal/scheduler/complete.go:90-208 | Whatever entry point logs a retry in a reachable state, the attempt was running and the policy had one left, and either its lease holder reported an infra failure or a Tick found its setup out of time |
| Retrials.ReportIsRetriedExactlyWhenInfraAndAllowed | internal/scheduler/complete.go:90-155 | In a reachable state a valid report by the lease holder opens the next attempt, unleased on the queue, exactly when it is an infra failure and the policy has an attempt left; otherwise the row becomes the one reported, the job leaves the queue, and the log gains the classification and the kind of end; no other job changes |
| Safety.NoJobIsLost | internal/store/store.go:138-164 | A job has a queue row exactly while admitted and unfinished, a lease exactly while in progress, and a conclusion exactly when completed |
| Safety.ConclusionsAreTheJobs | internal/scheduler/rollup.go:69-93 | The conclusions a rollup adds up are exactly those of the run's jobs |
| AuditLog.LogOnlyGrows | internal/scheduler/events.go:29-41 | No entry point ever removes or rewrites an event, so what is said of the log is said of all that happened |
| Unchanged.TickChangesNothingExactlyWhenAllIsQuiet | internal/scheduler/scheduler.go:268-346 | In every state with the invariant, a Tick leaves everything as it is exactly when no lease has expired and every tracked run it gets to is quiet: no budget exceeded, no leg to fail fast, nothing to admit, skip or close |
| Idempotence.OneTickSettles | internal/scheduler/scheduler.go:268-346 | Among orderly runs one Tick leaves no lease expired and nothing due in any run it got to, but perhaps a job that was passed over for its group; it reports an error exactly when some tracked run still has one |
| Idempotence.TickIsIdempotentExactlyWhenNobodyIsPassedOver | internal/scheduler/scheduler.go:268-346 | Among orderly runs the second Tick of an instant changes nothing exactly when the first passed nobody over, errors included; it then also reports what the first reported |
| Idempotence.TickIsIdempotent | internal/scheduler/scheduler.go:268-346 | For runs in no workflow-level group, whose jobs are listed in needs order, whose groups stay within the run and whose cancelling jobs are alone in their groups, Tick of Tick is Tick, errors included |
| Idempotence.TickRunSettles | internal/scheduler/scheduler.go:287-321 | One tick of an orderly run leaves it finished or with nothing due but a job passed over, touches no other run, and reports an error exactly when an if: of it does not evaluate or a need has no jobs |
| Settling.QuietRunIsLeftAlone | internal/scheduler/scheduler.go:287-321 | A tick of a run with no budget exceeded, no leg to fail fast and nothing to admit or skip leaves the state exactly as it is, whether or not the run has an error to report |
| Restless.PassedOverMakesTheNextTickCancel | internal/scheduler/concurrency.go:12-61 | Among orderly runs, if the first Tick passed a job over, the second cancels a job that the first let hold the group |
| Restless.RivalsMakeTheNextTickCancel | internal/scheduler/concurrency.go:12-61 | Two jobs of one cancel-in-progress group that are both to run make the second Tick cancel a holder |
| Restless.TickIsNotIdempotentWithGroups | internal/scheduler/scheduler.go:268-271 | After creating and starting a run of two jobs in a cancel-in-progress group, the first Tick queues one of them and the second, for the same instant, cancels it |
| Traces.TickIsNotIdempotentAcrossRuns | internal/scheduler/scheduler.go:272-285 | A reachable state of two runs that share a group without cancel-in-progress, for which the second Tick of an instant changes the state |
| Promises.CancelledRunsNameAReasonExactlyWhen | internal/model/entities.go:50-51 | A run that ends cancelled has a recorded reason exactly when the run itself was cancelled, or no job was, or some job failed |
| Traces.CancellingTheOnlyJobLeavesNoReason | internal/scheduler/cancel.go:66-83 | Creating and starting a run of one job, cancelling the job and ticking leaves the run cancelled with no reason on it |
| Promises.ExactlyOneStatusExactlyWhen | internal/plan/eval.go:22-24 | Exactly one of success, failure and cancelled is true unless a need failed while another or the run was cancelled, or a need was skipped and nothing else went wrong |
| Promises.StatusesAreNotExclusive | internal/scheduler/readiness.go:34-86 | A skipped need makes none of the three true; a failed need in a cancelled run makes two true |
| Promises.NeedsFlags | internal/scheduler/readiness.go:34-86 | The three flags of computeNeeds say: every need succeeded, some need failed, some need was cancelled |
| Deciding.NeedsAreTold | internal/scheduler/readiness.go:28-129 | The code waits until every leg of every need is done, and what it then tells an if: is what the rows say: which needs were met, failed or were cancelled, and their outputs, the last leg to set one winning |
| Deciding.NeedsTellOneThing | internal/scheduler/readiness.go:28-86 | The rows leave no doubt about what an if: is told |
| Deciding.SkippedExactlyWhenToldNo | internal/scheduler/readiness.go:132-225 | A pending job is skipped exactly when its needs are done and its if: is false, or names no status function while some need was not met; only its row and the log change |
| Deciding.QueuedExactlyWhenToldYes | internal/scheduler/readiness.go:192-241 | A pending job is queued exactly when its needs are done, its if: and, unless that names a status function, its needs say yes, a slot is left and its group is open; short of a slot it is left alone, short of its group it waits, and whoever held a group that is taken over is cancelled |
| Deciding.UndecidedJobsAreLeftAlone | internal/scheduler/readiness.go:193-213 | A job that is not pending or still waits for a need is left alone, and a missing plan entry or a failing if: stops the pass without a change |
| Deciding.SlotsAreCountedOnce | internal/scheduler/readiness.go:184-190 | The pass begins with every slot in use counted once |
| Turns.NothingIsQueuedOutOfTurn | internal/scheduler/readiness.go:132-254 | Whatever a Tick queues has finished needs, an if: that is absent or true over what they came to, every need met unless the if: names a status function, and no older unfinished run in its workflow-level group |
| Turns.NothingIsSkippedUnasked | internal/scheduler/readiness.go:213-225 | Whatever a Tick skips has finished needs and a false if:, or an if: that names no status function and a need that was not met |
| Turns.WaitsExactlyForItsElders | internal/scheduler/concurrency.go:118-144 | A run is held up by its workflow-level group exactly when the group does not cancel in progress and another unfinished tracked run of it was created before, or at the same time with a smaller number |
| Turns.RunsInTurnAreNotHeldUp | internal/scheduler/scheduler.go:272-321 | A Tick that runs through decides every pending job with finished needs, no group and no cap of the oldest unfinished run of a workflow-level group, or of a run in none |
| Reruns.ExpandDependentsIsTheLeastClosure | internal/scheduler/rerun.go:121-139 | expandDependents yields exactly the least superset of the chosen keys closed under dependents |
| Reruns.RerunKeepsInv | internal/scheduler/rerun.go:40-119 | A rerun of jobs with no queue row left keeps the invariant, so dependents never run on a result that is being replaced |
| Reruns.RerunIsSafeExactlyWhenNothingResetIsQueued | internal/scheduler/rerun.go:71-105 | The invariant survives a rerun exactly when no job it resets still has a queue row |
| Traces.RerunningAQueuedJobBreaksTheInvariant | internal/scheduler/rerun.go:71-105 | Creating, starting and ticking a run and re-running what has not succeeded resets a job that still has its queue row |
| RunEntry.StartRunKeepsInv | internal/scheduler/scheduler.go:164-227 | Starting a run that was not cancelled first, superseding older ones on the way, keeps the invariant |
| RunEntry.StartRunIsSafeExactlyWhenNotCancelled | internal/scheduler/scheduler.go:164-227 | Starting a run keeps the invariant exactly when the run was not cancelled before |
| Effects.StartingARun | internal/scheduler/scheduler.go:164-227 | Starting a run makes one first row per leg in plan order, held exactly for an unapproved fork where approval is required, and cancels exactly the unfinished runs of a workflow-level group that cancels in progress, with their jobs; nothing else changes |
| Effects.ApprovingLiftsTheHold | internal/scheduler/scheduler.go:236-266 | Approving lifts the hold of exactly the held jobs of the run |
| Effects.CancellingARunReachesItsJobs | internal/scheduler/cancel.go:36-63 | Cancelling an unfinished run stops exactly its unfinished jobs for the reason given and closes it; no other run or job is touched |
| Effects.CancellingAJobReachesIt | internal/scheduler/cancel.go:66-83 | Cancelling an unfinished job stops that job and nothing else |
| Effects.ExpandingGoesDownstream | internal/scheduler/rerun.go:121-139 | expandDependents collects exactly the keys at the end of a chain of needs from a chosen one |
| Effects.RerunningStartsAfreshWhatLiesDownstream | internal/scheduler/rerun.go:40-119 | A rerun works exactly when an actor asks, the run has its plan and some job is asked for (all, those that did not succeed, or one); it starts afresh exactly those jobs and what lies downstream of them, and reopens the run |
| Effects.HandedOutOnlyWhenDueAndFitting | internal/scheduler/assignment.go:27-108 | A job is handed out only from an unleased row that is due, to a runner with all the labels of the job; it then runs under that lease with its step budgets remembered, a fork is put on record, and no other row changes |
| Effects.FinishedJobsAreNotHandedOut | internal/scheduler/assignment.go:39-56 | A claim on a job that has concluded hands nothing out and drops the lease again |
| Effects.HeartbeatsExtendTheirOwnLease | internal/store/store.go:151-152 | A heartbeat moves the end of a lease its runner holds, and changes nothing else |
| Effects.SetupIsRecordedOnce | internal/scheduler/complete.go:266-287 | The end of setup is recorded once, at the word of whoever holds the attempt |
| Effects.LostJobsStartOver | internal/scheduler/complete.go:210-264 | Exactly the jobs whose lease has run out start their next attempt, in the queue row they had and at no cost to their retries |
| Budgets.StoppedExactlyWhenOutOfTime | internal/scheduler/timeouts.go:39-127 | A running job is stopped exactly when its setup, a step or the job itself has overrun its budget: late setup as an infra failure, retried while the policy allows, anything else as a timeout of its own |
| Budgets.SweepTreatsEachAlone | internal/scheduler/timeouts.go:39-89 | The sweep over a run's jobs treats each as if it were alone |
| Budgets.LateRunsAreClosed | internal/scheduler/timeouts.go:11-37 | A tick of a run stops all its unfinished jobs and closes it for the time it took exactly when it has run longer than its budget since its start, or its creation |
| Budgets.FailFastReachesExactlyTheSiblings | internal/scheduler/cancel.go:85-123 | The sweep cancels exactly the unfinished legs of jobs of two legs or more that are planned to fail fast and have a leg that failed without continue-on-error |
| Traces.StartingACancelledRunBreaksTheInvariant | internal/scheduler/scheduler.go:164-227 | Creating a run, cancelling it and starting it leaves a running run with a cancel reason on it |
| RunEntry.ApproveKeepsInv | internal/scheduler/scheduler.go:236-266 | Approving a run none of whose held jobs was cancelled keeps the invariant |
| RunEntry.ApproveIsSafeExactlyWhenNothingHeldWasCancelled | internal/scheduler/scheduler.go:250-262 | The invariant survives Approve exactly when no held job of the run was cancelled before |
| Traces.ApprovingACancelledJobBreaksTheInvariant | internal/scheduler/scheduler.go:250-262 | Creating and starting a fork run, cancelling its held job and approving the run puts a concluded job back among the waiting |
| EntryPoints.TickKeepsInv | internal/scheduler/scheduler.go:272-285 | A tick keeps the invariant |
| EntryPoints.AcquireKeepsInv | internal/scheduler/assignment.go:27-59 | A claim keeps the invariant, and with it the claimed job is never one that had already concluded |
| EntryPoints.ReportKeepsInv | internal/runnerapi/handlers.go:186-223 | A runner's report keeps the invariant, retry included |
| EntryPoints.ReleaseKeepsInv | internal/scheduler/assignment.go:385-395 | Giving a job back keeps the invariant |
| EntryPoints.RestartKeepsInv | internal/scheduler/scheduler.go:77-81 | Losing the plans and step budgets in a restart keeps the invariant |
| Sweeps.ReapKeepsInv | internal/scheduler/complete.go:210-264 | Reaping expired leases keeps the invariant: each lost job starts its next attempt in the row it had |
| Sweeps.FailFastKeepsInv | internal/scheduler/cancel.go:85-123 | Cancelling the remaining legs of a failed job keeps the invariant |
| Sweeps.TimeoutsKeepInv | internal/scheduler/timeouts.go:39-89 | Enforcing the three job budgets keeps the invariant |
| Admissions.AdmitFromKeepsThePass | internal/scheduler/readiness.go:175-243 | A whole admission pass keeps the invariant, with the slots and groups it counts in memory standing for those in the store |
| Attempts.FinishAttemptKeepsInv | internal/scheduler/complete.go:90-155 | Ending an attempt keeps the invariant |
| Attempts.CancelRunKeepsInv | internal/scheduler/cancel.go:36-63 | Cancelling a run keeps the invariant |
| Schedulers.Scheduler.FinishAttempt | internal/scheduler/complete.go:90-155 | Takes the state and the row exactly where the step function for ending an attempt does, refusals included |
| Schedulers.Scheduler.FinalizeIfComplete | internal/scheduler/scheduler.go:323-346 | Closes the run when all listed jobs are done, with the aggregate of their conclusions, and forgets its plan |
| Schedulers.Scheduler.RollupConclusion | internal/scheduler/rollup.go:69-93 | The aggregate of the conclusions of the completed jobs |
| Schedulers.Scheduler.CancelRun | internal/scheduler/cancel.go:36-63 | Stops every unfinished job of the run, records the reason and closes the run |
| Schedulers.Scheduler.StopAll | internal/scheduler/cancel.go:52-61 | Every unfinished job of a list stopped, in list order, up to the first refusal |
| Schedulers.Scheduler.ComputeNeeds | internal/scheduler/readiness.go:28-86 | Reduces each need to one result, stops at unfinished work, fails on a need without jobs |
| Schedulers.Scheduler.ReadLegs | internal/scheduler/readiness.go:42-60 | The gating conclusions and merged outputs of one need's legs, or not ready |
| Schedulers.Scheduler.AdmitToConcurrencyGroup | internal/scheduler/concurrency.go:12-61 | Decides on a group: free, held for, or taken over by cancelling every holder |
| Schedulers.Scheduler.Holders | internal/scheduler/concurrency.go:30-42 | Exactly the other unfinished jobs of the group that have been admitted |
| Schedulers.Scheduler.RunGroupBlocked | internal/scheduler/concurrency.go:118-144 | Whether an older unfinished tracked run holds the workflow-level group |
| Schedulers.Scheduler.AdmitReadyJobs | internal/scheduler/readiness.go:175-243 | One admission pass over the run's jobs: skip, hold, wait for a slot, or queue |
| Schedulers.Scheduler.ApplyFailFast | internal/scheduler/cancel.go:85-123 | Cancels the unfinished legs of every job that must fail fast |
| Schedulers.Scheduler.MustFailFast | internal/scheduler/cancel.go:90-106 | Two legs or more, fail-fast planned, and a leg that failed without continue-on-error |
| Schedulers.Scheduler.CancelLegs | internal/scheduler/cancel.go:107-120 | The unfinished legs of one job cancelled, the rest left alone |
| Schedulers.Scheduler.EnforceJobTimeouts | internal/scheduler/timeouts.go:39-89 | The budget sweep over a run's jobs |
| Schedulers.Scheduler.ReapExpiredLeases | internal/scheduler/complete.go:210-264 | Drops every expired lease and starts the next attempt of each lost job |
| Schedulers.Scheduler.Tick | internal/scheduler/scheduler.go:268-285 | Reaping, then every tracked run in ascending order |
| Schedulers.Scheduler.StartRun | internal/scheduler/scheduler.go:164-227 | Supersedes, creates one row per planned job (held for an unapproved fork), keeps the plan, starts the run |
| Schedulers.Scheduler.SupersedeOlderRuns | internal/scheduler/concurrency.go:78-116 | Cancels every other unfinished tracked run of the workflow-level group |
| Schedulers.Scheduler.Approve | internal/scheduler/scheduler.go:236-266 | Lifts the fork hold of a run's jobs |
| Schedulers.Scheduler.Acquire | internal/scheduler/assignment.go:27-59 | At most sixteen claims, each on an eligible row; claims on finished jobs are withdrawn; the last claim is the job handed out |
| Schedulers.Scheduler.Rerun | internal/scheduler/rerun.go:40-119 | Resets the chosen jobs and their transitive dependents and reopens the run |
| Schedulers.Scheduler.ExpandDependents | internal/scheduler/rerun.go:121-139 | The fixpoint loop reaches the closure the least-closure lemma is about |
| Stores.Store.Enqueue | internal/store/store.go:144-146 | A present row is left alone, lease and all; otherwise a new unleased row and a queued job |
| Stores.Store.Dequeue | internal/store/store.go:147-150 | Claims some row that is unleased, due and matches the labels, under a lease; none exactly when there is no such row |
| Stores.Store.Heartbeat | internal/store/store.go:151-152 | Extends the lease of its holder only |
| Stores.Store.ReleaseLease | internal/store/store.go:159-160 | Drops the holder's lease for a valid reason and leaves the row queued |
| Stores.Store.ReapExpiredLeases | internal/store/store.go:161-164 | Every expired lease dropped, the lost jobs returned naming their runner, nothing else touched |
| Stores.Store.UpdateJob | internal/store/mem/entities.go:269-286 | Writes the row; a completed job leaves the queue at the same moment |
| Stores.Store.ListJobsForRun | internal/store/mem/entities.go:288-299 | The run's jobs in id order |
| Stores.Store.ListJobsInConcurrencyGroup | internal/store/mem/entities.go:301-320 | The unfinished jobs of the group |
| Model.AggregateConclusions | internal/model/status.go:179-239 | The flag-keeping loop computes the declarative worst-of reducer |
| Model.AggregateIsSuccessExactlyWhenAllSucceeded | internal/model/status.go:179-239 | Success exactly when there is something and all of it succeeded; cancelled exactly when something was cancelled and nothing failed |
| Model.TheWorstConclusionWins | internal/model/status.go:184-239 | Which conclusion an aggregate is, conclusion by conclusion: config error whenever there is one, else infra failure, timeout, failure, required action, cancelled; neutral, skipped and success likewise |
| Model.AggregateIgnoresOrder | internal/model/status.go:184-239 | Permuting the conclusions changes nothing |
| Model.AggregateNests | internal/model/status.go:184-239 | The aggregate of the aggregates of non-empty parts is the aggregate of the whole |
| Model.NeedsResultOf | internal/scheduler/readiness.go:88-129 | The loop computes the gating result: a failure first, then a cancellation, then any non-skipped leg |
| Model.WhatDependentsAreTold | internal/scheduler/readiness.go:88-129 | Which result dependents are told, conclusion by conclusion |
| Model.GatingIsWeakerThanTheVerdict | internal/scheduler/readiness.go:88-101 | Where gating says success and the rollup does not: exactly a skip beside a success, or a neutral or stale leg |
| Retry.RetriesClass | internal/model/ir.go:301-313 | Whether the policy retries a class at an attempt |
| Retry.DelayBefore | internal/model/ir.go:315-343 | The doubling loop, in 64-bit arithmetic, computes the specified delay |
| Retry.DelayIsThePause | internal/model/ir.go:315-343 | Within the 64-bit range the delay before try n is nothing, the initial one, n-1 times it or 2^(n-2) times it, as the policy says, and never above a cap |
| Retry.ExponentialDelayIsTheClosedFormUnlessInitialOverflows | internal/model/ir.go:330-341 | With a cap of at most 2^62 the exponential delay is min(cap, initial * 2^(n-2)) for every n exactly when the initial delay is below 2^62; above, the third attempt's delay is negative |
| Retry.BackoffNeverShrinks | internal/model/ir.go:330-341 | Later attempts never wait less, and none waits beyond the cap |
| Planner.BuildJob | internal/plan/plan.go:190-309 | Legs are planned exactly when the cap is a count, the policy honest, the matrix expands to some leg and every leg's own expressions come out usable; each planned job then has the cap, policy, needs and condition of its job and the labels, group, continue-on-error and timeout of its leg, and is named by the values of its naming keys |
| Planner.LegsShareAnIdentityExactlyWhen | internal/plan/matrix.go:26-35 | Legs named by the same keys, none of whose values shows a comma, share an identity exactly when every value looks the same |
| Planner.DifferentLegsCanShareAnIdentity | internal/plan/matrix.go:26-35 | A number and a text that look alike name one leg, and so do values with commas that meet the next key half-way |
| Planner.CheckedPolicy | internal/plan/plan.go:215-229 | A policy is accepted exactly when it allows an attempt and retries only infra failures |
| Planner.TheDefaultPolicy | internal/model/ir.go:290-299 | Without a policy a job gets three attempts for infra failures alone, five seconds before the second and ten before the third, and would never wait over two minutes |
| Planner.BuildPlan | internal/plan/plan.go:108-158 | A plan exists exactly for a complete acyclic needs graph with a usable group whose jobs can all be planned; it is the legs of each job in turn, in the greedy order |
| Planner.BuiltPlansAreWellFormed | internal/plan/plan.go:190-309 | A built plan with a job in it meets what the scheduler's invariant asks of plans |
| Planner.StartedRunsAreListedInOrder | internal/scheduler/scheduler.go:185-211 | The rows of a run started from a built plan are listed in needs order |
| TopoSorting.TopoSort | internal/plan/dag.go:11-80 | Succeeds exactly when the order is complete, all needs are defined and the graph is acyclic; the order is valid and greedy; otherwise the jobs named are exactly those from which a walk of needs leads onto a cycle, and these are all on cycles exactly when nobody else needs a member |
| TopoSorting.LinkNeeds | internal/plan/dag.go:31-49 | The counts and dependents of the first pass, a repeated need counted once, a self-need or unknown need refused |
| TopoSorting.RunQueue | internal/plan/dag.go:51-69 | The queue places a greedy order of everything that can be placed and leaves no ready job |
| TopoSorting.ValidateAndSort | internal/workflow/validate.go:28-32 | The validator reports no cycle exactly when the planner can sort, and no other valid order comes lexicographically before the one chosen |
| NeedsGraph.GreedyIsLexicographicallyLeast | internal/plan/dag.go:11-14 | Of two valid orders the greedy one has the earlier declared job where they first part |
| NeedsGraph.AnOrderRulesOutCycles | internal/plan/dag.go:70-79 | A valid order leaves no room for a cycle |
| NeedsGraph.StuckJobsHideACycle | internal/plan/dag.go:70-78 | Jobs that all wait for one another contain a cycle |
| NeedsGraph.OnlyMembersWaitExactlyWhen | internal/plan/dag.go:70-79 | The jobs that wait for a cycle are those on one exactly when whoever needs a member is a member |
| NeedsGraph.TheThirdOnlyWaits | internal/plan/dag.go:70-79 | Of three jobs, two need each other and the third, which needs one of them, waits for the cycle without being on it |
| CycleSearch.CycleFinder.FindCycle | internal/workflow/validate.go:46-96 | Empty exactly when the graph is acyclic; otherwise a real cycle of needs, closed, with no other repeats |
| CycleSearch.CycleFinder.Walk | internal/workflow/validate.go:58-86 | One visit: a cycle through the stack, or the job and all it needs done |
| Depths.BuildGraphDepths | internal/api/dto.go:361-391 | The server's in-place relaxation computes the specified passes |
| Depths.ComputeDepths | web-src/dag.ts:52-76 | The browser's relaxation computes the specified passes from its zero map |
| Depths.RelaxationFindsLongestPaths | internal/api/dto.go:369-391 | On an acyclic graph, as many passes as nodes end at the exact longest-path depth of every node |
| Depths.EdgesGoDeeper | internal/api/dto.go:361-364 | A job is drawn strictly deeper than everything it needs |
| Depths.ServerAndBrowserAgree | web-src/dag.ts:57-76 | Both give every node of every graph the same depth, cycles included |
| MatrixExpansion.ExpandMatrix | internal/plan/matrix.go:56-173 | Fails exactly on an incomplete order, a dimension that is empty or does not evaluate, an empty entry or an exclude of an unknown key; otherwise its legs are the specified ones |
| MatrixExpansion.DimensionOrder | internal/plan/matrix.go:211-242 | The declared dimensions in order, refused when the order repeats a key or misses one |
| MatrixExpansion.EvaluateDimension | internal/plan/matrix.go:244-269 | Expressions evaluated, lists spliced, any failure refused |
| MatrixExpansion.ApplyExcludes | internal/plan/matrix.go:102-121 | Filtering by each exclude in turn is filtering once by all of them |
| MatrixExpansion.ApplyIncludes | internal/plan/matrix.go:123-161 | Every combination merged with the includes that fit its original values; the includes that fit none kept apart |
| MatrixExpansion.LegOrder | internal/plan/matrix.go:175-199 | Dimensions, then declared keys, then the rest sorted |
| MatrixLaws.ChoiceIsAtItsRank | internal/plan/matrix.go:72-95 | Every choice of one value per dimension is one combination, at its mixed-radix rank |
| MatrixLaws.EveryRankIsAChoice | internal/plan/matrix.go:72-95 | And every combination is the one of some choice |
| MatrixLaws.RanksFollowDeclaration | internal/plan/matrix.go:72-95 | Choices are ordered lexicographically, the last dimension varying fastest |
| MatrixLaws.PickedValues | internal/plan/matrix.go:86-93 | A combination has exactly the dimensions as keys, each with the chosen value |
| MatrixLaws.KeptAreTheUnexcluded | internal/plan/matrix.go:114-120 | What is kept is exactly what no exclude matches, in the same order |
| MatrixLaws.LastSetterWins | internal/plan/matrix.go:131-155 | A key has the value of the last fitting include that names it |
| MatrixLaws.UnsetKeysAreOriginal | internal/plan/matrix.go:131-155 | A key no fitting include names keeps its original value, or stays absent |
| MatrixLaws.DimensionsKeepTheirValues | internal/plan/matrix.go:123-150 | No include changes what a combination's own dimension stands for, up to sameValue |
| MatrixLaws.UnmatchedAreTheStrays | internal/plan/matrix.go:156-160 | The appended legs are exactly the includes that fit no combination, in order |
| MatrixLaws.ProductLegsAreChoices | internal/plan/matrix.go:163-167 | Every product leg comes from an unexcluded choice, agrees with it on every dimension, and is named by the dimensions |
| MatrixLaws.ChoicesHaveLegs | internal/plan/matrix.go:163-167 | Every unexcluded choice has its leg |
| MatrixLaws.LegOrderIsAPermutation | internal/plan/matrix.go:175-199 | A leg's order names each of its keys once |
| MatrixLaws.LegOrderIsDetermined | internal/plan/matrix.go:175-199 | The order does not depend on how the map of values is walked |
| MatrixLaws.ExtraValuesKeepLegIdentity | internal/plan/matrix.go:26-35 | An include that only adds extra values renumbers no leg and renames none |
| MatrixLaws.SameValueIsAnEquivalence | internal/plan/matrix.go:404-414 | sameValue is reflexive, symmetric and transitive |
| MatrixLaws.NumbersCompareAsNumbers | internal/plan/matrix.go:404-414 | Numbers are the same as numbers, whatever their type; everything else is only itself |
| MatrixLaws.DimensionsAreSpliced | internal/plan/matrix.go:244-269 | A dimension fails exactly when an expression in it does; otherwise its values are what its written values stand for, end to end, a list by its items |
| MatrixLaws.RefusedExactlyWhen | internal/plan/matrix.go:56-112 | A matrix is refused exactly when its key order repeats a key or misses a dimension, a dimension fails or is empty, an exclude is empty or names no dimension, or an include is empty |
| MatrixLaws.AddedLegsAreTheIncludes | internal/plan/matrix.go:152-172 | The legs that includes add are includes, named by all their keys |
| MatrixLaws.LegsFollowTheDeclaration | internal/plan/matrix.go:175-199 | A leg lists dimensions first, in their order, then other declared keys, in theirs, then the rest by name |
| MatrixLaws.ExpansionIsDetermined | internal/plan/matrix.go:56-173 | A matrix has one expansion |
| Uploads.ChunkedUpload.WriteRange | internal/blob/chunked.go:77-131 | A chunk is taken unless the offset is negative, the upload is over or the driver fails; a taken one is recorded even past the cap, at most one byte past the budget |
| Uploads.ChunkedUpload.Coverage | internal/blob/chunked.go:133-150 | A size exactly when the sorted ranges each start where the last ended, and then the bytes written, which they tile; for non-empty chunks exactly when the ranges tile [0, size) once, in any arrival order |
| Uploads.ChunkedUpload.Commit | internal/blob/chunked.go:152-209 | Succeeds exactly when the ranges are contiguous as sorted, the declared size agrees, the driver does not fail and what is stored adds up; the object is then what was stored, holds each chunk at its offset (staged: if the sort is stable or no chunk with bytes was replaced), is as long as what was written, and no part is left |
| Uploads.ChunkedUpload.CommitParts | internal/blob/chunked.go:171-194 | The staged parts in offset order become the object exactly when they add up to the size covered |
| Uploads.ChunkedUpload.CommitInPlace | internal/blob/chunked.go:196-208 | The bytes written in place are the object once the size agrees |
| Uploads.ChunkedUpload.Abort | internal/blob/chunked.go:211-234 | Removes every recorded part, or the object, and ends the upload |
| Uploads.PartsReader.Read | internal/blob/chunked.go:253-296 | Hands over the parts back to back in pieces of any size, ends when all is read, and fails on a missing part |
| Uploads.Concat | internal/blob/chunked.go:246-296 | Reading to the end gives the parts' contents in order exactly when all of them exist |
| Uploads.PartsMakeTheObject | internal/blob/chunked.go:171-194 | Non-empty ranges that tile leave every chunk its own part, and the sorted parts end to end hold each chunk at its offset |
| Uploads.StagingIsRightExactlyWhen | internal/blob/chunked.go:171-194 | Ranges whose parts add up make the right object, whatever bytes they bring, exactly when no chunk with bytes in it was replaced |
| Uploads.StableLeavesTheLast | internal/blob/chunked.go:138-149 | If the sort is stable, ranges found contiguous have no chunk with bytes in it replaced |
| Uploads.EmptyChunksCanSpoilAStagedObject | internal/blob/chunked.go:115-119 | Four writes, two of them empty, and a commit that all succeed and leave an object of the right size with the wrong bytes, under a sort that is not stable |
| Uploads.ARefusedWriteCanBeCommitted | internal/blob/chunked.go:121-131 | A write past the cap is refused, and the upload is then committed all the same, in place or staged |
| Tiling.TilingIgnoresOrder | internal/blob/chunked.go:133-150 | Tiling is a property of the set of ranges, not of their order |
| Tiling.TotalIgnoresOrder | internal/blob/chunked.go:121-131 | The size covered is the number of bytes written, in whatever order they are listed |
| Tiling.ContiguousTiles | internal/blob/chunked.go:139-149 | Ranges that each start where the last ended cover every byte exactly once |
| Tiling.TilingIsContiguous | internal/blob/chunked.go:139-149 | Non-empty sorted ranges that cover every byte exactly once each start where the last ended |
| Tiling.ReplayHolds | internal/blob/chunked.go:107-113 | Writes that do not overlap all survive, whatever order they arrive in |
| Tiling.ConcatenationHolds | internal/blob/chunked.go:171-181 | Contiguous parts end to end each land at their offset |
| Tiling.OneAssembly | internal/blob/chunked.go:17-21 | Tiled chunks leave no byte open: two objects that hold them are equal, so both storage strategies give one result |
| Tiling.AnyArrivalMakesTheSameObject | internal/blob/chunked.go:17-21 | So do two arrival orders of the same chunks |
| LogStream.Subscriber.Push | internal/logstore/subscriber.go:37-53 | The line is queued, or the watcher is over or found too far behind; the ring never exceeds the larger of its capacity and the backlog |
| LogStream.Subscriber.Send | internal/logstore/subscriber.go:89-98 | Each line sent carries the number right after the last |
| LogStream.Subscriber.EndBatch | internal/logstore/subscriber.go:99-117 | A cut-off watcher's last message carries the number of the last line it got, and it got one; a clean end comes only when everything handed over was sent |
| LogStream.Subscriber.Step | internal/logstore/subscriber.go:77-118 | Any step of the pump: the next line, the notice, the end, or nothing |
| LogStream.ReceivedIsConsecutive | internal/logstore/subscriber.go:10-23 | What a watcher received is numbered without gap or repeat from its start |
| LogStream.ReconnectingContinues | internal/logstore/logstore.go:31-34 | After a cut-off, what the first watcher got and what a second one that asks for the notice's number has got so far are together one stretch of the log, no line missing at the seam and none twice |
| LogStream.Reconnect | internal/logstore/subscriber.go:99-117 | Subscribing with the number of the notice starts right after the last line the first watcher got |
| LogStream.Attempt.Append | internal/logstore/logstore.go:151-190 | Lines get the next numbers in order and go to every live watcher; a sealed log takes none |
| LogStream.Attempt.Fanout | internal/logstore/logstore.go:193-203 | After a line every remaining subscriber has it, and the rest are dropped |
| LogStream.Attempt.Subscribe | internal/logstore/logstore.go:297-327 | A watcher is handed the log from fromSeq on as its backlog, starting right there exactly when 0 <= fromSeq <= lastSeq |
| LogStream.Attempt.ReplayOnly | internal/logstore/logstore.go:330-346 | A sealed log is replayed from fromSeq on |
| LogStream.Attempt.Read | internal/logstore/logstore.go:205-228 | The first limit lines after fromSeq |
| LogStream.Attempt.Seal | internal/logstore/logstore.go:416-423 | Seals the log and closes every live watcher |
| LogStream.Attempt.PumpStep | internal/logstore/subscriber.go:77-118 | At any point a watcher's next message is the log's own next line, or the notice under the last number; every watcher's stream stays a stretch of the log |
| GroupFold.FoldGroups | web-src/groups.ts:43-75 | The fold with its stack of open groups computes the specified tree |
| GroupFold.FlattenUndoesFold | web-src/groups.ts:103-114 | Flattening the folded log gives exactly its plain lines in order |
| GroupFold.GroupsContainingAreTheOpenOnes | web-src/groups.ts:77-101 | For lines with increasing numbers, the groups found for any plain line are exactly those open around it, outermost first, unclosed ones included |
| GroupFold.FoldPlacesEveryLine | web-src/groups.ts:48-75 | The fold keeps every plain line, in order, inside the groups open around it |
| GroupFold.WalkFindsThePath | web-src/groups.ts:83-98 | In an ordered tree the walk by number ranges goes down to the line it is after |
| GroupFold.FlattenBlocks | web-src/groups.ts:103-114 | The recursive walk computes the flattening |
| GroupFold.GroupsContaining | web-src/groups.ts:77-101 | The recursive walk computes the path |
| Glob.CompileGlob | internal/workflow/glob.go:43-117 | Refused exactly when there is no body, a quantifier follows no character, escape or class, an escape or class is unfinished, or the regexp written does not parse; without an empty class the last means exactly a range that runs backwards, and the regexp then accepts exactly what the tokens read |
| Glob.CompileClass | internal/workflow/glob.go:119-146 | The class up to the first closing bracket, every character quoted but the dash; refused exactly when nothing closes it |
| Glob.Emit | internal/workflow/glob.go:58-107 | The loop with its pending atom writes the specified text, and refuses exactly tokens that are not well formed |
| Glob.ParseUndoesWriting | internal/workflow/glob.go:52-112 | For well-formed tokens without an empty class, parsing what was written gives the regexp they mean, and fails exactly at a range that runs backwards: quoting loses nothing |
| Glob.PatternsAreReadAsMeant | internal/workflow/glob.go:52-112 | So the regexp parsed from the text of a pattern without an empty class matches exactly what the pattern reads |
| GlobLaws.TokensReadWhatIsSelected | internal/workflow/glob.go:9-25 | The pieces the compiler works with read exactly what the dialect, defined on the text of a pattern, selects |
| GlobLaws.PatternsSelectWhatTheySay | internal/workflow/glob.go:9-112 | A pattern that compiles and has no empty class selects exactly what its text says |
| Glob.EmptyClassesSwallowWhatFollows | internal/workflow/glob.go:119-146 | []a[b] is written as it stands and parsed as one class of four characters, where the dialect reads a class of none |
| Glob.BuildKeepsTheLanguage | internal/workflow/glob.go:58-107 | What is built matches what the builder already matched, followed by what is left to read |
| Glob.BuildSucceeds | internal/workflow/glob.go:80-86 | Building succeeds exactly on well-formed tokens |
| Glob.LineEndsOnlyMatterToDoubleStars | internal/workflow/glob.go:14-15 | The compiled reading and the dialect's differ only on strings with a line end under a pattern with ** |
| Glob.DoubleStarStopsAtALineEnd | internal/workflow/glob.go:72-76 | They do differ: ** does not select a lone line end as compiled |
| Glob.SetMatches | internal/workflow/glob.go:164-188 | The last matching pattern decides; with no match, only a list of nothing but exceptions selects, and an empty list always does |
| Glob.SetMatchesAny | internal/workflow/glob.go:190-199 | Some candidate is selected, by an empty list too |
| Glob.CompileGlobs | internal/workflow/glob.go:151-162 | A list compiles exactly when every pattern does, each to its own regexp |
| Freshness.Sessions.CheckFreshness | internal/enrol/session.go:87-112 | Accepts exactly a nonce not on record whose timestamp is in the window, and records it |
| Freshness.Sessions.Evict | internal/enrol/session.go:114-123 | Forgets exactly the nonces older than twice the skew |
| Freshness.NoRequestIsAcceptedTwice | internal/enrol/session.go:87-112 | With a non-decreasing clock no fingerprint, timestamp and nonce is accepted twice, over any calls |
| Freshness.AcceptedExactlyWhenFresh | internal/enrol/session.go:87-123 | With a non-decreasing clock and fingerprints of one line, a request is accepted exactly when it has a nonce, is dated within two minutes of the clock, and no call accepted in the last four minutes had its fingerprint and nonce |
| Freshness.RememberedLongEnough | internal/enrol/session.go:114-123 | An accepted nonce stays on record until the clock has run twice the skew past it |
| Freshness.OnlyRecentNoncesAreKept | internal/enrol/session.go:114-123 | Every nonce on record is an accepted one, and after an accepted call none is older than twice the skew |
| Freshness.ForgottenMeansOutOfWindow | internal/enrol/session.go:114-116 | Once forgotten, a request is refused for its timestamp |
| Keyrings.UnexpiredTokensVerify | internal/oidc/keyring.go:174-208 | From any stored keys that back the tokens issued so far, none included, and over any issues, rotations and restarts, the key of every unexpired token is published, and exactly one key is unretired unless the store began with several (section 5 of RFC 7517, section 4.1.4 of RFC 7519) |
| Keyrings.RotationKeepsTokensBacked | internal/oidc/keyring.go:247-255 | Rotation drops a key only when every token it backed has run out |
| Keyrings.RotationDropsExactlyTheSpent | internal/oidc/keyring.go:234-255 | A rotation keeps the new key, the signer it retires and every key retired no longer ago than a token lives, and no other |
| Keyrings.PublishedExactlyWhileUseful | internal/oidc/keyring.go:309-330 | A key is published until its lifetime after it retired is over, and no longer |
| Keyrings.RotationReplacesTheSigner | internal/oidc/keyring.go:234-260 | After a rotation the new key signs, and as many keys are unretired as before, or one if there was none |
| Keyrings.Keyring.constructor | internal/oidc/keyring.go:170-208 | Loads the stored keys, whatever they are, and makes and saves a first one when none signs |
| Keyrings.Keyring.Rotate | internal/oidc/keyring.go:226-266 | Retires the signing key, adds a new one, drops what is spent and saves the rest |
| Keyrings.Keyring.JWKS | internal/oidc/keyring.go:309-330 | Publishes every key that is not spent |
| Keyrings.Keyring.Issue | internal/oidc/keyring.go:287-292 | New tokens are signed with the last unretired key |

## Left out

- HTTP handlers, JSON, webhooks, the GitHub client, the Docker supervisor, configuration and the command line: plumbing around libraries that are not part of this model.
- Building an assignment (steps, environment, secrets, containers): long but shallow; a dispatch takes its success and its step budgets as parameters.
- Expression evaluation and YAML parsing: an if: is any function of the plan, the leg and the needs.
- Store errors part way through an entry point: every store call succeeds once its row exists.
- Retry jitter: the delay here is the one computed before any jitter is added.
- Idempotence.TickIsIdempotentExactlyWhenNobodyIsPassedOver: runs with a workflow-level group, groups that runs share and waiting jobs about to take a group over are left to Unchanged.TickChangesNothingExactlyWhenAllIsQuiet, which holds of them too but speaks of the state the first Tick left, not of what it did.
- Schedulers.Scheduler.ApplyFailFast: walks the job keys in order of first appearance where the source walks a map in no fixed order; the keys' legs are disjoint, so only the order of the events differs.
- Stores.Store.Dequeue: claims some eligible row; the priority order among them is not modelled.
- Stores.Store.Enqueue: the row's own attempt number, priority and requeue count are not modelled.
- Stores.Store.ListJobsInConcurrencyGroup: lists in id order where the store's order is its own; in reachable states at most one of the jobs listed holds the group.
- Schedulers.Scheduler.Acquire: labels are matched by the store; the assignment returned to the runner is left out.
- Schedulers.Scheduler.Report: sealing the attempt's log and the retry hint in the response are left out.
- Planner.BuildPlan: the deviation notes and display names of a plan are left out, and a job's runner group with them.
- MatrixExpansion.ExpandMatrix: a matrix given whole as one expression is resolved before it gets here; NaN, infinities and integers beyond the 53 bits of a float are not modelled.
- TopoSorting.SortByDeclaration: stands for the library's stable sort.
- Uploads.ChunkedUpload.Commit: the digest is left out, and so are failed driver calls that leave bytes behind; a staged object's bytes are promised where the sort is stable or no chunk with bytes in it was replaced, beyond which they can be wrong.
- Uploads.ChunkedUpload.Abort: a failed clean-up is not modelled.
- LogStream.Attempt.Seal: takes the copy and the seal as one step, where a line appended between the two is lost in the source.
- LogStream.Subscriber.Step: says what a pump may do, not that it ever ends: after close it can wait for a wake-up already used.
- GroupFold.FoldGroups: a group joins its parent when it closes, or at the end, where the source pushes it when it opens and fills it in place; nothing else is pushed on the parent in between.
- Glob.CompileGlob: what a pattern with an empty class is taken for follows the text alone; named classes such as [:alpha:], which only such a text can spell, and the size limits of the regexp package are not modelled.
- Keyrings.Keyring.Rotate: saving succeeds and generated keys never repeat; the key material, PEM and JWK encodings are left out.
- Minting and parsing of session tokens, signatures, JWTs and signed URLs: they rest on cryptographic primitives.
- Log page cursors, the rollup's counters and summary sentence, drawing of the graph beyond depths, ANSI styles and formatting: presentation.
- Caches, artifacts, annotations, runners and their hosts, queue statistics: no scheduling decision depends on them.
