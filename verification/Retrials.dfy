/** What is retried, in every reachable state: a running attempt that its own runner reports as
    an infra failure, or whose setup ran out of time in a Tick, while the policy has an attempt
    left; and nothing else. A tick is followed from the rows it started with: no job starts to
    run within it, so a job found running at its turn has stood like that since. */
module Retrials {
  import opened Model
  import opened Retry
  import opened Entities
  import opened Steps
  import opened Invariants
  import opened Moves
  import opened Attempts
  import opened Sweeps
  import opened Admissions
  import opened EntryPoints
  import opened AuditLog
  import opened Unchanged
  import opened Safety

  /** The policy the job was planned with retries infra failures and has an attempt left. */
  ghost predicate AttemptLeft(w: World, j: Job) {
    exists pj :: PlannedAs(w, j, pj) && ClassInfra in pj.retry.on && j.infraRetryCount + 1 < pj.retry.attempts
  }

  /** The event opens the next attempt of a job that is running in w. */
  ghost predicate NextOfARunning(w: World, e: Event) {
    && e.jobID in w.jobs && w.jobs[e.jobID].status.InProgress?
    && e.attempt == w.jobs[e.jobID].attempt + 1 && AttemptLeft(w, w.jobs[e.jobID])
  }

  ghost predicate SetupRanOut(opts: Options, w: World, e: Event) {
    && NextOfARunning(w, e)
    && (var j := w.jobs[e.jobID];
        j.startedAt.Some? && j.setupCompletedAt.None? && e.at - j.startedAt.value > opts.setupTimeout)
  }

  /** Between the two states only setups that ran out were retried, and nobody began to run. */
  ghost predicate RetriesSetups(opts: Options, w: World, w': World) {
    && Grows(w, w') && w'.origin == w.origin
    && (forall id :: id in w'.jobs && w'.jobs[id].status.InProgress? ==> id in w.jobs && w.jobs[id] == w'.jobs[id])
    && (forall i :: |w.events| <= i < |w'.events| && w'.events[i].kind.Retried? ==> SetupRanOut(opts, w, w'.events[i]))
  }

  lemma RetriesReflexive(opts: Options, w: World)
    ensures RetriesSetups(opts, w, w)
  {
  }

  lemma RetriesTransitive(opts: Options, a: World, b: World, c: World)
    requires RetriesSetups(opts, a, b) && RetriesSetups(opts, b, c)
    ensures RetriesSetups(opts, a, c)
  {
    forall i | |a.events| <= i < |c.events| && c.events[i].kind.Retried? ensures SetupRanOut(opts, a, c.events[i]) {
      if i < |b.events| {
        assert c.events[i] == b.events[i];
      } else {
        assert SetupRanOut(opts, b, c.events[i]);
        SameOrigin(a, b, c.events[i]);
      }
    }
  }

  lemma SameOrigin(a: World, b: World, e: Event)
    requires b.origin == a.origin && NextOfARunning(b, e) && e.jobID in a.jobs && a.jobs[e.jobID] == b.jobs[e.jobID]
    ensures NextOfARunning(a, e)
  {
    var j := b.jobs[e.jobID];
    var pj :| PlannedAs(b, j, pj) && ClassInfra in pj.retry.on && j.infraRetryCount + 1 < pj.retry.attempts;
    assert PlannedAs(a, j, pj);
  }

  lemma TameRetriesNothing(opts: Options, w: World, w': World)
    requires Tame(w, w') && w'.origin == w.origin
    ensures RetriesSetups(opts, w, w')
  {
  }

  // ------------------------------------------------------------------ Timeouts

  /** What ending an attempt with a retry on offer logs. */
  lemma FinishRetries(w: World, pj: PlannedJob, j: Job, res: Result, now: int)
    requires res.Valid() && InStep(w, j) && j.status.InProgress? && PlannedAs(w, j, pj)
    ensures var f := FinishAttempt(w, Some(pj), j, res, now, true);
      && f.ok && Grows(w, f.w) && f.w.origin == w.origin
      && (forall id :: id in f.w.jobs && f.w.jobs[id].status.InProgress? ==> id in w.jobs && w.jobs[id] == f.w.jobs[id])
      && (forall i :: |w.events| <= i < |f.w.events| && f.w.events[i].kind.Retried? ==>
           && res.fault == ClassInfra && NextOfARunning(w, f.w.events[i])
           && f.w.events[i].jobID == j.id && f.w.events[i].at == now)
  {
    hide Grows, Conclude, RequeueForRetry, Noted, WithOutputs, PlannedAs, Tame;
    var noted, done := Noted(w, j, res, now), WithOutputs(j, res);
    FinishGrows(w, Some(pj), j, res, now, true);
    FinishSameRuns(w, Some(pj), j, res, now, true);
    NotedGrows(w, j, res, now);
    if res.fault == ClassInfra && Retries(pj.retry, ClassInfra, j.infraRetryCount + 1) {
      RequeueLogs(w, noted, pj, j, done, res, now);
    } else {
      ConcludeGrows(noted, done, res, now);
      TameTransitive(w, noted, Conclude(noted, done, res, now).w);
      TameMeans(w, Conclude(noted, done, res, now).w);
      FinishLogs(w, Some(pj), j, res, now, true);
    }
  }

  lemma TameMeans(w: World, w': World)
    requires Tame(w, w')
    ensures forall id :: id in w'.jobs && w'.jobs[id].status.InProgress? ==> id in w.jobs && w.jobs[id] == w'.jobs[id]
    ensures forall i :: |w.events| <= i < |w'.events| ==> !w'.events[i].kind.Retried?
  {
  }

  lemma NotedShape(w: World, j: Job, res: Result, now: int)
    ensures var noted := Noted(w, j, res, now);
      noted.jobs == w.jobs && noted.queue == w.queue && w.events <= noted.events
      && forall i :: |w.events| <= i < |noted.events| ==> !noted.events[i].kind.Retried?
    ensures var done := WithOutputs(j, res); done == j.(outputs := done.outputs)
  {
  }

  lemma NotedLog(w: World, j: Job, res: Result, now: int)
    ensures Noted(w, j, res, now).events == w.events + Classification(j, res, now)
  {
    if res.classReason == "" {
      assert w.events + [] == w.events;
    }
  }

  lemma RequeueLogs(w: World, noted: World, pj: PlannedJob, j: Job, done: Job, res: Result, now: int)
    requires noted == Noted(w, j, res, now) && done == WithOutputs(j, res) && InStep(w, j) && j.status.InProgress?
    requires PlannedAs(w, j, pj) && ClassInfra in pj.retry.on && j.infraRetryCount + 1 < pj.retry.attempts
    ensures var f := RequeueForRetry(noted, pj, done, now);
      && f.ok
      && (forall id :: id in f.w.jobs && f.w.jobs[id].status.InProgress? ==> id in w.jobs && w.jobs[id] == f.w.jobs[id])
      && (forall i :: |w.events| <= i < |f.w.events| && f.w.events[i].kind.Retried? ==>
           NextOfARunning(w, f.w.events[i]) && f.w.events[i].jobID == j.id && f.w.events[i].at == now)
  {
    hide PlannedAs, RequeueForRetry, Noted, WithOutputs;
    assert AttemptLeft(w, w.jobs[j.id]);
    hide AttemptLeft;
    NotedShape(w, j, res, now);
    RequeueShape(noted, pj, done, now);
    var f := RequeueForRetry(noted, pj, done, now);
    assert forall i :: 0 <= i < |noted.events| ==> f.w.events[i] == f.w.events[..|noted.events|][i];
  }

  lemma RequeueShape(w: World, pj: PlannedJob, j: Job, now: int)
    requires j.id in w.jobs
    ensures var f := RequeueForRetry(w, pj, j, now);
      && f.ok && f.w.jobs.Keys == w.jobs.Keys && f.w.jobs[j.id].status.Queued?
      && (forall id :: id in w.jobs && id != j.id ==> f.w.jobs[id] == w.jobs[id])
      && |f.w.events| == |w.events| + 1 && f.w.events[..|w.events|] == w.events
      && (var e := f.w.events[|w.events|]; e.kind.Retried? && e.jobID == j.id && e.attempt == j.attempt + 1 && e.at == now)
  {
    hide Delay;
  }

  lemma RequeuedRow(w: World, pj: PlannedJob, j: Job, now: int)
    requires j.id in w.jobs
    ensures var w' := RequeueForRetry(w, pj, j, now).w;
      && j.id in w'.jobs && w'.jobs[j.id].attempt == j.attempt + 1 && w'.jobs[j.id].status.Queued?
      && w'.jobs[j.id].infraRetryCount == j.infraRetryCount + 1 && j.id in w'.queue && !w'.queue[j.id].leased
      && j.id !in w'.stepTimeouts
      && (forall other :: other in w.jobs && other != j.id ==> other in w'.jobs && w'.jobs[other] == w.jobs[other])
  {
    hide Delay;
  }

  lemma ConcludedRow(w: World, j: Job, res: Result, now: int)
    ensures var w' := Conclude(w, j, res, now).w;
      && j.id in w'.jobs && w'.jobs[j.id] == AsReported(j, res.(outputs := None), now) && j.id !in w'.queue
      && j.id !in w'.stepTimeouts
      && w'.events == w.events + [Event(EndOf(res), j.runID, j.id, j.attempt, now, 0)]
      && (forall other :: other in w.jobs && other != j.id ==> other in w'.jobs && w'.jobs[other] == w.jobs[other])
  {
  }

  lemma OutputsAreTaken(j: Job, res: Result, now: int)
    ensures WithOutputs(j, res).id == j.id && WithOutputs(j, res).runID == j.runID && WithOutputs(j, res).attempt == j.attempt
    ensures AsReported(WithOutputs(j, res), res.(outputs := None), now) == AsReported(j, res, now)
    ensures WithOutputs(j, res).infraRetryCount == j.infraRetryCount
  {
  }

  lemma TimeoutRetries(opts: Options, w: World, j: Job, now: int)
    requires Structure(w) && InStep(w, j)
    ensures RetriesSetups(opts, w, EnforceJobTimeout(opts, w, j, now).w)
  {
    hide Structure, StopJob, SomeStepOverdue, JobBudget, Find, Tame, Grows, PlannedAs, NextOfARunning;
    RetriesReflexive(opts, w);
    var pj := if j.runID in w.plans then Find(w.plans[j.runID].jobs, j.key, j.matrixKey) else None;
    LookupIsThePlan(w, j);
    StopGrows(w, None, j, Because(ActorTimeout), TimedOut, ClassUser, now, false);
    StopSameRuns(w, None, j, Because(ActorTimeout), TimedOut, ClassUser, now, false);
    var plain := StopJob(w, None, j, Because(ActorTimeout), TimedOut, ClassUser, now, false);
    TameRetriesNothing(opts, w, plain.w);
    if pj.Some? && j.status.InProgress? {
      FinishRetries(w, pj.value, j, Imposed(InfraFailure, ClassInfra, Because(ActorTimeout)), now);
      StopIsFinish(w, pj, j, InfraFailure, ClassInfra, now, true);
    }
  }

  lemma {:induction false} TimeoutsRetry(opts: Options, w: World, jobs: seq<Job>, i: nat, now: int, r: int)
    requires Inv(w) && Exact(w, jobs, r)
    ensures RetriesSetups(opts, w, TimeoutsFrom(opts, w, jobs, i, now).w)
    decreases |jobs| - i
  {
    hide Inv, Structure, EnforceJobTimeout, Snapshot, Updates, RetriesSetups;
    RetriesReflexive(opts, w);
    if i < |jobs| {
      InvHasStructure(w);
      assert InStep(w, jobs[i]);
      TimeoutRetries(opts, w, jobs[i], now);
      TimeoutKeepsInv(opts, w, jobs[i], now);
      var f := EnforceJobTimeout(opts, w, jobs[i], now);
      if f.ok {
        EnforceSameId(opts, w, jobs[i], now);
        if f.w == w && f.job == jobs[i] {
          assert jobs[i := f.job] == jobs;
        } else {
          SnapshotMoves(w, f.w, jobs, i, f.job, r);
        }
        TimeoutsRetry(opts, f.w, jobs[i := f.job], i + 1, now, r);
        RetriesTransitive(opts, w, f.w, TimeoutsFrom(opts, w, jobs, i, now).w);
      }
    }
  }

  // ---------------------------------------------------------------------- Tick

  lemma RunTimeoutRetriesNothing(opts: Options, w: World, run: Run, jobs: seq<Job>, now: int)
    ensures RetriesSetups(opts, w, EnforceRunTimeout(opts, w, run, jobs, now).w)
  {
    hide StopFrom, Tame, Conclusions, RunOverdue;
    RunTimeoutGrows(opts, w, run, jobs, now);
    StopFromSameRuns(w, jobs, 0, Because(ActorTimeout), TimedOut, ClassUser, now);
    TameRetriesNothing(opts, w, EnforceRunTimeout(opts, w, run, jobs, now).w);
  }

  lemma FinalizeRetriesNothing(opts: Options, w: World, run: Run, jobs: seq<Job>, now: int)
    ensures RetriesSetups(opts, w, FinalizeIfComplete(w, run, jobs, now).w)
  {
    hide Tame, Conclusions;
    FinalizeGrows(w, run, jobs, now);
    TameRetriesNothing(opts, w, FinalizeIfComplete(w, run, jobs, now).w);
  }

  lemma TickRunRetries(opts: Options, w: World, r: int, now: int)
    requires Inv(w)
    ensures RetriesSetups(opts, w, TickRun(opts, w, r, now).w)
  {
    hide Inv, Structure, Snapshot, Exact, RetriesSetups, EnforceRunTimeout, TimeoutsFrom, FailFastFrom, AdmitReadyJobs,
      FinalizeIfComplete, KeysOf, JobsOf, VerdictHonest, Tame;
    RetriesReflexive(opts, w);
    ForgettingGrows(w, r);
    TameRetriesNothing(opts, w, ForgetPlan(w, r));
    if r in w.runs && !w.runs[r].status.Completed? && r in w.plans {
      InvHasStructure(w);
      RunFacts(w, r);
      ListingIsExact(w, r);
      var run, p, jobs := w.runs[r], w.plans[r], JobsOf(w, r);
      var s := EnforceRunTimeout(opts, w, run, jobs, now);
      RunTimeoutRetriesNothing(opts, w, run, jobs, now);
      RunTimeoutKeepsInv(opts, w, run, jobs, now);
      if !s.run.status.Completed? {
        var t := TimeoutsFrom(opts, w, jobs, 0, now);
        TimeoutsRetry(opts, w, jobs, 0, now, r);
        var f := FailFastFrom(t.w, p, t.jobs, KeysOf(t.jobs), now);
        FailFastGrows(t.w, p, t.jobs, KeysOf(t.jobs), now);
        FailFastSameRuns(t.w, p, t.jobs, KeysOf(t.jobs), now);
        TameRetriesNothing(opts, t.w, f.w);
        RetriesTransitive(opts, w, t.w, f.w);
        var a := AdmitReadyJobs(opts, f.w, run, p, f.jobs, now);
        AdmissionGrows(opts, f.w, run, p, f.jobs, now);
        AdmissionSameRuns(opts, f.w, run, p, f.jobs, now);
        TameRetriesNothing(opts, f.w, a.w);
        RetriesTransitive(opts, w, f.w, a.w);
        FinalizeRetriesNothing(opts, a.w, run, a.jobs, now);
        RetriesTransitive(opts, w, a.w, FinalizeIfComplete(a.w, run, a.jobs, now).w);
      }
    }
  }

  lemma {:induction false} TickRunsRetry(opts: Options, w: World, ids: seq<int>, now: int)
    requires Inv(w)
    ensures RetriesSetups(opts, w, TickRuns(opts, w, ids, now).w)
    decreases |ids|
  {
    hide Inv, TickRun, RetriesSetups;
    RetriesReflexive(opts, w);
    if ids != [] {
      var t := TickRun(opts, w, ids[0], now);
      TickRunRetries(opts, w, ids[0], now);
      TickRunKeepsInv(opts, w, ids[0], now);
      TickRunsRetry(opts, t.w, ids[1..], now);
      RetriesTransitive(opts, w, t.w, TickRuns(opts, t.w, ids[1..], now).w);
    }
  }

  lemma TickRetries(opts: Options, w: World, now: int)
    requires Inv(w)
    ensures RetriesSetups(opts, w, Tick(opts, w, now).w)
  {
    hide Inv, TickRuns, ReapEach, RetriesSetups, ReapedBelow, Tame, TrackedBelow;
    RetriesReflexive(opts, w);
    if now != 0 {
      var dropped, reaped := DropExpiredLeases(w, now), ReapExpiredLeases(w, now);
      ReapKeepsInv(w, now);
      ReapEachGrows(dropped, ReapedBelow(w, w.nextJob, now), now);
      DroppingIsTame(w, now);
      TameTransitive(w, dropped, reaped);
      TameRetriesNothing(opts, w, reaped);
      TickRunsRetry(opts, reaped, TrackedRuns(reaped), now);
      RetriesTransitive(opts, w, reaped, TickRuns(opts, reaped, TrackedRuns(reaped), now).w);
    }
  }

  lemma DroppingIsTame(w: World, now: int)
    ensures Tame(w, DropExpiredLeases(w, now))
  {
  }

  // ------------------------------------------------------------------- Reports

  lemma ReportRetries(opts: Options, w: World, runner: string, id: int, attempt: int, res: Result, now: int, i: nat)
    requires Reachable(opts, w)
    requires var w' := Report(w, runner, id, attempt, res, now).w; |w.events| <= i < |w'.events| && w'.events[i].kind.Retried?
    ensures var e := Report(w, runner, id, attempt, res, now).w.events[i];
      && NextOfARunning(w, e) && e.jobID == id && res.fault == ClassInfra
      && Leases(w, runner, id) && (attempt == 0 || attempt == w.jobs[id].attempt)
  {
    hide Reachable, Inv, Structure, FinishAttempt, RetryBound, Find, PlannedAs, NextOfARunning, Grows;
    ReachableIsSafe(opts, w);
    InvHasStructure(w);
    OnlyTheLeaseHolderReports(opts, w, runner, id, attempt, res, now);
    JobFacts(w, id);
    var j := w.jobs[id];
    LookupIsThePlan(w, j);
    var pj := if j.runID in w.plans then Find(w.plans[j.runID].jobs, j.key, j.matrixKey) else None;
    FinishRetries(w, pj.value, j, res, now) by {
      InvalidReportsChangeNothing(w, pj, j, res, now);
    }
  }

  lemma InvalidReportsChangeNothing(w: World, pj: Option<PlannedJob>, j: Job, res: Result, now: int)
    ensures !res.Valid() ==> FinishAttempt(w, pj, j, res, now, true).w == w
  {
  }

  /** Whatever the step, if it logs a retry then of an attempt that was running, with one left by
      its policy; and either the runner that holds its lease reported an infra failure, or a
      Tick found its setup out of time. */
  lemma RetriedOnlyWhenInfraAndAllowed(opts: Options, w: World, a: Action, i: nat)
    requires Reachable(opts, w)
    requires |w.events| <= i < |Apply(opts, w, a).events| && Apply(opts, w, a).events[i].kind.Retried?
    ensures var e := Apply(opts, w, a).events[i];
      && NextOfARunning(w, e)
      && (|| (a.ActReport? && a.id == e.jobID && a.res.fault == ClassInfra && Leases(w, a.runner, a.id)
              && (a.attempt == 0 || a.attempt == w.jobs[a.id].attempt))
          || (a.ActTick? && SetupRanOut(opts, w, e)))
  {
    hide Reachable, Inv, StartRun, Approve, Tick, Acquire, Report, CancelRun, CancelJob, Rerun, NextOfARunning, SetupRanOut;
    ReachableIsSafe(opts, w);
    match a {
      case ActStartRun(runID, plan) =>
        if runID in w.runs {
          StartRunGrows(opts, w, w.runs[runID], plan);
        }
      case ActApprove(runID, actor, now) => ApproveGrows(w, runID, actor, now);
      case ActTick(now) => TickRetries(opts, w, now);
        assert SetupRanOut(opts, w, Tick(opts, w, now).w.events[i]);
        RanOutWasRunning(opts, w, Tick(opts, w, now).w.events[i]);
      case ActAcquire(runner, labels, id, now, built, budgets) => AcquireGrows(opts, w, runner, labels, id, now, built, budgets);
      case ActReport(runner, id, attempt, res, now) => ReportRetries(opts, w, runner, id, attempt, res, now, i);
      case ActCancelRun(runID, reason, now) => CancelRunGrows(w, runID, reason, now);
      case ActCancelJob(id, reason, now) => CancelJobGrows(w, id, reason, now);
      case ActRerun(runID, actor, sel, now) => RerunGrows(w, runID, actor, sel, now);
      case _ =>
    }
  }

  lemma RanOutWasRunning(opts: Options, w: World, e: Event)
    requires SetupRanOut(opts, w, e)
    ensures NextOfARunning(w, e)
  {
  }

  /** The row of a job that ends as its runner says. */
  function AsReported(j: Job, res: Result, now: int): Job {
    j.(status := Completed, conclusion := res.conclusion, fault := res.fault, cancel := res.cancel, completedAt := Some(now),
       runnerID := "", leaseExpiresAt := None, outputs := if res.outputs.Some? then res.outputs.value else j.outputs)
  }

  /** The word of the classifier, where it has one. */
  function Classification(j: Job, res: Result, now: int): seq<Event> {
    if res.classReason == "" then [] else [Event(Classified, j.runID, j.id, j.attempt, now, 0)]
  }

  /** What the log calls the end of an attempt. */
  function EndOf(res: Result): EventKind {
    if res.conclusion == Skipped then JobSkipped else if res.cancel != None then JobCancelled else JobCompleted
  }

  /** A valid report by the runner that holds the lease opens the next attempt exactly when it
      is an infra failure and the policy has an attempt left; otherwise the job concludes as
      reported. */
  lemma ReportIsRetriedExactlyWhenInfraAndAllowed(opts: Options, w: World, runner: string, id: int, attempt: int, res: Result,
                                                  now: int)
    requires Reachable(opts, w) && Leases(w, runner, id) && runner != "" && w.jobs[id].runID in w.plans
    requires (attempt == 0 || attempt == w.jobs[id].attempt) && res.Valid()
    ensures var r := Report(w, runner, id, attempt, res, now); var j := w.jobs[id];
      && r.ok && id in r.w.jobs
      && (if res.fault == ClassInfra && AttemptLeft(w, j)
          then r.w.jobs[id].attempt == j.attempt + 1 && r.w.jobs[id].status.Queued?
               && r.w.jobs[id].infraRetryCount == j.infraRetryCount + 1 && id in r.w.queue && !r.w.queue[id].leased
          else r.w.jobs[id] == AsReported(j, res, now) && id !in r.w.queue
               && r.w.events == w.events + Classification(j, res, now) + [Event(EndOf(res), j.runID, id, j.attempt, now, 0)])
      && id !in r.w.stepTimeouts
      && (forall other :: other in w.jobs && other != id ==> other in r.w.jobs && r.w.jobs[other] == w.jobs[other])
  {
    hide Reachable, Inv, Structure, RetryBound, PlannedAs, Find, FinishAttempt, RowsAgree, AttemptLeft, AsReported;
    ReachableIsSafe(opts, w);
    InvHasStructure(w);
    JobFacts(w, id);
    var j := w.jobs[id];
    LeaseIsHeld(w, runner, id);
    PlanOfTheJob(w, id);
    var pj := Find(w.plans[j.runID].jobs, j.key, j.matrixKey);
    assert Report(w, runner, id, attempt, res, now)
        == Outcome(FinishAttempt(w, pj, j, res, now, true).w, FinishAttempt(w, pj, j, res, now, true).ok);
    LeftMeansRetries(w, j, pj.value);
    FinishedRow(w, pj.value, j, res, now);
  }

  lemma LeaseIsHeld(w: World, runner: string, id: int)
    requires Leases(w, runner, id) && RowsAgree(w.jobs[id], w.queue) && w.jobs[id].id == id
    ensures w.jobs[id].runnerID == runner && w.jobs[id].status.InProgress?
  {
  }

  lemma FinishedRow(w: World, pj: PlannedJob, j: Job, res: Result, now: int)
    requires res.Valid() && InStep(w, j)
    ensures var f := FinishAttempt(w, Some(pj), j, res, now, true); var id := j.id;
      && f.ok && id in f.w.jobs
      && (if res.fault == ClassInfra && Retries(pj.retry, ClassInfra, j.infraRetryCount + 1)
          then f.w.jobs[id].attempt == j.attempt + 1 && f.w.jobs[id].status.Queued?
               && f.w.jobs[id].infraRetryCount == j.infraRetryCount + 1 && id in f.w.queue && !f.w.queue[id].leased
          else f.w.jobs[id] == AsReported(j, res, now) && id !in f.w.queue
               && f.w.events == w.events + Classification(j, res, now) + [Event(EndOf(res), j.runID, id, j.attempt, now, 0)])
      && id !in f.w.stepTimeouts
      && (forall other :: other in w.jobs && other != id ==> other in f.w.jobs && f.w.jobs[other] == w.jobs[other])
  {
    hide Retries, Conclude, RequeueForRetry, Noted, WithOutputs;
    NotedShape(w, j, res, now);
    NotedLog(w, j, res, now);
    FinishLogs(w, Some(pj), j, res, now, true);
    RequeuedRow(Noted(w, j, res, now), pj, WithOutputs(j, res), now);
    ConcludedRow(Noted(w, j, res, now), WithOutputs(j, res), res, now);
    OutputsAreTaken(j, res, now);
    hide AsReported, EndOf, Classification;
  }

  lemma PlanOfTheJob(w: World, id: int)
    requires Structure(w) && id in w.jobs && w.jobs[id].runID in w.plans
    ensures var j := w.jobs[id]; var pj := Find(w.plans[j.runID].jobs, j.key, j.matrixKey);
      pj.Some? && PlannedAs(w, j, pj.value)
  {
    var own :| PlannedAs(w, w.jobs[id], own) && w.jobs[id].needs == own.needs;
  }

  lemma LeftMeansRetries(w: World, j: Job, pj: PlannedJob)
    requires PlannedAs(w, j, pj)
    ensures AttemptLeft(w, j) <==> Retries(pj.retry, ClassInfra, j.infraRetryCount + 1)
  {
  }
}
