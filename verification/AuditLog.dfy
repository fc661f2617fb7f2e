/** The audit log is never rewritten: every entry point only appends to it. What the histories
    say of it is therefore said of everything that ever happened. The proof goes through every
    step function once, from the single append up to whole entry points; on the way it notes
    which steps never log a retry and leave running jobs as they are. */
module AuditLog {
  import opened Model
  import opened Retry
  import opened Entities
  import opened Steps

  predicate Grows(w: World, w': World) {
    w.events <= w'.events
  }

  /** Only appends, and no retry among what is appended. */
  ghost predicate LogsNoRetry(w: World, w': World) {
    Grows(w, w') && forall i :: |w.events| <= i < |w'.events| ==> !w'.events[i].kind.Retried?
  }

  /** No retry is logged, and a job that runs afterwards ran before, in the same row. */
  ghost predicate Tame(w: World, w': World) {
    && LogsNoRetry(w, w')
    && (forall id :: id in w'.jobs && w'.jobs[id].status.InProgress? ==> id in w.jobs && w.jobs[id] == w'.jobs[id])
  }

  lemma TameTransitive(a: World, b: World, c: World)
    requires Tame(a, b) && Tame(b, c)
    ensures Tame(a, c)
  {
    forall i | |a.events| <= i < |c.events| ensures !c.events[i].kind.Retried? {
      if i < |b.events| {
        assert c.events[i] == b.events[i];
      }
    }
  }

  lemma TameReflexive(w: World)
    ensures Tame(w, w)
  {
  }

  lemma TameGrows(w: World, w': World)
    requires Tame(w, w')
    ensures Grows(w, w')
  {
  }

  lemma GrowsTransitive(a: World, b: World, c: World)
    requires Grows(a, b) && Grows(b, c)
    ensures Grows(a, c)
  {
  }

  lemma ConcludeGrows(w: World, j: Job, res: Result, now: int)
    ensures Tame(w, Conclude(w, j, res, now).w)
  {
  }

  lemma RetryGrows(w: World, pj: PlannedJob, j: Job, now: int)
    ensures Grows(w, RequeueForRetry(w, pj, j, now).w)
  {
    hide Delay, NextAttempt;
  }

  lemma NotedGrows(w: World, j: Job, res: Result, now: int)
    ensures Tame(w, Noted(w, j, res, now))
  {
  }

  lemma FinishGrows(w: World, pj: Option<PlannedJob>, j: Job, res: Result, now: int, allowRetry: bool)
    ensures Grows(w, FinishAttempt(w, pj, j, res, now, allowRetry).w)
    ensures !allowRetry ==> Tame(w, FinishAttempt(w, pj, j, res, now, allowRetry).w)
  {
    hide Grows, Tame, Retries, Conclude, RequeueForRetry, Noted, WithOutputs;
    GrowsReflexive(w);
    TameReflexive(w);
    var noted, done := Noted(w, j, res, now), WithOutputs(j, res);
    NotedGrows(w, j, res, now);
    ConcludeGrows(noted, done, res, now);
    TameTransitive(w, noted, Conclude(noted, done, res, now).w);
    TameGrows(w, Conclude(noted, done, res, now).w);
    if pj.Some? {
      RetryGrows(noted, pj.value, done, now);
      TameGrows(w, noted);
      GrowsTransitive(w, noted, RequeueForRetry(noted, pj.value, done, now).w);
    }
  }

  lemma StopGrows(w: World, pj: Option<PlannedJob>, j: Job, reason: CancelReason, conclusion: Conclusion,
                  fault: FailureClass, now: int, allowRetry: bool)
    ensures Grows(w, StopJob(w, pj, j, reason, conclusion, fault, now, allowRetry).w)
    ensures !allowRetry ==> Tame(w, StopJob(w, pj, j, reason, conclusion, fault, now, allowRetry).w)
  {
    hide FinishAttempt, Grows, Tame;
    FinishGrows(w, pj, j, Imposed(conclusion, fault, reason), now, allowRetry);
    GrowsReflexive(w);
    TameReflexive(w);
  }

  lemma GrowsReflexive(w: World)
    ensures Grows(w, w)
  {
  }

  lemma {:induction false} StopFromGrows(w: World, jobs: seq<Job>, i: nat, reason: CancelReason, conclusion: Conclusion,
                                         fault: FailureClass, now: int)
    ensures Tame(w, StopFrom(w, jobs, i, reason, conclusion, fault, now).0)
    decreases |jobs| - i
  {
    hide Tame, StopJob;
    TameReflexive(w);
    if i < |jobs| {
      if jobs[i].status.Completed? {
        StopFromGrows(w, jobs, i + 1, reason, conclusion, fault, now);
      } else {
        var f := StopJob(w, None, jobs[i], reason, conclusion, fault, now, false);
        StopGrows(w, None, jobs[i], reason, conclusion, fault, now, false);
        if f.ok {
          StopFromGrows(f.w, jobs[i := f.job], i + 1, reason, conclusion, fault, now);
          TameTransitive(w, f.w, StopFrom(f.w, jobs[i := f.job], i + 1, reason, conclusion, fault, now).0);
        }
      }
    }
  }

  lemma FinalizeGrows(w: World, run: Run, jobs: seq<Job>, now: int)
    ensures Tame(w, FinalizeIfComplete(w, run, jobs, now).w)
  {
    hide Conclusions, Aggregate;
  }

  lemma CancelRunGrows(w: World, r: int, reason: CancelReason, now: int)
    ensures Tame(w, CancelRun(w, r, reason, now).w)
  {
    hide Tame, StopFrom, FinalizeIfComplete, JobsOf;
    TameReflexive(w);
    if reason.Valid() && r in w.runs {
      var s := StopFrom(w, JobsOf(w, r), 0, reason, Cancelled, ClassNone, now);
      StopFromGrows(w, JobsOf(w, r), 0, reason, Cancelled, ClassNone, now);
      var run := w.runs[r].(cancel := Some(reason));
      FinalizeGrows(s.0, run, s.1, now);
      TameTransitive(w, s.0, FinalizeIfComplete(s.0, run, s.1, now).w);
    }
  }

  // -------------------------------------------------------------- Starting

  lemma {:induction false} SupersedeGrows(w: World, run: Run, p: Plan, others: seq<int>, now: int)
    ensures Tame(w, SupersedeFrom(w, run, p, others, now).w)
    decreases |others|
  {
    hide Tame, CancelRun;
    TameReflexive(w);
    if others != [] {
      SupersedeGrows(w, run, p, others[1..], now);
      var c := CancelRun(w, others[0], Because(ActorSupersededByRun), now);
      CancelRunGrows(w, others[0], Because(ActorSupersededByRun), now);
      SupersedeGrows(c.w, run, p, others[1..], now);
      TameTransitive(w, c.w, SupersedeFrom(c.w, run, p, others[1..], now).w);
    }
  }

  lemma {:induction false} CreateJobsLogsNothing(w: World, run: Run, jobs: seq<PlannedJob>, held: bool)
    ensures CreateJobs(w, run, jobs, held).events == w.events
    decreases |jobs|
  {
    if jobs != [] {
      var j := NewJob(w.nextJob, run, jobs[0], held);
      CreateJobsLogsNothing(w.(jobs := w.jobs[j.id := j], nextJob := w.nextJob + 1), run, jobs[1..], held);
    }
  }

  lemma StartRunGrows(opts: Options, w: World, run: Run, p: Plan)
    ensures LogsNoRetry(w, StartRun(opts, w, run, p).w)
  {
    hide SupersedeFrom, CreateJobs;
    if p.jobs != [] && run.createdAt != 0 {
      var s := SupersedeOlderRuns(w, run, p, run.createdAt);
      SupersedeGrows(w, run, p, TrackedRuns(w), run.createdAt);
      CreateJobsLogsNothing(s.w, run, p.jobs, run.forkPR && opts.requireForkApproval && !run.approved);
    }
  }

  lemma {:induction false} ApproveLogsNothing(w: World, jobs: seq<Job>, i: nat)
    ensures ApproveFrom(w, jobs, i).events == w.events
    decreases |jobs| - i
  {
    if i < |jobs| {
      ApproveLogsNothing(w, jobs, i + 1);
      ApproveLogsNothing(PutJob(w, jobs[i].(awaitingApproval := false, status := Queued)), jobs, i + 1);
    }
  }

  lemma ApproveGrows(w: World, r: int, actor: string, now: int)
    ensures LogsNoRetry(w, Approve(w, r, actor, now).w)
  {
    hide ApproveFrom, JobsOf;
    if r in w.runs {
      var put := PutRun(w, w.runs[r].(approved := true));
      ApproveLogsNothing(put, JobsOf(put, r), 0);
    }
  }

  // ------------------------------------------------------------- Admission

  lemma {:induction false} DisplaceGrows(w: World, holders: seq<Job>, now: int)
    ensures Tame(w, DisplaceAll(w, holders, now))
    decreases |holders|
  {
    hide Tame, StopJob;
    TameReflexive(w);
    if holders != [] {
      var f := StopJob(w, None, holders[0], Because(ActorConcurrencyGroup), Cancelled, ClassNone, now, false);
      StopGrows(w, None, holders[0], Because(ActorConcurrencyGroup), Cancelled, ClassNone, now, false);
      DisplaceGrows(f.w, holders[1..], now);
      TameTransitive(w, f.w, DisplaceAll(f.w, holders[1..], now));
    }
  }

  lemma GroupGrows(w: World, j: Job, pj: PlannedJob, taken: set<string>, now: int)
    ensures Tame(w, AdmitToGroup(w, j, pj, taken, now).w)
  {
    hide DisplaceAll, HoldersOf, LiveBelow;
    DisplaceGrows(w, HoldersOf(LiveBelow(w.jobs, w.nextJob, j.group), j.id), now);
  }

  lemma QueueGrows(w: World, j: Job, now: int)
    ensures Tame(w, AdmitToQueue(w, j, now).w)
  {
  }

  lemma PlaceGrows(i: nat, pj: PlannedJob, a: Admission, now: int)
    requires i < |a.jobs|
    ensures Tame(a.w, Place(i, pj, a, now).w)
  {
    hide Tame, AdmitToGroup, AdmitToQueue;
    TameReflexive(a.w);
    var g := AdmitToGroup(a.w, a.jobs[i], pj, a.taken, now);
    GroupGrows(a.w, a.jobs[i], pj, a.taken, now);
    QueueGrows(g.w, g.job, now);
    TameTransitive(a.w, g.w, AdmitToQueue(g.w, g.job, now).w);
  }

  lemma AdmitOneGrows(opts: Options, run: Run, p: Plan, i: nat, a: Admission, now: int)
    requires i < |a.jobs|
    ensures Tame(a.w, AdmitOne(opts, run, p, i, a, now).w)
  {
    hide Tame, Place, FinishAttempt, ComputeNeeds, ShouldRun, Find;
    TameReflexive(a.w);
    var found := Find(p.jobs, a.jobs[i].key, a.jobs[i].matrixKey);
    if found.Some? {
      PlaceGrows(i, found.value, a, now);
      FinishGrows(a.w, found, a.jobs[i], SkipResult, now, false);
    }
  }

  lemma {:induction false} AdmitFromGrows(opts: Options, run: Run, p: Plan, i: nat, a: Admission, now: int)
    ensures Tame(a.w, AdmitFrom(opts, run, p, i, a, now).w)
    decreases |a.jobs| - i
  {
    hide Tame, AdmitOne;
    TameReflexive(a.w);
    if i < |a.jobs| {
      var next := AdmitOne(opts, run, p, i, a, now);
      AdmitOneGrows(opts, run, p, i, a, now);
      if next.ok {
        AdmitFromGrows(opts, run, p, i + 1, next, now);
        TameTransitive(a.w, next.w, AdmitFrom(opts, run, p, i + 1, next, now).w);
      }
    }
  }

  // ------------------------------------------------------------------ Tick

  lemma TimeoutGrows(opts: Options, w: World, j: Job, now: int)
    ensures Grows(w, EnforceJobTimeout(opts, w, j, now).w)
  {
    hide Grows, StopJob, SomeStepOverdue, Find;
    GrowsReflexive(w);
    var pj := if j.runID in w.plans then Find(w.plans[j.runID].jobs, j.key, j.matrixKey) else None;
    StopGrows(w, pj, j, Because(ActorTimeout), InfraFailure, ClassInfra, now, true);
    StopGrows(w, None, j, Because(ActorTimeout), TimedOut, ClassUser, now, false);
  }

  lemma {:induction false} TimeoutsGrow(opts: Options, w: World, jobs: seq<Job>, i: nat, now: int)
    ensures Grows(w, TimeoutsFrom(opts, w, jobs, i, now).w)
    decreases |jobs| - i
  {
    hide Grows, EnforceJobTimeout;
    GrowsReflexive(w);
    if i < |jobs| {
      var f := EnforceJobTimeout(opts, w, jobs[i], now);
      TimeoutGrows(opts, w, jobs[i], now);
      if f.ok {
        TimeoutsGrow(opts, f.w, jobs[i := f.job], i + 1, now);
        GrowsTransitive(w, f.w, TimeoutsFrom(opts, f.w, jobs[i := f.job], i + 1, now).w);
      }
    }
  }

  lemma {:induction false} CancelLegsGrows(w: World, jobs: seq<Job>, key: string, k: nat, now: int)
    ensures Tame(w, CancelLegsFrom(w, jobs, key, k, now).w)
    decreases |jobs| - k
  {
    hide Tame, StopJob;
    TameReflexive(w);
    if k < |jobs| {
      if jobs[k].key != key || jobs[k].status.Completed? {
        CancelLegsGrows(w, jobs, key, k + 1, now);
      } else {
        var f := StopJob(w, None, jobs[k], Because(ActorDependencyFailed), Cancelled, ClassNone, now, false);
        StopGrows(w, None, jobs[k], Because(ActorDependencyFailed), Cancelled, ClassNone, now, false);
        CancelLegsGrows(f.w, jobs[k := f.job], key, k + 1, now);
        TameTransitive(w, f.w, CancelLegsFrom(f.w, jobs[k := f.job], key, k + 1, now).w);
      }
    }
  }

  lemma {:induction false} FailFastGrows(w: World, p: Plan, jobs: seq<Job>, keys: seq<string>, now: int)
    ensures Tame(w, FailFastFrom(w, p, jobs, keys, now).w)
    decreases |keys|
  {
    hide Tame, CancelLegsFrom, FailsFast;
    TameReflexive(w);
    if keys != [] {
      if !FailsFast(p, jobs, keys[0]) {
        FailFastGrows(w, p, jobs, keys[1..], now);
      } else {
        var s := CancelLegsFrom(w, jobs, keys[0], 0, now);
        CancelLegsGrows(w, jobs, keys[0], 0, now);
        FailFastGrows(s.w, p, s.jobs, keys[1..], now);
        TameTransitive(w, s.w, FailFastFrom(s.w, p, s.jobs, keys[1..], now).w);
      }
    }
  }

  lemma RunTimeoutGrows(opts: Options, w: World, run: Run, jobs: seq<Job>, now: int)
    ensures Tame(w, EnforceRunTimeout(opts, w, run, jobs, now).w)
  {
    hide Tame, StopFrom, FinalizeIfComplete;
    TameReflexive(w);
    var s := StopFrom(w, jobs, 0, Because(ActorTimeout), TimedOut, ClassUser, now);
    StopFromGrows(w, jobs, 0, Because(ActorTimeout), TimedOut, ClassUser, now);
    var ended := run.(cancel := Some(Because(ActorTimeout)));
    FinalizeGrows(s.0, ended, s.1, now);
    TameTransitive(w, s.0, FinalizeIfComplete(s.0, ended, s.1, now).w);
  }

  lemma AdmissionGrows(opts: Options, w: World, run: Run, p: Plan, jobs: seq<Job>, now: int)
    ensures Tame(w, AdmitReadyJobs(opts, w, run, p, jobs, now).w)
  {
    hide Tame, AdmitFrom, RunGroupBlocked, CountInFlight;
    TameReflexive(w);
    AdmitFromGrows(opts, run, p, 0, Admission(w, jobs, CountInFlight(jobs), {}, true), now);
  }

  lemma TickRunGrows(opts: Options, w: World, r: int, now: int)
    ensures Grows(w, TickRun(opts, w, r, now).w)
  {
    hide Grows, EnforceRunTimeout, TimeoutsFrom, FailFastFrom, AdmitReadyJobs, FinalizeIfComplete, KeysOf, JobsOf;
    GrowsReflexive(w);
    ForgettingGrows(w, r);
    if r in w.runs && r in w.plans {
      var run, p, jobs := w.runs[r], w.plans[r], JobsOf(w, r);
      var s := EnforceRunTimeout(opts, w, run, jobs, now);
      RunTimeoutGrows(opts, w, run, jobs, now);
      var t := TimeoutsFrom(opts, s.w, s.jobs, 0, now);
      TimeoutsGrow(opts, s.w, s.jobs, 0, now);
      GrowsTransitive(w, s.w, t.w);
      var f := FailFastFrom(t.w, p, t.jobs, KeysOf(t.jobs), now);
      FailFastGrows(t.w, p, t.jobs, KeysOf(t.jobs), now);
      GrowsTransitive(w, t.w, f.w);
      var a := AdmitReadyJobs(opts, f.w, s.run, p, f.jobs, now);
      AdmissionGrows(opts, f.w, s.run, p, f.jobs, now);
      GrowsTransitive(w, f.w, a.w);
      FinalizeGrows(a.w, s.run, a.jobs, now);
      GrowsTransitive(w, a.w, FinalizeIfComplete(a.w, s.run, a.jobs, now).w);
    }
  }

  lemma ForgettingGrows(w: World, r: int)
    ensures Tame(w, ForgetPlan(w, r))
  {
  }

  lemma {:induction false} TickRunsGrow(opts: Options, w: World, ids: seq<int>, now: int)
    ensures Grows(w, TickRuns(opts, w, ids, now).w)
    decreases |ids|
  {
    hide Grows, TickRun;
    GrowsReflexive(w);
    if ids != [] {
      var t := TickRun(opts, w, ids[0], now);
      TickRunGrows(opts, w, ids[0], now);
      TickRunsGrow(opts, t.w, ids[1..], now);
      GrowsTransitive(w, t.w, TickRuns(opts, t.w, ids[1..], now).w);
    }
  }

  lemma ReapEachStep(w: World, j: Job, now: int)
    ensures var next := NextAttempt(j, now);
      var put := ForgetStepTimeouts(PutJob(w, next), j.id);
      Tame(w, Emit(Enqueue(put, next, now, None), JobEvent(Requeued, next, now)))
  {
  }

  lemma {:induction false} ReapEachGrows(w: World, reaped: seq<Job>, now: int)
    ensures Tame(w, ReapEach(w, reaped, now))
    decreases |reaped|
  {
    hide Tame, NextAttempt, Enqueue;
    TameReflexive(w);
    if reaped != [] {
      var next := NextAttempt(reaped[0], now);
      var put := ForgetStepTimeouts(PutJob(w, next), reaped[0].id);
      ReapEachStep(w, reaped[0], now);
      var one := Emit(Enqueue(put, next, now, None), JobEvent(Requeued, next, now));
      ReapEachGrows(one, reaped[1..], now);
      TameTransitive(w, one, ReapEach(one, reaped[1..], now));
    }
  }

  lemma TickGrows(opts: Options, w: World, now: int)
    ensures Grows(w, Tick(opts, w, now).w)
  {
    hide ReapEach, TickRuns, ReapedBelow, TrackedBelow;
    var dropped := DropExpiredLeases(w, now);
    var reaped := ReapExpiredLeases(w, now);
    ReapEachGrows(dropped, ReapedBelow(w, w.nextJob, now), now);
    GrowsTransitive(w, dropped, reaped);
    TickRunsGrow(opts, reaped, TrackedRuns(reaped), now);
    GrowsTransitive(w, reaped, TickRuns(opts, reaped, TrackedRuns(reaped), now).w);
  }

  // ----------------------------------------------------------- The others

  lemma AcquireGrows(opts: Options, w: World, runner: string, labels: seq<string>, id: int, now: int, built: bool,
                     budgets: map<int, int>)
    ensures LogsNoRetry(w, Acquire(opts, w, runner, labels, id, now, built, budgets).w)
  {
    hide ComputeNeeds, Find, LabelsSatisfied, JobsOf, HandedTo;
  }

  lemma ReportGrows(w: World, runner: string, id: int, attempt: int, res: Result, now: int)
    ensures Grows(w, Report(w, runner, id, attempt, res, now).w)
  {
    hide FinishAttempt, Find, Grows;
    GrowsReflexive(w);
    if id in w.jobs {
      var j := w.jobs[id];
      var pj := if j.runID in w.plans then Find(w.plans[j.runID].jobs, j.key, j.matrixKey) else None;
      FinishGrows(w, pj, j, res, now, true);
    }
  }

  lemma CancelJobGrows(w: World, id: int, reason: CancelReason, now: int)
    ensures Tame(w, CancelJob(w, id, reason, now).w)
  {
    hide StopJob, Tame;
    TameReflexive(w);
    if id in w.jobs {
      StopGrows(w, None, w.jobs[id], reason, Cancelled, ClassNone, now, false);
    }
  }

  lemma {:induction false} ResetGrows(w: World, p: Plan, jobs: seq<Job>, keys: set<string>, i: nat, now: int)
    ensures LogsNoRetry(w, ResetFrom(w, p, jobs, keys, i, now).w)
    decreases |jobs| - i
  {
    hide Find, ResetJob;
    if i < |jobs| {
      ResetGrows(w, p, jobs, keys, i + 1, now);
      var j := ResetJob(jobs[i]);
      var one := Emit(ForgetStepTimeouts(PutJob(w, j), j.id), JobEvent(RerunAsked, j, now));
      ResetGrows(one, p, jobs, keys, i + 1, now);
    }
  }

  lemma RerunGrows(w: World, r: int, actor: string, sel: Selection, now: int)
    ensures LogsNoRetry(w, Rerun(w, r, actor, sel, now).w)
  {
    hide ResetFrom, RerunKeys, SelectedKeys, JobsOf;
    if r in w.runs && r in w.plans {
      ResetGrows(w, w.plans[r], JobsOf(w, r), RerunKeys(w, r, sel), 0, now);
    }
  }

  /** Whatever happens next, the log keeps every entry it has. */
  lemma LogOnlyGrows(opts: Options, w: World, a: Action)
    ensures w.events <= Apply(opts, w, a).events
  {
    hide StartRun, Approve, Tick, Acquire, Report, CancelRun, CancelJob, Rerun;
    match a {
      case ActStartRun(runID, plan) =>
        if runID in w.runs {
          StartRunGrows(opts, w, w.runs[runID], plan);
        }
      case ActApprove(runID, actor, now) => ApproveGrows(w, runID, actor, now);
      case ActTick(now) => TickGrows(opts, w, now);
      case ActAcquire(runner, labels, id, now, built, budgets) => AcquireGrows(opts, w, runner, labels, id, now, built, budgets);
      case ActReport(runner, id, attempt, res, now) => ReportGrows(w, runner, id, attempt, res, now);
      case ActCancelRun(runID, reason, now) => CancelRunGrows(w, runID, reason, now);
      case ActCancelJob(id, reason, now) => CancelJobGrows(w, id, reason, now);
      case ActRerun(runID, actor, sel, now) => RerunGrows(w, runID, actor, sel, now);
      case _ =>
    }
  }
}
