/** Every legal step keeps the invariant. A step is taken apart the way the code takes
    it apart: what reads a snapshot of a run's jobs is shown to find it still in step
    with the rows, what writes is one of the moves of Moves.dfy. */
module EntryPoints {
  import opened Model
  import opened Retry
  import opened Entities
  import opened Steps
  import opened Invariants
  import opened Moves
  import opened Attempts
  import opened Sweeps
  import opened Admissions

  // --------------------------------------------------------------------- Tick

  lemma RunFacts(w: World, r: int)
    requires Inv(w) && r in w.runs
    ensures w.runs[r].id == r && 0 < r < w.nextRun && VerdictHonest(w, r)
  {
  }

  lemma ForgetPlanKeepsInv(w: World, r: int)
    requires Inv(w)
    ensures Inv(ForgetPlan(w, r))
  {
    hide Inv, History, Structure;
    InvHasHistory(w);
    HistoryDependsOnRows(w, ForgetPlan(w, r));
    InvHasStructure(w);
    PlansOf(w);
    SameRowsKeepInv(w, ForgetPlan(w, r));
  }

  lemma RunTimeoutKeepsInv(opts: Options, w: World, run: Run, jobs: seq<Job>, now: int)
    requires Inv(w) && run.id in w.runs && run == w.runs[run.id] && !run.status.Completed? && Exact(w, jobs, run.id)
    ensures var s := EnforceRunTimeout(opts, w, run, jobs, now);
      Inv(s.w) && (s.run.status.Completed? || (s.w == w && s.run == run && s.jobs == jobs))
  {
    hide Inv, Snapshot, RunOverdue;
    if RunOverdue(opts, run, now) {
      var reason := Because(ActorTimeout);
      StopFromKeepsInv(w, jobs, 0, reason, TimedOut, ClassUser, now, run.id);
      var s := StopFrom(w, jobs, 0, reason, TimedOut, ClassUser, now);
      FinalizeKeepsInv(s.0, run.(cancel := Some(reason)), s.1, now);
    }
  }

  lemma AdmitReadyJobsKeepsInv(opts: Options, w: World, run: Run, p: Plan, jobs: seq<Job>, now: int)
    requires Inv(w) && Exact(w, jobs, run.id) && run.id in w.origin && p == w.origin[run.id]
    ensures var a := AdmitReadyJobs(opts, w, run, p, jobs, now);
      Inv(a.w) && Snapshot(a.w, a.jobs, run.id)
  {
    hide Inv, Snapshot, RunGroupBlocked, SlotsCounted;
    InvHasStructure(w);
    SlotsAreCountedAtTheStart(w, jobs, run.id);
    AdmitFromKeepsThePass(opts, run, p, 0, Admission(w, jobs, CountInFlight(jobs), {}, true), now);
  }

  lemma SameRunsTransitive(a: World, b: World, c: World)
    requires SameRuns(a, b) && SameRuns(b, c)
    ensures SameRuns(a, c)
  {
  }

  lemma {:induction false} DisplaceSameRuns(w: World, holders: seq<Job>, now: int)
    ensures SameRuns(w, DisplaceAll(w, holders, now))
    decreases |holders|
  {
    hide StopJob;
    if holders != [] {
      var f := StopJob(w, None, holders[0], Because(ActorConcurrencyGroup), Cancelled, ClassNone, now, false);
      StopSameRuns(w, None, holders[0], Because(ActorConcurrencyGroup), Cancelled, ClassNone, now, false);
      DisplaceSameRuns(f.w, holders[1..], now);
    }
  }

  lemma StopSameRuns(w: World, pj: Option<PlannedJob>, j: Job, reason: CancelReason, conclusion: Conclusion,
                     fault: FailureClass, now: int, allowRetry: bool)
    ensures SameRuns(w, StopJob(w, pj, j, reason, conclusion, fault, now, allowRetry).w)
  {
    hide FinishAttempt;
    FinishSameRuns(w, pj, j, Imposed(conclusion, fault, reason), now, allowRetry);
  }

  lemma GroupSameRuns(w: World, j: Job, pj: PlannedJob, taken: set<string>, now: int)
    ensures SameRuns(w, AdmitToGroup(w, j, pj, taken, now).w)
  {
    hide DisplaceAll, HoldersOf, LiveBelow, HoldForGroup;
    HoldSameRuns(w, j, now);
    DisplaceSameRuns(w, HoldersOf(LiveBelow(w.jobs, w.nextJob, j.group), j.id), now);
  }

  lemma QueueSameRuns(w: World, j: Job, now: int)
    ensures SameRuns(w, AdmitToQueue(w, j, now).w)
  {
  }

  lemma AdmitOneSameRuns(opts: Options, run: Run, p: Plan, i: nat, a: Admission, now: int)
    requires i < |a.jobs|
    ensures SameRuns(a.w, AdmitOne(opts, run, p, i, a, now).w)
  {
    hide FinishAttempt, ComputeNeeds, ShouldRun, Find, AdmitToGroup, AdmitToQueue;
    var j := a.jobs[i];
    var found := Find(p.jobs, j.key, j.matrixKey);
    if found.Some? {
      FinishSameRuns(a.w, found, j, SkipResult, now, false);
      var g := AdmitToGroup(a.w, j, found.value, a.taken, now);
      GroupSameRuns(a.w, j, found.value, a.taken, now);
      QueueSameRuns(g.w, g.job, now);
    }
  }

  lemma {:induction false} AdmitFromSameRuns(opts: Options, run: Run, p: Plan, i: nat, a: Admission, now: int)
    ensures SameRuns(a.w, AdmitFrom(opts, run, p, i, a, now).w)
    decreases |a.jobs| - i
  {
    hide AdmitOne;
    if i < |a.jobs| {
      AdmitOneSameRuns(opts, run, p, i, a, now);
      var next := AdmitOne(opts, run, p, i, a, now);
      if next.ok {
        AdmitFromSameRuns(opts, run, p, i + 1, next, now);
      }
    }
  }

  lemma AdmissionSameRuns(opts: Options, w: World, run: Run, p: Plan, jobs: seq<Job>, now: int)
    ensures SameRuns(w, AdmitReadyJobs(opts, w, run, p, jobs, now).w)
  {
    hide AdmitFrom, RunGroupBlocked;
    AdmitFromSameRuns(opts, run, p, 0, Admission(w, jobs, CountInFlight(jobs), {}, true), now);
  }

  lemma TickRunKeepsInv(opts: Options, w: World, r: int, now: int)
    requires Inv(w)
    ensures Inv(TickRun(opts, w, r, now).w)
  {
    hide Inv, Structure, Snapshot, VerdictHonest, EnforceRunTimeout, TimeoutsFrom, FailFastFrom, AdmitReadyJobs, FinalizeIfComplete;
    if r in w.runs {
      ForgetPlanKeepsInv(w, r);
      RunFacts(w, r);
      InvHasStructure(w);
      PlansOf(w);
      if !w.runs[r].status.Completed? && r in w.plans {
        var run, p, jobs := w.runs[r], w.plans[r], JobsOf(w, r);
        ListingIsExact(w, r);
        RunTimeoutKeepsInv(opts, w, run, jobs, now);
        var s := EnforceRunTimeout(opts, w, run, jobs, now);
        if !s.run.status.Completed? {
          RestOfTickRunKeepsInv(opts, w, run, p, jobs, now);
        }
      }
    }
  }

  lemma RestOfTickRunKeepsInv(opts: Options, w: World, run: Run, p: Plan, jobs: seq<Job>, now: int)
    requires Inv(w) && run.id in w.runs && run == w.runs[run.id] && !run.status.Completed? && Exact(w, jobs, run.id)
    requires run.id in w.origin && p == w.origin[run.id]
    ensures var t := TimeoutsFrom(opts, w, jobs, 0, now);
      var f := FailFastFrom(t.w, p, t.jobs, KeysOf(t.jobs), now);
      var a := AdmitReadyJobs(opts, f.w, run, p, f.jobs, now);
      Inv(t.w) && (t.ok ==> Inv(a.w) && Inv(FinalizeIfComplete(a.w, run, a.jobs, now).w))
  {
    hide Inv, Snapshot, VerdictHonest, TimeoutsFrom, FailFastFrom, AdmitReadyJobs, FinalizeIfComplete;
    TimeoutsKeepInv(opts, w, jobs, 0, now, run.id);
    var t := TimeoutsFrom(opts, w, jobs, 0, now);
    if t.ok {
      FailFastKeepsInv(t.w, p, t.jobs, KeysOf(t.jobs), now, run.id);
      var f := FailFastFrom(t.w, p, t.jobs, KeysOf(t.jobs), now);
      AdmitReadyJobsKeepsInv(opts, f.w, run, p, f.jobs, now);
      AdmissionSameRuns(opts, f.w, run, p, f.jobs, now);
      var a := AdmitReadyJobs(opts, f.w, run, p, f.jobs, now);
      RunFacts(w, run.id);
      NotCancelled(w, run.id);
      FinalizeKeepsInv(a.w, run, a.jobs, now);
    }
  }

  /** Only a finished run carries a reason for its cancellation. */
  lemma NotCancelled(w: World, r: int)
    requires Inv(w) && r in w.runs && !w.runs[r].status.Completed?
    ensures w.runs[r].cancel.None?
  {
    hide Inv;
    RunFacts(w, r);
  }

  lemma {:induction false} TickRunsKeepsInv(opts: Options, w: World, ids: seq<int>, now: int)
    requires Inv(w)
    ensures Inv(TickRuns(opts, w, ids, now).w)
    decreases |ids|
  {
    hide Inv, TickRun;
    if ids != [] {
      TickRunKeepsInv(opts, w, ids[0], now);
      TickRunsKeepsInv(opts, TickRun(opts, w, ids[0], now).w, ids[1..], now);
    }
  }

  lemma TickKeepsInv(opts: Options, w: World, now: int)
    requires Inv(w)
    ensures Inv(Tick(opts, w, now).w)
  {
    hide Inv, TickRuns, ReapExpiredLeases;
    if now != 0 {
      ReapKeepsInv(w, now);
      TickRunsKeepsInv(opts, ReapExpiredLeases(w, now), TrackedRuns(ReapExpiredLeases(w, now)), now);
    }
  }

  // ----------------------------------------------------------------- Dispatch

  /** A job in w' is w's job with only its lease, timings or status changed. */
  lemma LeaseMoveKeepsInv(w: World, w': World, j: Job, e: Option<Event>)
    requires Inv(w) && Updates(w, w', j) && RowsAgree(j, w'.queue) && LogMove(w, w', j, e)
    requires InFlight(w.jobs[j.id]) && j.infraRetryCount == w.jobs[j.id].infraRetryCount
    ensures Inv(w')
  {
    hide Inv, NeedMet, LogMove, VerdictHonest;
    JobFacts(w, j.id);
    assert RetryBound(w, j) by {
      forall pj | PlannedAs(w, j, pj) ensures PlannedAs(w, w.jobs[j.id], pj) {
      }
    }
    assert FairMove(w, w', j, e);
    FairMoveKeepsInv(w, w', j, e);
  }

  lemma IdleRowFacts(w: World, id: int)
    requires Inv(w) && id in w.queue && !w.queue[id].leased
    ensures id in w.jobs && Idle(w.jobs[id]) && InFlight(w.jobs[id]) && w.jobs[id].conclusion == NoConclusion
  {
    hide Inv, RetryBound;
    QueueFacts(w, id);
    JobFacts(w, id);
  }

  lemma ClaimKeepsInv(w: World, runner: string, id: int, now: int, ttl: int)
    requires Inv(w) && id in w.queue && !w.queue[id].leased
    ensures id in w.jobs && Inv(Dequeue(w, runner, id, now, ttl))
  {
    hide Inv, RetryBound;
    IdleRowFacts(w, id);
    JobFacts(w, id);
    var w' := Dequeue(w, runner, id, now, ttl);
    LeaseMoveKeepsInv(w, w', w'.jobs[id], None);
  }

  function Running(opts: Options, j: Job, runner: string, now: int): Job {
    j.(status := InProgress, runnerID := runner, leaseExpiresAt := Some(now + opts.leaseTTL), startedAt := Some(now),
       setupCompletedAt := None)
  }

  /** Claiming and dispatching together are one move of an idle job. */
  lemma DispatchKeepsInv(opts: Options, w: World, runner: string, id: int, now: int, w': World)
    requires Inv(w) && id in w.queue && !w.queue[id].leased && w.queue[id].notBefore <= now && id in w.jobs
    requires w'.queue == w.queue[id := w.queue[id].(leased := true, runnerID := runner, leaseExpiresAt := now + opts.leaseTTL)]
    requires w'.jobs == w.jobs[id := Running(opts, w.jobs[id], runner, now)]
    requires w'.events == w.events + [JobEvent(Dispatched, Running(opts, w.jobs[id], runner, now), now)]
    requires SameRuns(w, w') && w'.nextRun == w.nextRun && w'.nextJob == w.nextJob
    ensures Inv(w')
  {
    hide Inv, RetryBound;
    IdleRowFacts(w, id);
    JobFacts(w, id);
    var j := Running(opts, w.jobs[id], runner, now);
    LeaseMoveKeepsInv(w, w', j, Some(JobEvent(Dispatched, j, now)));
  }

  lemma AcquireKeepsInv(opts: Options, w: World, runner: string, labels: seq<string>, id: int, now: int,
                        built: bool, budgets: map<int, int>)
    requires Inv(w)
    ensures Inv(Acquire(opts, w, runner, labels, id, now, built, budgets).w)
    ensures runner != "" && Eligible(w, id, labels, now) ==>
      Acquire(opts, w, runner, labels, id, now, built, budgets)
      == Dispatch(opts, Dequeue(w, runner, id, now, opts.leaseTTL), runner, id, now, built, budgets)
  {
    hide Inv, ComputeNeeds, Find, LabelsSatisfied;
    if runner != "" && Eligible(w, id, labels, now) {
      IdleRowFacts(w, id);
      ClaimKeepsInv(w, runner, id, now, opts.leaseTTL);
      var claimed := Dequeue(w, runner, id, now, opts.leaseTTL);
      var d := Dispatch(opts, claimed, runner, id, now, built, budgets);
      if d.ok {
        var noted := if w.runs[w.jobs[id].runID].forkPR then Emit(w, JobEvent(Restricted, w.jobs[id], now)) else w;
        JobFacts(w, id);
        if w.runs[w.jobs[id].runID].forkPR {
          NeutralEventKeepsInv(w, JobEvent(Restricted, w.jobs[id], now));
        }
        DispatchShape(opts, w, noted, runner, id, now, built, budgets);
        DispatchKeepsInv(opts, noted, runner, id, now, d.w);
      }
    }
  }

  lemma DispatchShape(opts: Options, w: World, noted: World, runner: string, id: int, now: int,
                      built: bool, budgets: map<int, int>)
    requires id in w.jobs && id in w.queue && w.jobs[id].id == id && w.jobs[id].runID in w.runs
    requires noted == if w.runs[w.jobs[id].runID].forkPR then Emit(w, JobEvent(Restricted, w.jobs[id], now)) else w
    requires Dispatch(opts, Dequeue(w, runner, id, now, opts.leaseTTL), runner, id, now, built, budgets).ok
    ensures var w' := Dispatch(opts, Dequeue(w, runner, id, now, opts.leaseTTL), runner, id, now, built, budgets).w;
      && w'.queue == noted.queue[id := noted.queue[id].(leased := true, runnerID := runner, leaseExpiresAt := now + opts.leaseTTL)]
      && w'.jobs == noted.jobs[id := Running(opts, noted.jobs[id], runner, now)]
      && w'.events == noted.events + [JobEvent(Dispatched, Running(opts, noted.jobs[id], runner, now), now)]
      && SameRuns(noted, w') && w'.nextRun == noted.nextRun && w'.nextJob == noted.nextJob
  {
    hide ComputeNeeds, Find;
  }

  lemma HeartbeatKeepsInv(w: World, runner: string, id: int, now: int, ttl: int)
    requires Inv(w)
    ensures Inv(Heartbeat(w, runner, id, now, ttl).w)
  {
    hide Inv, RetryBound;
    if Leases(w, runner, id) {
      JobFacts(w, id);
      var w' := Heartbeat(w, runner, id, now, ttl).w;
      LeaseMoveKeepsInv(w, w', w'.jobs[id], None);
    }
  }

  lemma ReleaseKeepsInv(w: World, runner: string, id: int, reason: CancelReason, now: int)
    requires Inv(w)
    ensures Inv(ReleaseJob(w, runner, id, reason, now).w)
  {
    hide Inv, RetryBound;
    if reason.Valid() && Leases(w, runner, id) {
      JobFacts(w, id);
      var w' := ReleaseJob(w, runner, id, reason, now).w;
      LeaseMoveKeepsInv(w, w', w'.jobs[id], Some(JobEvent(Released, w.jobs[id], now)));
    }
  }

  lemma SetupKeepsInv(w: World, runner: string, id: int, attempt: int, at: int)
    requires Inv(w)
    ensures Inv(SetupCompleted(w, runner, id, attempt, at).w)
  {
    hide Inv, RetryBound;
    if HoldsJob(w, runner, id, attempt) && w.jobs[id].setupCompletedAt.None? {
      JobFacts(w, id);
      var w' := SetupCompleted(w, runner, id, attempt, at).w;
      LeaseMoveKeepsInv(w, w', w'.jobs[id], Some(JobEvent(SetupDone, w'.jobs[id], at)));
    }
  }

  lemma ReportKeepsInv(w: World, runner: string, id: int, attempt: int, res: Result, now: int)
    requires Inv(w)
    ensures Inv(Report(w, runner, id, attempt, res, now).w)
  {
    hide Inv, RetryBound, Structure, FinishAttempt, Find;
    if HoldsJob(w, runner, id, attempt) {
      JobFacts(w, id);
      InvHasStructure(w);
      LookupIsThePlan(w, w.jobs[id]);
      var j := w.jobs[id];
      var pj := if j.runID in w.plans then Find(w.plans[j.runID].jobs, j.key, j.matrixKey) else None;
      FinishAttemptKeepsInv(w, pj, j, res, now, true);
    }
  }

  // ------------------------------------------------------ Plans and the process

  lemma RegisterPlanKeepsInv(w: World, r: int, p: Plan)
    requires Inv(w) && r in w.origin && p == w.origin[r]
    ensures Inv(RegisterPlan(w, r, p).w)
  {
    hide Inv, History, Structure;
    InvHasHistory(w);
    HistoryDependsOnRows(w, RegisterPlan(w, r, p).w);
    InvHasStructure(w);
    PlansOf(w);
    SameRowsKeepInv(w, RegisterPlan(w, r, p).w);
  }

  lemma RestartKeepsInv(w: World)
    requires Inv(w)
    ensures Inv(w.(plans := map[], stepTimeouts := map[]))
  {
    hide Inv, History;
    InvHasHistory(w);
    HistoryDependsOnRows(w, w.(plans := map[], stepTimeouts := map[]));
    SameRowsKeepInv(w, w.(plans := map[], stepTimeouts := map[]));
  }

  lemma RecordStepsKeepsInv(w: World, id: int, attempt: int, steps: seq<Step>)
    requires Inv(w)
    ensures Inv(w.(steps := w.steps[(id, attempt) := steps]))
  {
    hide Inv, History, Structure;
    var w' := w.(steps := w.steps[(id, attempt) := steps]);
    InvHasHistory(w);
    HistoryDependsOnRows(w, w');
    InvHasStructure(w);
    PlansOf(w);
    SameRowsKeepInv(w, w');
  }

  lemma CreateRunKeepsInv(w: World, createdAt: int, forkPR: bool)
    requires Inv(w)
    ensures Inv(CreateRun(w, createdAt, forkPR))
  {
    InvParts(w);
    var w' := CreateRun(w, createdAt, forkPR);
    var mid := w.(nextRun := w'.nextRun);
    NextRunKeepsInv(w, w'.nextRun);
    assert VerdictsHonest(w') by {
      forall r | r in w'.runs ensures VerdictHonest(w', r) {
        if r in w.runs {
          assert VerdictHonest(w, r);
        }
      }
    }
    RunsOnlyMatterToVerdicts(mid, w');
  }

  lemma NextRunKeepsInv(w: World, n: int)
    requires Inv(w) && n >= w.nextRun
    ensures Inv(w.(nextRun := n))
  {
    hide NoJobLost, GroupsExclusive, SlotsRespected, NoEarlyStart, VerdictsHonest, RetriesBounded, RetriesTimed, History;
    var w' := w.(nextRun := n);
    RetriesTimedStays(w, w');
    forall id | id in w'.jobs
      ensures exists pj :: PlannedAs(w', w'.jobs[id], pj) && w'.jobs[id].needs == pj.needs
    {
      var pj :| PlannedAs(w, w.jobs[id], pj) && w.jobs[id].needs == pj.needs;
      assert PlannedAs(w', w'.jobs[id], pj);
    }
    HistoryDependsOnRows(w, w');
    RowsKept(w, w');
  }

  lemma RowsKept(w: World, w': World)
    requires NoJobLost(w) && GroupsExclusive(w) && SlotsRespected(w) && NoEarlyStart(w) && VerdictsHonest(w) && RetriesBounded(w)
    requires w' == w.(nextRun := w'.nextRun)
    ensures NoJobLost(w') && GroupsExclusive(w') && SlotsRespected(w') && NoEarlyStart(w') && VerdictsHonest(w') && RetriesBounded(w')
  {
    RunsDoNotMatterToRows(w, w');
    forall r | r in w'.runs ensures VerdictHonest(w', r) {
      assert VerdictHonest(w, r);
    }
  }
}
