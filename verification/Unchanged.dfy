/** When a tick changes nothing: exactly when no lease has expired and every run it gets to is
    quiet. A tick that leaves the log as it was has, at every step, found nothing to do, and
    what it then must have found is spelled out step by step. */
module Unchanged {
  import opened Model
  import opened Retry
  import opened Entities
  import opened Steps
  import opened Invariants
  import opened Moves
  import opened Attempts
  import opened Sweeps
  import opened Admissions
  import opened EntryPoints
  import opened AuditLog
  import opened Settling

  // ------------------------------------------------------- Every write is logged

  lemma FinishLogs(w: World, pj: Option<PlannedJob>, j: Job, res: Result, now: int, allowRetry: bool)
    requires res.Valid() && (allowRetry ==> pj.Some?)
    ensures FinishAttempt(w, pj, j, res, now, allowRetry).ok
    ensures |FinishAttempt(w, pj, j, res, now, allowRetry).w.events| > |w.events|
  {
    hide Retries, Conclude, RequeueForRetry, Noted, WithOutputs;
    var noted, job := Noted(w, j, res, now), WithOutputs(j, res);
    NotedGrows(w, j, res, now);
    ConcludeLogs(noted, job, res, now);
    if pj.Some? {
      RetryLogs(noted, pj.value, job, now);
    }
  }

  lemma ConcludeLogs(w: World, j: Job, res: Result, now: int)
    ensures Conclude(w, j, res, now).ok && |Conclude(w, j, res, now).w.events| == |w.events| + 1
  {
  }

  lemma RetryLogs(w: World, pj: PlannedJob, j: Job, now: int)
    ensures RequeueForRetry(w, pj, j, now).ok && |RequeueForRetry(w, pj, j, now).w.events| == |w.events| + 1
  {
    hide Delay, NextAttempt;
  }

  lemma StopLogs(w: World, pj: Option<PlannedJob>, j: Job, actor: CancelActor, conclusion: Conclusion, fault: FailureClass,
                 now: int, allowRetry: bool)
    requires Imposed(conclusion, fault, Because(actor)).Valid() && (allowRetry ==> pj.Some?)
    ensures StopJob(w, pj, j, Because(actor), conclusion, fault, now, allowRetry).ok
    ensures |StopJob(w, pj, j, Because(actor), conclusion, fault, now, allowRetry).w.events| > |w.events|
  {
    hide FinishAttempt;
    FinishLogs(w, pj, j, Imposed(conclusion, fault, Because(actor)), now, allowRetry);
  }

  lemma SameLogBetween(a: World, b: World, c: World)
    requires Grows(a, b) && Grows(b, c) && c.events == a.events
    ensures b.events == a.events
  {
  }

  lemma {:induction false} SilentTimeouts(opts: Options, w: World, jobs: seq<Job>, i: nat, now: int)
    requires TimeoutsFrom(opts, w, jobs, i, now).ok && TimeoutsFrom(opts, w, jobs, i, now).w.events == w.events
    ensures TimeoutsFrom(opts, w, jobs, i, now) == Sweep(w, jobs, true)
    ensures forall k :: i <= k < |jobs| ==> WithinBudget(opts, w, jobs[k], now)
    decreases |jobs| - i
  {
    hide EnforceJobTimeout, WithinBudget, Grows;
    if i < |jobs| {
      var f := EnforceJobTimeout(opts, w, jobs[i], now);
      TimeoutGrows(opts, w, jobs[i], now);
      TimeoutsGrow(opts, f.w, jobs[i := f.job], i + 1, now);
      SameLogBetween(w, f.w, TimeoutsFrom(opts, w, jobs, i, now).w);
      SilentTimeout(opts, w, jobs[i], now);
      assert jobs[i := jobs[i]] == jobs;
      SilentTimeouts(opts, w, jobs, i + 1, now);
    }
  }

  lemma SilentTimeout(opts: Options, w: World, j: Job, now: int)
    requires EnforceJobTimeout(opts, w, j, now).ok && EnforceJobTimeout(opts, w, j, now).w.events == w.events
    ensures EnforceJobTimeout(opts, w, j, now) == Finished(w, j, true) && WithinBudget(opts, w, j, now)
  {
    hide StopJob, SomeStepOverdue, Find, JobBudget;
    var pj := if j.runID in w.plans then Find(w.plans[j.runID].jobs, j.key, j.matrixKey) else None;
    if pj.Some? {
      StopLogs(w, pj, j, ActorTimeout, InfraFailure, ClassInfra, now, true);
    }
    StopLogs(w, None, j, ActorTimeout, TimedOut, ClassUser, now, false);
  }

  lemma {:induction false} SilentLegs(w: World, jobs: seq<Job>, key: string, k: nat, now: int)
    requires CancelLegsFrom(w, jobs, key, k, now).w.events == w.events
    ensures forall m :: k <= m < |jobs| && jobs[m].key == key ==> jobs[m].status.Completed?
    ensures CancelLegsFrom(w, jobs, key, k, now) == Sweep(w, jobs, true)
    decreases |jobs| - k
  {
    hide StopJob;
    if k < |jobs| {
      if jobs[k].key != key || jobs[k].status.Completed? {
        SilentLegs(w, jobs, key, k + 1, now);
      } else {
        var f := StopJob(w, None, jobs[k], Because(ActorDependencyFailed), Cancelled, ClassNone, now, false);
        StopLogs(w, None, jobs[k], ActorDependencyFailed, Cancelled, ClassNone, now, false);
        CancelLegsGrows(f.w, jobs[k := f.job], key, k + 1, now);
        assert false;
      }
    }
  }

  lemma {:induction false} SilentFailFast(w: World, p: Plan, jobs: seq<Job>, keys: seq<string>, now: int)
    requires FailFastFrom(w, p, jobs, keys, now).w.events == w.events
    ensures forall key :: key in keys ==> LegsSettled(p, jobs, key)
    ensures FailFastFrom(w, p, jobs, keys, now) == Sweep(w, jobs, true)
    decreases |keys|
  {
    hide FailsFast, CancelLegsFrom, Grows;
    if keys != [] {
      assert keys == [keys[0]] + keys[1..];
      if FailsFast(p, jobs, keys[0]) {
        var s := CancelLegsFrom(w, jobs, keys[0], 0, now);
        CancelLegsGrows(w, jobs, keys[0], 0, now);
        FailFastGrows(s.w, p, s.jobs, keys[1..], now);
        SameLogBetween(w, s.w, FailFastFrom(w, p, jobs, keys, now).w);
        SilentLegs(w, jobs, keys[0], 0, now);
      }
      SilentFailFast(w, p, jobs, keys[1..], now);
    }
  }

  lemma UnlistedKeysFailNothing(p: Plan, jobs: seq<Job>, key: string)
    requires key !in KeysOf(jobs)
    ensures LegsSettled(p, jobs, key)
  {
    assert forall l :: l in LegsOf(jobs, key) ==> l in jobs && l.key == key;
  }

  // ------------------------------------------------------------------ Admission

  /** What a look that logs nothing has found. */
  ghost predicate LookedInPeace(opts: Options, run: Run, p: Plan, i: nat, a: Admission, next: Admission) {
    && i < |a.jobs|
    && (Pending(a.jobs[i]) && Failing(opts, run, p, a.jobs, a.jobs[i]) ==> next == a.(ok := false))
    && (!(Pending(a.jobs[i]) && Failing(opts, run, p, a.jobs, a.jobs[i])) ==> next == a)
    && (Pending(a.jobs[i]) && !Failing(opts, run, p, a.jobs, a.jobs[i]) ==>
         && Stuck(opts, run, p, a.w, a.jobs, a.inFlight, a.jobs[i])
         && !PassedOver(opts, run, p, a.w, a.jobs, a.inFlight, a.jobs[i]))
  }

  lemma QueueLogs(w: World, j: Job, now: int)
    ensures |AdmitToQueue(w, j, now).w.events| > |w.events|
  {
  }

  lemma HoldLogs(w: World, j: Job, now: int)
    ensures HoldForGroup(w, j, now).w.events == w.events ==> j.status.Waiting? && HoldForGroup(w, j, now) == Finished(w, j, true)
  {
    if !j.status.Waiting? {
      assert |HoldForGroup(w, j, now).w.events| == |w.events| + 1;
    }
  }

  lemma SilentPlace(opts: Options, run: Run, p: Plan, pj: PlannedJob, i: nat, a: Admission, now: int)
    requires Structure(a.w) && i < |a.jobs| && a.taken == {} && Pending(a.jobs[i]) && Wanted(opts, run, p, a.jobs, a.jobs[i])
    requires Find(p.jobs, a.jobs[i].key, a.jobs[i].matrixKey) == Some(pj) && Place(i, pj, a, now).w.events == a.w.events
    ensures LookedInPeace(opts, run, p, i, a, Place(i, pj, a, now))
  {
    hide Structure, ComputeNeeds, ShouldRun, LiveBelow, HoldersOf, DisplaceAll, AdmitToQueue, HoldForGroup, GroupIsHeld;
    var j := a.jobs[i];
    HeldMeansHolders(a.w, j);
    HoldLogs(a.w, j, now);
    GroupGrows(a.w, j, pj, a.taken, now);
    var g := AdmitToGroup(a.w, j, pj, a.taken, now);
    QueueLogs(g.w, g.job, now);
    assert a.jobs[i := j] == a.jobs;
  }

  lemma SilentLook(opts: Options, run: Run, p: Plan, i: nat, a: Admission, now: int)
    requires Structure(a.w) && i < |a.jobs| && a.taken == {} && AdmitOne(opts, run, p, i, a, now).w.events == a.w.events
    ensures LookedInPeace(opts, run, p, i, a, AdmitOne(opts, run, p, i, a, now))
  {
    hide Structure, ComputeNeeds, ShouldRun, Place, FinishAttempt, Find, GroupIsHeld;
    var j := a.jobs[i];
    var found := Find(p.jobs, j.key, j.matrixKey);
    if Pending(j) && found.Some? {
      FinishLogs(a.w, found, j, SkipResult, now, false);
      if Wanted(opts, run, p, a.jobs, j) {
        SilentPlace(opts, run, p, found.value, i, a, now);
      }
    }
  }

  lemma {:induction false} SilentAdmission(opts: Options, run: Run, p: Plan, i: nat, a: Admission, now: int)
    requires Structure(a.w) && a.ok && a.taken == {} && i <= |a.jobs| && AdmitFrom(opts, run, p, i, a, now).w.events == a.w.events
    ensures var stop := FirstFailing(opts, run, p, a.jobs, i);
      && AdmitFrom(opts, run, p, i, a, now) == a.(ok := stop == |a.jobs|)
      && forall k :: i <= k < stop && Pending(a.jobs[k]) ==>
           Stuck(opts, run, p, a.w, a.jobs, a.inFlight, a.jobs[k]) && !PassedOver(opts, run, p, a.w, a.jobs, a.inFlight, a.jobs[k])
    decreases |a.jobs| - i
  {
    hide Structure, AdmitOne, Stuck, PassedOver, Failing, Grows;
    if i < |a.jobs| {
      var next := AdmitOne(opts, run, p, i, a, now);
      AdmitOneGrows(opts, run, p, i, a, now);
      if next.ok {
        AdmitFromGrows(opts, run, p, i + 1, next, now);
        SameLogBetween(a.w, next.w, AdmitFrom(opts, run, p, i, a, now).w);
      }
      SilentLook(opts, run, p, i, a, now);
      if next.ok {
        SilentAdmission(opts, run, p, i + 1, a, now);
      }
    }
  }

  // -------------------------------------------------------------------- One run

  lemma TimeoutSucceeds(opts: Options, w: World, j: Job, now: int)
    requires Structure(w) && InStep(w, j) && j.runID in w.plans
    ensures EnforceJobTimeout(opts, w, j, now).ok
  {
    hide StopJob, SomeStepOverdue, JobBudget;
    var own :| PlannedAs(w, w.jobs[j.id], own) && w.jobs[j.id].needs == own.needs;
    var pj := Find(w.plans[j.runID].jobs, j.key, j.matrixKey);
    assert pj == Some(own);
    StopLogs(w, pj, j, ActorTimeout, InfraFailure, ClassInfra, now, true);
    StopLogs(w, None, j, ActorTimeout, TimedOut, ClassUser, now, false);
  }

  /** Every job of a tracked run is in the plan, so the timeout sweep never errs. */
  lemma {:induction false} TimeoutsSucceed(opts: Options, w: World, jobs: seq<Job>, i: nat, now: int, r: int)
    requires Inv(w) && Exact(w, jobs, r) && r in w.plans
    ensures TimeoutsFrom(opts, w, jobs, i, now).ok
    decreases |jobs| - i
  {
    hide Inv, Structure, EnforceJobTimeout, Snapshot, Updates;
    if i < |jobs| {
      InvHasStructure(w);
      SnapshotFacts(w, jobs, r);
      TimeoutSucceeds(opts, w, jobs[i], now);
      TimeoutKeepsInv(opts, w, jobs[i], now);
      var f := EnforceJobTimeout(opts, w, jobs[i], now);
      EnforceSameId(opts, w, jobs[i], now);
      if f.w == w && f.job == jobs[i] {
        assert jobs[i := f.job] == jobs;
      } else {
        SnapshotMoves(w, f.w, jobs, i, f.job, r);
      }
      TimeoutsSucceed(opts, f.w, jobs[i := f.job], i + 1, now, r);
    }
  }

  lemma {:induction false} GroupsOfTrackedRunsAreKnown(w: World, run: Run, p: Plan, others: seq<int>)
    requires Structure(w)
    ensures BlockedFrom(w, run, p, others).Some?
    decreases |others|
  {
    hide HeldBy;
    if others != [] {
      GroupsOfTrackedRunsAreKnown(w, run, p, others[1..]);
    }
  }

  /** An overdue run is closed, and closing it is logged. */
  lemma OverdueRunLogs(opts: Options, w: World, run: Run, jobs: seq<Job>, now: int)
    requires Inv(w) && Exact(w, jobs, run.id) && run.id in w.runs && w.runs[run.id] == run && !run.status.Completed?
    requires RunOverdue(opts, run, now)
    ensures var s := EnforceRunTimeout(opts, w, run, jobs, now); s.run.status.Completed? && |s.w.events| > |w.events|
  {
    hide Inv, Structure, Exact, Snapshot, StopFrom, Conclusions;
    var reason := Because(ActorTimeout);
    StopFromKeepsInv(w, jobs, 0, reason, TimedOut, ClassUser, now, run.id);
    StopFromGrows(w, jobs, 0, reason, TimedOut, ClassUser, now);
  }

  /** A tick of a run that writes neither to the log nor to the plans found the run quiet. */
  lemma SilentRun(opts: Options, w: World, r: int, now: int)
    requires Inv(w) && r in w.plans
    requires TickRun(opts, w, r, now).w.events == w.events && r in TickRun(opts, w, r, now).w.plans
    ensures Quiet(opts, w, r, now) && TickRun(opts, w, r, now) == Outcome(w, !Errs(opts, w, r))
  {
    hide Inv, Structure, Exact, Snapshot, TimeoutsFrom, FailFastFrom, AdmitFrom, RunOverdue, KeysOf, VerdictHonest, LegsSettled,
      WithinBudget, StopFrom, EnforceRunTimeout, BlockedFrom, CountInFlight, FirstFailing, Stuck, PassedOver, Grows;
    InvHasStructure(w);
    PlansOf(w);
    TrackedAreRuns(w);
    ListingIsExact(w, r);
    RunFacts(w, r);
    var run, p, jobs := w.runs[r], w.plans[r], JobsOf(w, r);
    if RunOverdue(opts, run, now) {
      OverdueRunLogs(opts, w, run, jobs, now);
      assert false;
    }
    assert EnforceRunTimeout(opts, w, run, jobs, now) == RunSweep(w, run, jobs) by { NotOverdue(opts, w, run, jobs, now); }
    TimeoutsSucceed(opts, w, jobs, 0, now, r);
    var t := TimeoutsFrom(opts, w, jobs, 0, now);
    var f := FailFastFrom(t.w, p, t.jobs, KeysOf(t.jobs), now);
    var a := AdmitReadyJobs(opts, f.w, run, p, f.jobs, now);
    var last := if a.ok then FinalizeIfComplete(a.w, run, a.jobs, now).w else a.w;
    TimeoutsGrow(opts, w, jobs, 0, now);
    FailFastGrows(t.w, p, t.jobs, KeysOf(t.jobs), now);
    AdmissionGrows(opts, f.w, run, p, f.jobs, now);
    FinalizeGrows(a.w, run, a.jobs, now);
    LogsInBetween(w, t.w, f.w, a.w, last);
    SilentTimeouts(opts, w, jobs, 0, now);
    SilentFailFast(w, p, jobs, KeysOf(jobs), now);
    forall key ensures LegsSettled(p, jobs, key) {
      if key !in KeysOf(jobs) {
        UnlistedKeysFailNothing(p, jobs, key);
      }
    }
    GroupsOfTrackedRunsAreKnown(w, run, p, TrackedRuns(w));
    if RunGroupBlocked(w, run, p) == Some(false) {
      SilentAdmission(opts, run, p, 0, Admission(w, jobs, CountInFlight(jobs), {}, true), now);
    }
    if a.ok && AllCompleted(jobs) {
      FinalizeLogs(w, run, jobs, now);
    }
  }

  lemma FinalizeLogs(w: World, run: Run, jobs: seq<Job>, now: int)
    requires !run.status.Completed? && AllCompleted(jobs)
    ensures |FinalizeIfComplete(w, run, jobs, now).w.events| > |w.events|
  {
  }

  lemma NotOverdue(opts: Options, w: World, run: Run, jobs: seq<Job>, now: int)
    requires !RunOverdue(opts, run, now)
    ensures EnforceRunTimeout(opts, w, run, jobs, now) == RunSweep(w, run, jobs)
  {
  }

  lemma TrackedAreRuns(w: World)
    requires Structure(w)
    ensures forall r :: r in w.plans ==> r in w.runs && 0 < r < w.nextRun
  {
  }

  lemma LogsInBetween(w: World, t: World, f: World, a: World, last: World)
    requires Grows(w, t) && Grows(t, f) && Grows(f, a) && Grows(a, last) && last.events == w.events
    ensures t.events == w.events && f.events == w.events && a.events == w.events
  {
  }

  // ------------------------------------------------------------------- All runs

  /** The pass over the runs gets as far as run r. */
  ghost predicate Reached(opts: Options, w: World, r: int) {
    forall q :: q in w.plans && q < r ==> !Errs(opts, w, q)
  }

  lemma {:induction false} TrackedAreThePlans(plans: map<int, Plan>, n: int)
    ensures var ids := TrackedBelow(plans, n);
      && (forall r :: r in ids <==> 0 <= r < n && r in plans)
      && (forall k, l :: 0 <= k < l < |ids| ==> ids[k] < ids[l])
    decreases n
  {
    if n > 0 {
      TrackedAreThePlans(plans, n - 1);
    }
  }

  ghost predicate RestsUpTo(opts: Options, w: World, ids: seq<int>, now: int) {
    forall k :: 0 <= k < |ids| && (forall m :: 0 <= m < k ==> !Errs(opts, w, ids[m])) ==> Quiet(opts, w, ids[k], now)
  }

  ghost predicate NoneErrs(opts: Options, w: World, ids: seq<int>) {
    forall k :: 0 <= k < |ids| ==> !Errs(opts, w, ids[k])
  }

  lemma NoneErrsSplits(opts: Options, w: World, ids: seq<int>)
    requires ids != []
    ensures NoneErrs(opts, w, ids) <==> !Errs(opts, w, ids[0]) && NoneErrs(opts, w, ids[1..])
  {
    hide Errs;
    assert forall k :: 0 < k < |ids| ==> ids[k] == ids[1..][k - 1];
  }

  lemma {:induction false} RestingRunsTickInVain(opts: Options, w: World, ids: seq<int>, now: int)
    requires Structure(w) && RestsUpTo(opts, w, ids, now)
    ensures TickRuns(opts, w, ids, now) == Outcome(w, NoneErrs(opts, w, ids))
    decreases |ids|
  {
    hide Quiet, TickRun, Errs, Structure, NoneErrs;
    if ids != [] {
      NoneErrsSplits(opts, w, ids);
      assert Quiet(opts, w, ids[0], now);
      QuietRunIsLeftAlone(opts, w, ids[0], now);
      if !Errs(opts, w, ids[0]) {
        RestOfThem(opts, w, ids, now);
        hide RestsUpTo;
        RestingRunsTickInVain(opts, w, ids[1..], now);
      }
    } else {
      NobodyErrs(opts, w);
    }
  }

  lemma NobodyErrs(opts: Options, w: World)
    ensures NoneErrs(opts, w, [])
  {
  }

  lemma RestOfThem(opts: Options, w: World, ids: seq<int>, now: int)
    requires RestsUpTo(opts, w, ids, now) && ids != [] && !Errs(opts, w, ids[0])
    ensures RestsUpTo(opts, w, ids[1..], now)
  {
    hide Quiet, Errs;
    forall k | 0 <= k < |ids[1..]| && (forall m :: 0 <= m < k ==> !Errs(opts, w, ids[1..][m]))
      ensures Quiet(opts, w, ids[1..][k], now)
    {
      forall m | 0 <= m < k + 1 ensures !Errs(opts, w, ids[m]) {
        if m > 0 {
          assert ids[m] == ids[1..][m - 1];
        }
      }
      assert ids[1..][k] == ids[k + 1];
    }
  }

  // --------------------------------------------------- Plans are only ever dropped

  lemma {:induction false} StopFromSameRuns(w: World, jobs: seq<Job>, i: nat, reason: CancelReason, conclusion: Conclusion,
                                            fault: FailureClass, now: int)
    ensures SameRuns(w, StopFrom(w, jobs, i, reason, conclusion, fault, now).0)
    decreases |jobs| - i
  {
    hide StopJob;
    if i < |jobs| {
      if jobs[i].status.Completed? {
        StopFromSameRuns(w, jobs, i + 1, reason, conclusion, fault, now);
      } else {
        StopSameRuns(w, None, jobs[i], reason, conclusion, fault, now, false);
        var f := StopJob(w, None, jobs[i], reason, conclusion, fault, now, false);
        StopFromSameRuns(f.w, jobs[i := f.job], i + 1, reason, conclusion, fault, now);
      }
    }
  }

  lemma TimeoutSameRuns(opts: Options, w: World, j: Job, now: int)
    ensures SameRuns(w, EnforceJobTimeout(opts, w, j, now).w)
  {
    hide StopJob, SomeStepOverdue, Find, JobBudget;
    var pj := if j.runID in w.plans then Find(w.plans[j.runID].jobs, j.key, j.matrixKey) else None;
    StopSameRuns(w, pj, j, Because(ActorTimeout), InfraFailure, ClassInfra, now, true);
    StopSameRuns(w, None, j, Because(ActorTimeout), TimedOut, ClassUser, now, false);
  }

  lemma {:induction false} TimeoutsSameRuns(opts: Options, w: World, jobs: seq<Job>, i: nat, now: int)
    ensures SameRuns(w, TimeoutsFrom(opts, w, jobs, i, now).w)
    decreases |jobs| - i
  {
    hide EnforceJobTimeout;
    if i < |jobs| {
      TimeoutSameRuns(opts, w, jobs[i], now);
      var f := EnforceJobTimeout(opts, w, jobs[i], now);
      TimeoutsSameRuns(opts, f.w, jobs[i := f.job], i + 1, now);
    }
  }

  lemma {:induction false} CancelLegsSameRuns(w: World, jobs: seq<Job>, key: string, k: nat, now: int)
    ensures SameRuns(w, CancelLegsFrom(w, jobs, key, k, now).w)
    decreases |jobs| - k
  {
    hide StopJob;
    if k < |jobs| {
      if jobs[k].key != key || jobs[k].status.Completed? {
        CancelLegsSameRuns(w, jobs, key, k + 1, now);
      } else {
        StopSameRuns(w, None, jobs[k], Because(ActorDependencyFailed), Cancelled, ClassNone, now, false);
        var f := StopJob(w, None, jobs[k], Because(ActorDependencyFailed), Cancelled, ClassNone, now, false);
        CancelLegsSameRuns(f.w, jobs[k := f.job], key, k + 1, now);
      }
    }
  }

  lemma {:induction false} FailFastSameRuns(w: World, p: Plan, jobs: seq<Job>, keys: seq<string>, now: int)
    ensures SameRuns(w, FailFastFrom(w, p, jobs, keys, now).w)
    decreases |keys|
  {
    hide CancelLegsFrom, FailsFast;
    if keys != [] {
      if FailsFast(p, jobs, keys[0]) {
        CancelLegsSameRuns(w, jobs, keys[0], 0, now);
        var s := CancelLegsFrom(w, jobs, keys[0], 0, now);
        FailFastSameRuns(s.w, p, s.jobs, keys[1..], now);
      } else {
        FailFastSameRuns(w, p, jobs, keys[1..], now);
      }
    }
  }

  lemma TickRunForgets(opts: Options, w: World, r: int, now: int)
    ensures TickRun(opts, w, r, now).w.plans.Keys <= w.plans.Keys
  {
    hide StopFrom, TimeoutsFrom, FailFastFrom, AdmitReadyJobs, KeysOf, RunOverdue, Conclusions, JobsOf;
    if r in w.runs && !w.runs[r].status.Completed? && r in w.plans {
      var run, p, jobs := w.runs[r], w.plans[r], JobsOf(w, r);
      StopFromSameRuns(w, jobs, 0, Because(ActorTimeout), TimedOut, ClassUser, now);
      var s := EnforceRunTimeout(opts, w, run, jobs, now);
      var t := TimeoutsFrom(opts, s.w, s.jobs, 0, now);
      TimeoutsSameRuns(opts, s.w, s.jobs, 0, now);
      FailFastSameRuns(t.w, p, t.jobs, KeysOf(t.jobs), now);
      var f := FailFastFrom(t.w, p, t.jobs, KeysOf(t.jobs), now);
      AdmissionSameRuns(opts, f.w, s.run, p, f.jobs, now);
    }
  }

  lemma {:induction false} TickRunsForget(opts: Options, w: World, ids: seq<int>, now: int)
    ensures TickRuns(opts, w, ids, now).w.plans.Keys <= w.plans.Keys
    decreases |ids|
  {
    hide TickRun;
    if ids != [] {
      TickRunForgets(opts, w, ids[0], now);
      TickRunsForget(opts, TickRun(opts, w, ids[0], now).w, ids[1..], now);
    }
  }

  lemma {:induction false} SilentRuns(opts: Options, w: World, ids: seq<int>, now: int)
    requires Inv(w) && (forall k :: 0 <= k < |ids| ==> ids[k] in w.plans)
    requires TickRuns(opts, w, ids, now).w.events == w.events && w.plans.Keys <= TickRuns(opts, w, ids, now).w.plans.Keys
    ensures RestsUpTo(opts, w, ids, now)
    decreases |ids|
  {
    hide Inv, TickRun, Quiet, Errs, Grows;
    if ids != [] {
      var t := TickRun(opts, w, ids[0], now);
      var last := TickRuns(opts, w, ids, now).w;
      TickRunGrows(opts, w, ids[0], now);
      if t.ok {
        TickRunsGrow(opts, t.w, ids[1..], now);
        TickRunsForget(opts, t.w, ids[1..], now);
        SameLogBetween(w, t.w, last);
      }
      SilentRun(opts, w, ids[0], now);
      if t.ok {
        SilentRuns(opts, w, ids[1..], now);
        forall k | 0 <= k < |ids| && (forall m :: 0 <= m < k ==> !Errs(opts, w, ids[m])) ensures Quiet(opts, w, ids[k], now) {
          if k > 0 {
            forall m | 0 <= m < k - 1 ensures !Errs(opts, w, ids[1..][m]) {
              assert ids[1..][m] == ids[m + 1];
            }
            assert ids[1..][k - 1] == ids[k];
          }
        }
      } else {
        assert Errs(opts, w, ids[0]);
      }
    }
  }

  // -------------------------------------------------------------------- Reaping

  ghost predicate NoneExpired(w: World, now: int) {
    forall id :: id in w.queue ==> !Expired(w.queue[id], now)
  }

  lemma {:induction false} ReapingLogs(w: World, ids: seq<int>, now: int)
    requires forall k :: 0 <= k < |ids| ==> ids[k] in w.jobs && ids[k] in w.queue
    ensures |ReapAll(w, ids, now).events| == |w.events| + |ids|
    decreases |ids|
  {
    if ids != [] {
      ReapingLogs(ReapOne(w, ids[0], now), ids[1..], now);
    }
  }

  lemma NothingToReap(w: World, now: int)
    requires Inv(w)
    ensures NoneExpired(w, now) ==> ReapExpiredLeases(w, now) == w
    ensures !NoneExpired(w, now) ==> |ReapExpiredLeases(w, now).events| > |w.events|
  {
    hide Inv, Structure;
    InvHasStructure(w);
    ReapKeepsInv(w, now);
    var ids := ExpiredBelow(w, w.nextJob, now);
    ExpiredBelowIs(w, w.nextJob, now);
    forall k | 0 <= k < |ids| ensures ids[k] in w.jobs && ids[k] in w.queue {
      assert ids[k] in ids;
    }
    ReapingLogs(w, ids, now);
    if NoneExpired(w, now) {
      assert forall k :: 0 <= k < |ids| ==> ids[k] in ids;
    } else {
      var id :| id in w.queue && Expired(w.queue[id], now);
      QueuedIdsAreBelow(w, id);
      assert id in ids;
    }
  }

  lemma QueuedIdsAreBelow(w: World, id: int)
    requires Structure(w) && id in w.queue
    ensures id in w.jobs && 0 <= id < w.nextJob
  {
  }

  // ----------------------------------------------------------------- The theorem

  /** Every run the tick gets to is quiet. */
  ghost predicate AllQuiet(opts: Options, w: World, now: int) {
    forall r :: r in w.plans && Reached(opts, w, r) ==> Quiet(opts, w, r, now)
  }

  lemma ReachedIs(opts: Options, w: World, ids: seq<int>, k: nat)
    requires k < |ids| && (forall a, b :: 0 <= a < b < |ids| ==> ids[a] < ids[b])
    requires forall r :: r in ids <==> r in w.plans
    ensures Reached(opts, w, ids[k]) <==> forall m :: 0 <= m < k ==> !Errs(opts, w, ids[m])
  {
    hide Errs;
    if forall m :: 0 <= m < k ==> !Errs(opts, w, ids[m]) {
      forall q | q in w.plans && q < ids[k] ensures !Errs(opts, w, q) {
        var m :| 0 <= m < |ids| && ids[m] == q;
        assert m < k;
      }
    }
    assert forall m :: 0 <= m < k ==> ids[m] in ids;
  }

  lemma ReachedInOrder(opts: Options, w: World, now: int)
    requires Structure(w)
    ensures AllQuiet(opts, w, now) <==> RestsUpTo(opts, w, TrackedRuns(w), now)
    ensures forall k :: 0 <= k < |TrackedRuns(w)| ==> TrackedRuns(w)[k] in w.plans
    ensures NoneErrs(opts, w, TrackedRuns(w)) <==> forall r :: r in w.plans ==> !Errs(opts, w, r)
  {
    hide Quiet, Errs, Structure, Reached, TrackedBelow;
    var ids := TrackedRuns(w);
    TrackedAreRuns(w);
    TrackedAreThePlans(w.plans, w.nextRun);
    forall r ensures r in ids <==> r in w.plans {
    }
    forall k | 0 <= k < |ids|
      ensures ids[k] in w.plans
      ensures Reached(opts, w, ids[k]) <==> forall m :: 0 <= m < k ==> !Errs(opts, w, ids[m])
    {
      assert ids[k] in ids;
      ReachedIs(opts, w, ids, k);
    }
    if RestsUpTo(opts, w, ids, now) {
      forall r | r in w.plans && Reached(opts, w, r) ensures Quiet(opts, w, r, now) {
        assert r in ids;
        var k :| 0 <= k < |ids| && ids[k] == r;
      }
    }
    if NoneErrs(opts, w, ids) {
      forall r | r in w.plans ensures !Errs(opts, w, r) {
        assert r in ids;
        var k :| 0 <= k < |ids| && ids[k] == r;
      }
    }
  }

  /** A tick leaves everything as it is exactly when no lease has expired and every tracked
      run it gets to is quiet; what it reports then is whether it got to them all. */
  lemma TickChangesNothingExactlyWhenAllIsQuiet(opts: Options, w: World, now: int)
    requires Inv(w) && now != 0
    ensures Tick(opts, w, now).w == w <==> NoneExpired(w, now) && AllQuiet(opts, w, now)
    ensures Tick(opts, w, now).w == w ==> (Tick(opts, w, now).ok <==> forall r :: r in w.plans ==> !Errs(opts, w, r))
  {
    hide Inv, Structure, Quiet, Errs, ReapExpiredLeases, Grows, NoneErrs, AllQuiet, RestsUpTo, TrackedBelow;
    InvHasStructure(w);
    NothingToReap(w, now);
    ReachedInOrder(opts, w, now);
    var ids := TrackedRuns(w);
    if NoneExpired(w, now) && AllQuiet(opts, w, now) {
      RestingRunsTickInVain(opts, w, ids, now);
    }
    if Tick(opts, w, now).w == w {
      var reaped := ReapExpiredLeases(w, now);
      TickRunsGrow(opts, reaped, TrackedRuns(reaped), now);
      if !NoneExpired(w, now) {
        LogNeverShortens(reaped, w);
        assert false;
      }
      SilentRuns(opts, w, ids, now);
    }
  }

  lemma LogNeverShortens(a: World, b: World)
    requires Grows(a, b)
    ensures |a.events| <= |b.events|
  {
  }
}
