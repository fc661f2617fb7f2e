/** A second tick at the same instant: what can still be due in a run after the first, what
    a run at rest is, that a tick leaves such a run alone, and that no step of one run's
    tick touches another run or its jobs as long as no job is displaced across runs. */
module Settling {
  import opened Model
  import opened Retry
  import opened Entities
  import opened Steps
  import opened Invariants
  import opened Moves
  import opened Attempts
  import opened Sweeps
  import opened Admissions
  import opened EntryPoints

  // ------------------------------------------------------------- Runs at rest

  /** Every leg of a needed job is listed before the job that needs it. */
  ghost predicate ListedInOrder(jobs: seq<Job>) {
    forall k, m :: 0 <= k < |jobs| && 0 <= m < |jobs| && jobs[m].key in jobs[k].needs ==> m < k
  }

  /** No budget of the job has run out. */
  ghost predicate WithinBudget(opts: Options, w: World, j: Job, now: int) {
    j.status.InProgress? && j.startedAt.Some? ==>
      && !(j.setupCompletedAt.None? && now - j.startedAt.value > opts.setupTimeout)
      && !SomeStepOverdue(w, j, now)
      && now - j.startedAt.value <= JobBudget(opts, j)
  }

  ghost predicate LegsSettled(p: Plan, jobs: seq<Job>, key: string) {
    FailsFast(p, jobs, key) ==> forall k :: 0 <= k < |jobs| && jobs[k].key == key ==> jobs[k].status.Completed?
  }

  /** Another job holds the job's concurrency group. */
  ghost predicate GroupIsHeld(w: World, j: Job) {
    j.group != "" && exists id :: id in w.jobs && id != j.id && w.jobs[id].group == j.group && Holds(w.jobs[id])
  }

  ghost predicate SlotsFull(pj: PlannedJob, inFlight: map<string, int>, j: Job) {
    pj.maxParallel > 0 && Count(inFlight, j.key) >= pj.maxParallel
  }

  /** A look at the pending job ends the pass with an error. */
  ghost predicate Failing(opts: Options, run: Run, p: Plan, jobs: seq<Job>, j: Job) {
    var found := Find(p.jobs, j.key, j.matrixKey);
    found.None?
    || (var needs := ComputeNeeds(found.value, jobs, run.cancel.Some?);
        needs.NeedsError? || (needs.state.ready && ShouldRun(opts, p, found.value, needs.state).None?))
  }

  /** The needs are done and the condition says run. */
  ghost predicate Wanted(opts: Options, run: Run, p: Plan, jobs: seq<Job>, j: Job) {
    var found := Find(p.jobs, j.key, j.matrixKey);
    && found.Some?
    && (var needs := ComputeNeeds(found.value, jobs, run.cancel.Some?);
        needs.NeedsOk? && needs.state.ready && ShouldRun(opts, p, found.value, needs.state) == Some(true))
  }

  /** A pending job that waits for its needs, for a slot, or for its group. */
  ghost predicate Stuck(opts: Options, run: Run, p: Plan, w: World, jobs: seq<Job>, inFlight: map<string, int>, j: Job) {
    var found := Find(p.jobs, j.key, j.matrixKey);
    && found.Some?
    && (var needs := ComputeNeeds(found.value, jobs, run.cancel.Some?);
        && needs.NeedsOk?
        && (needs.state.ready ==>
             && ShouldRun(opts, p, found.value, needs.state) == Some(true)
             && (SlotsFull(found.value, inFlight, j) || (j.status.Waiting? && GroupIsHeld(w, j)))))
  }

  /** The job has a slot and would cancel whatever holds its group: it waits only because
      the group was taken earlier in the pass, and the next pass has forgotten that. */
  ghost predicate PassedOver(opts: Options, run: Run, p: Plan, w: World, jobs: seq<Job>, inFlight: map<string, int>, j: Job) {
    && Wanted(opts, run, p, jobs, j)
    && (var pj := Find(p.jobs, j.key, j.matrixKey).value; pj.cancelInProgress && !SlotsFull(pj, inFlight, j))
    && GroupIsHeld(w, j)
  }

  /** Where a pass from the i-th job on would stop. */
  ghost function FirstFailing(opts: Options, run: Run, p: Plan, jobs: seq<Job>, i: nat): (n: nat)
    requires i <= |jobs|
    ensures i <= n <= |jobs|
    ensures forall k :: i <= k < n && Pending(jobs[k]) ==> !Failing(opts, run, p, jobs, jobs[k])
    ensures n < |jobs| ==> Pending(jobs[n]) && Failing(opts, run, p, jobs, jobs[n])
    decreases |jobs| - i
  {
    if i == |jobs| || (Pending(jobs[i]) && Failing(opts, run, p, jobs, jobs[i])) then i
    else FirstFailing(opts, run, p, jobs, i + 1)
  }

  /** A tick of the run is stopped by a job whose needs or condition make no sense. */
  ghost predicate Errs(opts: Options, w: World, r: int) {
    r in w.runs && r in w.plans
    && (var run, p, jobs := w.runs[r], w.plans[r], JobsOf(w, r);
        RunGroupBlocked(w, run, p) == Some(false) && FirstFailing(opts, run, p, jobs, 0) < |jobs|)
  }

  /** Nobody the pass of the run gets to look at is passed over. */
  ghost predicate NobodyPassedOver(opts: Options, w: World, r: int) {
    r in w.runs && r in w.plans ==>
      var run, p, jobs := w.runs[r], w.plans[r], JobsOf(w, r);
      RunGroupBlocked(w, run, p) == Some(false) ==>
        forall k :: 0 <= k < FirstFailing(opts, run, p, jobs, 0) && Pending(jobs[k]) ==>
          !PassedOver(opts, run, p, w, jobs, CountInFlight(jobs), jobs[k])
  }

  /** The pending jobs a pass of the run gets to look at are all stuck. */
  ghost predicate AllStuck(opts: Options, w: World, r: int) {
    r in w.runs && r in w.plans
    && (var run, p, jobs := w.runs[r], w.plans[r], JobsOf(w, r);
        var blocked := RunGroupBlocked(w, run, p);
        && blocked.Some?
        && (blocked == Some(false) ==>
             forall k :: 0 <= k < FirstFailing(opts, run, p, jobs, 0) && Pending(jobs[k]) ==>
               Stuck(opts, run, p, w, jobs, CountInFlight(jobs), jobs[k])))
  }

  /** Nothing is due in the run but, perhaps, a job that was passed over. */
  ghost predicate Steady(opts: Options, w: World, r: int, now: int) {
    && r in w.runs && !w.runs[r].status.Completed? && r in w.plans
    && !RunOverdue(opts, w.runs[r], now)
    && (var p, jobs := w.plans[r], JobsOf(w, r);
        && (forall k :: 0 <= k < |jobs| ==> WithinBudget(opts, w, jobs[k], now))
        && (forall key :: LegsSettled(p, jobs, key))
        && AllStuck(opts, w, r)
        && (Errs(opts, w, r) || !AllCompleted(jobs)))
  }

  /** Nothing at all is due in the run at that instant. */
  ghost predicate Quiet(opts: Options, w: World, r: int, now: int) {
    Steady(opts, w, r, now) && NobodyPassedOver(opts, w, r)
  }

  // ---------------------------------------------- A quiet run is left alone

  lemma {:induction false} QuietTimeouts(opts: Options, w: World, jobs: seq<Job>, i: nat, now: int)
    requires forall k :: 0 <= k < |jobs| ==> WithinBudget(opts, w, jobs[k], now)
    ensures TimeoutsFrom(opts, w, jobs, i, now) == Sweep(w, jobs, true)
    decreases |jobs| - i
  {
    hide SomeStepOverdue;
    if i < |jobs| {
      assert EnforceJobTimeout(opts, w, jobs[i], now) == Finished(w, jobs[i], true);
      assert jobs[i := jobs[i]] == jobs;
      QuietTimeouts(opts, w, jobs, i + 1, now);
    }
  }

  lemma {:induction false} QuietLegs(w: World, jobs: seq<Job>, key: string, k: nat, now: int)
    requires forall m :: 0 <= m < |jobs| && jobs[m].key == key ==> jobs[m].status.Completed?
    ensures CancelLegsFrom(w, jobs, key, k, now) == Sweep(w, jobs, true)
    decreases |jobs| - k
  {
    if k < |jobs| {
      QuietLegs(w, jobs, key, k + 1, now);
    }
  }

  lemma {:induction false} QuietFailFast(w: World, p: Plan, jobs: seq<Job>, keys: seq<string>, now: int)
    requires forall key :: LegsSettled(p, jobs, key)
    ensures FailFastFrom(w, p, jobs, keys, now) == Sweep(w, jobs, true)
    decreases |keys|
  {
    hide FailsFast, CancelLegsFrom;
    if keys != [] {
      assert LegsSettled(p, jobs, keys[0]);
      if FailsFast(p, jobs, keys[0]) {
        QuietLegs(w, jobs, keys[0], 0, now);
      }
      QuietFailFast(w, p, jobs, keys[1..], now);
    }
  }

  lemma HeldMeansHolders(w: World, j: Job)
    requires Structure(w)
    ensures j.group != "" ==>
      (GroupIsHeld(w, j) <==> HoldersOf(LiveBelow(w.jobs, w.nextJob, j.group), j.id) != [])
  {
    HoldersAreAll(w, j);
    var holders := HoldersOf(LiveBelow(w.jobs, w.nextJob, j.group), j.id);
    if j.group != "" && holders != [] {
      assert holders[0] in holders;
      assert holders[0] in LiveBelow(w.jobs, w.nextJob, j.group);
      LiveAreOfTheGroup(w.jobs, w.nextJob, j.group);
      assert GroupIsHeld(w, j);
    }
  }

  lemma {:induction false} LiveAreOfTheGroup(jobs: map<int, Job>, n: int, group: string)
    ensures forall j :: j in LiveBelow(jobs, n, group) ==> j.group == group
    decreases n
  {
    if n > 0 {
      LiveAreOfTheGroup(jobs, n - 1, group);
    }
  }

  lemma QuietLook(opts: Options, run: Run, p: Plan, i: nat, a: Admission, now: int)
    requires Structure(a.w) && i < |a.jobs| && a.taken == {} && Pending(a.jobs[i])
    requires Stuck(opts, run, p, a.w, a.jobs, a.inFlight, a.jobs[i])
    requires !PassedOver(opts, run, p, a.w, a.jobs, a.inFlight, a.jobs[i])
    ensures AdmitOne(opts, run, p, i, a, now) == a
  {
    hide Structure, ComputeNeeds, ShouldRun, FinishAttempt, Find, LiveBelow, HoldersOf, DisplaceAll, AdmitToQueue;
    var j := a.jobs[i];
    HeldMeansHolders(a.w, j);
    assert a.jobs[i := j] == a.jobs;
  }

  lemma {:induction false} QuietAdmission(opts: Options, run: Run, p: Plan, i: nat, a: Admission, now: int)
    requires Structure(a.w) && a.ok && a.taken == {} && i <= |a.jobs|
    requires forall k :: 0 <= k < FirstFailing(opts, run, p, a.jobs, i) && Pending(a.jobs[k]) ==>
      Stuck(opts, run, p, a.w, a.jobs, a.inFlight, a.jobs[k]) && !PassedOver(opts, run, p, a.w, a.jobs, a.inFlight, a.jobs[k])
    ensures AdmitFrom(opts, run, p, i, a, now) == a.(ok := FirstFailing(opts, run, p, a.jobs, i) == |a.jobs|)
    decreases |a.jobs| - i
  {
    hide Structure, ComputeNeeds, ShouldRun, AdmitToGroup, FinishAttempt, Stuck, PassedOver, Find;
    if i < |a.jobs| {
      if FirstFailing(opts, run, p, a.jobs, i) > i {
        if Pending(a.jobs[i]) {
          QuietLook(opts, run, p, i, a, now);
        }
        assert AdmitOne(opts, run, p, i, a, now) == a;
        QuietAdmission(opts, run, p, i + 1, a, now);
      } else {
        assert AdmitOne(opts, run, p, i, a, now) == a.(ok := false);
      }
    }
  }

  lemma QuietRunIsLeftAlone(opts: Options, w: World, r: int, now: int)
    requires Structure(w) && Quiet(opts, w, r, now)
    ensures TickRun(opts, w, r, now) == Outcome(w, !Errs(opts, w, r))
  {
    hide Structure, RunOverdue, TimeoutsFrom, FailFastFrom, AdmitFrom, LegsSettled, Stuck, PassedOver, WithinBudget, FirstFailing,
      RunGroupBlocked;
    var run, p, jobs := w.runs[r], w.plans[r], JobsOf(w, r);
    QuietTimeouts(opts, w, jobs, 0, now);
    QuietFailFast(w, p, jobs, KeysOf(jobs), now);
    if RunGroupBlocked(w, run, p) == Some(false) {
      QuietAdmission(opts, run, p, 0, Admission(w, jobs, CountInFlight(jobs), {}, true), now);
    }
  }

  // ------------------------------------------------------ What one run touches

  /** Only run r, its jobs and their rows differ, and no lease is new. */
  ghost predicate OnlyRun(w: World, w': World, r: int) {
    && w'.steps == w.steps && w'.nextRun == w.nextRun && w'.nextJob == w.nextJob && w'.origin == w.origin
    && (forall k :: k != r ==> (k in w'.runs <==> k in w.runs) && (k in w'.plans <==> k in w.plans))
    && (forall k :: k != r && k in w.runs ==> w'.runs[k] == w.runs[k])
    && (forall k :: k != r && k in w.plans ==> w'.plans[k] == w.plans[k])
    && (r in w'.plans ==> r in w.plans && w'.plans[r] == w.plans[r])
    && w'.jobs.Keys == w.jobs.Keys
    && (forall id :: id in w.jobs ==> w'.jobs[id].runID == w.jobs[id].runID)
    && (forall id :: id in w.jobs && w.jobs[id].runID != r ==>
         && w'.jobs[id] == w.jobs[id]
         && (id in w'.stepTimeouts <==> id in w.stepTimeouts)
         && (id in w.stepTimeouts ==> w'.stepTimeouts[id] == w.stepTimeouts[id]))
    && (forall id :: id in w'.queue && w'.queue[id].leased ==> id in w.queue && w.queue[id] == w'.queue[id])
  }

  lemma OnlyRunTransitive(a: World, b: World, c: World, r: int)
    requires OnlyRun(a, b, r) && OnlyRun(b, c, r)
    ensures OnlyRun(a, c, r)
  {
  }

  lemma OnlyRunReflexive(w: World, r: int)
    ensures OnlyRun(w, w, r)
  {
  }

  ghost predicate Own(w: World, j: Job, r: int) {
    j.id in w.jobs && w.jobs[j.id].runID == r && j.runID == r
  }

  lemma ConcludeTouches(w: World, j: Job, res: Result, now: int, r: int)
    requires Own(w, j, r)
    ensures OnlyRun(w, Conclude(w, j, res, now).w, r)
  {
  }

  lemma RetryTouches(w: World, pj: PlannedJob, j: Job, now: int, r: int)
    requires Own(w, j, r)
    ensures OnlyRun(w, RequeueForRetry(w, pj, j, now).w, r)
  {
    hide Delay;
  }

  lemma FinishTouches(w: World, pj: Option<PlannedJob>, j: Job, res: Result, now: int, allowRetry: bool, r: int)
    requires Own(w, j, r)
    ensures OnlyRun(w, FinishAttempt(w, pj, j, res, now, allowRetry).w, r)
  {
    hide Retries, Conclude, RequeueForRetry, OnlyRun;
    var noted, job := Noted(w, j, res, now), WithOutputs(j, res);
    NotedTouches(w, j, res, now, r);
    OnlyRunReflexive(w, r);
    ConcludeTouches(noted, job, res, now, r);
    OnlyRunTransitive(w, noted, Conclude(noted, job, res, now).w, r);
    if pj.Some? {
      RetryTouches(noted, pj.value, job, now, r);
      OnlyRunTransitive(w, noted, RequeueForRetry(noted, pj.value, job, now).w, r);
    }
  }

  lemma NotedTouches(w: World, j: Job, res: Result, now: int, r: int)
    ensures OnlyRun(w, Noted(w, j, res, now), r)
  {
    hide OnlyRun;
    OnlyRunReflexive(w, r);
    EmitTouches(w, JobEvent(Classified, j, now), r);
  }

  lemma EmitTouches(w: World, e: Event, r: int)
    ensures OnlyRun(w, Emit(w, e), r)
  {
  }

  lemma StopTouches(w: World, pj: Option<PlannedJob>, j: Job, reason: CancelReason, conclusion: Conclusion,
                    fault: FailureClass, now: int, allowRetry: bool, r: int)
    requires Own(w, j, r)
    ensures OnlyRun(w, StopJob(w, pj, j, reason, conclusion, fault, now, allowRetry).w, r)
  {
    hide FinishAttempt, OnlyRun;
    OnlyRunReflexive(w, r);
    FinishTouches(w, pj, j, Imposed(conclusion, fault, reason), now, allowRetry, r);
  }

  ghost predicate AllOwn(w: World, jobs: seq<Job>, r: int) {
    forall k :: 0 <= k < |jobs| ==> Own(w, jobs[k], r)
  }

  lemma OwnMoves(w: World, w': World, jobs: seq<Job>, i: nat, j: Job, r: int)
    requires AllOwn(w, jobs, r) && OnlyRun(w, w', r) && i < |jobs| && j.id == jobs[i].id && j.runID == jobs[i].runID
    ensures AllOwn(w', jobs[i := j], r)
  {
  }

  lemma StopKeepsId(w: World, pj: Option<PlannedJob>, j: Job, reason: CancelReason, conclusion: Conclusion,
                    fault: FailureClass, now: int, allowRetry: bool)
    ensures var f := StopJob(w, pj, j, reason, conclusion, fault, now, allowRetry);
      f.job.id == j.id && f.job.runID == j.runID
  {
    hide Delay, Retries;
  }

  lemma {:induction false} StopFromTouches(w: World, jobs: seq<Job>, i: nat, reason: CancelReason,
                                           conclusion: Conclusion, fault: FailureClass, now: int, r: int)
    requires AllOwn(w, jobs, r)
    ensures OnlyRun(w, StopFrom(w, jobs, i, reason, conclusion, fault, now).0, r)
    decreases |jobs| - i
  {
    hide StopJob, OnlyRun;
    OnlyRunReflexive(w, r);
    if i < |jobs| {
      if jobs[i].status.Completed? {
        StopFromTouches(w, jobs, i + 1, reason, conclusion, fault, now, r);
      } else {
        var f := StopJob(w, None, jobs[i], reason, conclusion, fault, now, false);
        StopTouches(w, None, jobs[i], reason, conclusion, fault, now, false, r);
        if f.ok {
          StopKeepsId(w, None, jobs[i], reason, conclusion, fault, now, false);
          OwnMoves(w, f.w, jobs, i, f.job, r);
          StopFromTouches(f.w, jobs[i := f.job], i + 1, reason, conclusion, fault, now, r);
          OnlyRunTransitive(w, f.w, StopFrom(f.w, jobs[i := f.job], i + 1, reason, conclusion, fault, now).0, r);
        }
      }
    }
  }

  lemma TimeoutTouches(opts: Options, w: World, j: Job, now: int, r: int)
    requires Own(w, j, r)
    ensures var f := EnforceJobTimeout(opts, w, j, now); OnlyRun(w, f.w, r) && f.job.id == j.id && f.job.runID == j.runID
  {
    hide StopJob, OnlyRun, SomeStepOverdue, Find;
    OnlyRunReflexive(w, r);
    var pj := if j.runID in w.plans then Find(w.plans[j.runID].jobs, j.key, j.matrixKey) else None;
    StopTouches(w, pj, j, Because(ActorTimeout), InfraFailure, ClassInfra, now, true, r);
    StopKeepsId(w, pj, j, Because(ActorTimeout), InfraFailure, ClassInfra, now, true);
    StopTouches(w, None, j, Because(ActorTimeout), TimedOut, ClassUser, now, false, r);
    StopKeepsId(w, None, j, Because(ActorTimeout), TimedOut, ClassUser, now, false);
  }

  lemma {:induction false} TimeoutsTouch(opts: Options, w: World, jobs: seq<Job>, i: nat, now: int, r: int)
    requires AllOwn(w, jobs, r)
    ensures var s := TimeoutsFrom(opts, w, jobs, i, now); OnlyRun(w, s.w, r)
    decreases |jobs| - i
  {
    hide EnforceJobTimeout, OnlyRun;
    OnlyRunReflexive(w, r);
    if i < |jobs| {
      var f := EnforceJobTimeout(opts, w, jobs[i], now);
      TimeoutTouches(opts, w, jobs[i], now, r);
      if f.ok {
        OwnMoves(w, f.w, jobs, i, f.job, r);
        TimeoutsTouch(opts, f.w, jobs[i := f.job], i + 1, now, r);
        OnlyRunTransitive(w, f.w, TimeoutsFrom(opts, f.w, jobs[i := f.job], i + 1, now).w, r);
      }
    }
  }

  lemma {:induction false} CancelLegsTouch(w: World, jobs: seq<Job>, key: string, k: nat, now: int, r: int)
    requires AllOwn(w, jobs, r)
    ensures var s := CancelLegsFrom(w, jobs, key, k, now); OnlyRun(w, s.w, r) && AllOwn(s.w, s.jobs, r)
    decreases |jobs| - k
  {
    hide StopJob, OnlyRun;
    OnlyRunReflexive(w, r);
    if k < |jobs| {
      if jobs[k].key != key || jobs[k].status.Completed? {
        CancelLegsTouch(w, jobs, key, k + 1, now, r);
      } else {
        var f := StopJob(w, None, jobs[k], Because(ActorDependencyFailed), Cancelled, ClassNone, now, false);
        StopTouches(w, None, jobs[k], Because(ActorDependencyFailed), Cancelled, ClassNone, now, false, r);
        StopKeepsId(w, None, jobs[k], Because(ActorDependencyFailed), Cancelled, ClassNone, now, false);
        OwnMoves(w, f.w, jobs, k, f.job, r);
        CancelLegsTouch(f.w, jobs[k := f.job], key, k + 1, now, r);
        OnlyRunTransitive(w, f.w, CancelLegsFrom(f.w, jobs[k := f.job], key, k + 1, now).w, r);
      }
    }
  }

  lemma {:induction false} FailFastTouches(w: World, p: Plan, jobs: seq<Job>, keys: seq<string>, now: int, r: int)
    requires AllOwn(w, jobs, r)
    ensures var s := FailFastFrom(w, p, jobs, keys, now); OnlyRun(w, s.w, r) && AllOwn(s.w, s.jobs, r)
    decreases |keys|
  {
    hide CancelLegsFrom, OnlyRun, FailsFast;
    OnlyRunReflexive(w, r);
    if keys != [] {
      if FailsFast(p, jobs, keys[0]) {
        CancelLegsTouch(w, jobs, keys[0], 0, now, r);
        var s := CancelLegsFrom(w, jobs, keys[0], 0, now);
        FailFastTouches(s.w, p, s.jobs, keys[1..], now, r);
        OnlyRunTransitive(w, s.w, FailFastFrom(s.w, p, s.jobs, keys[1..], now).w, r);
      } else {
        FailFastTouches(w, p, jobs, keys[1..], now, r);
      }
    }
  }

  lemma HoldTouches(w: World, j: Job, now: int, r: int)
    requires Own(w, j, r)
    ensures OnlyRun(w, HoldForGroup(w, j, now).w, r)
  {
    hide OnlyRun;
    OnlyRunReflexive(w, r);
    var held := j.(status := Waiting);
    PutTouches(w, held, r);
    EmitTouches(PutJob(w, held), JobEvent(JobWaiting, held, now), r);
    OnlyRunTransitive(w, PutJob(w, held), Emit(PutJob(w, held), JobEvent(JobWaiting, held, now)), r);
  }

  lemma QueueTouches(w: World, j: Job, now: int, r: int)
    requires Own(w, j, r)
    ensures OnlyRun(w, AdmitToQueue(w, j, now).w, r)
  {
    hide OnlyRun;
    var queued := j.(status := Queued, queuedAt := Some(now));
    var put := PutJob(w, queued);
    PutTouches(w, queued, r);
    EnqueueTouches(put, queued, now, r);
    OnlyRunTransitive(w, put, Enqueue(put, queued, now, None), r);
    EmitTouches(Enqueue(put, queued, now, None), JobEvent(JobQueued, queued, now), r);
    OnlyRunTransitive(w, Enqueue(put, queued, now, None), AdmitToQueue(w, j, now).w, r);
  }

  lemma PutTouches(w: World, j: Job, r: int)
    requires Own(w, j, r)
    ensures OnlyRun(w, PutJob(w, j), r)
  {
  }

  lemma EnqueueTouches(w: World, j: Job, now: int, r: int)
    requires Own(w, j, r)
    ensures OnlyRun(w, Enqueue(w, j, now, None), r)
  {
    hide OnlyRun;
    if j.id in w.queue {
      OnlyRunReflexive(w, r);
    } else {
      var w' := Enqueue(w, j, now, None);
      assert w' == w.(queue := w.queue[j.id := w'.queue[j.id]], jobs := w.jobs[j.id := w'.jobs[j.id]]);
      NewRowTouches(w, j.id, w'.jobs[j.id], w'.queue[j.id], r);
    }
  }

  lemma NewRowTouches(w: World, id: int, j: Job, row: Row, r: int)
    requires id in w.jobs && w.jobs[id].runID == j.runID == r && !row.leased
    ensures OnlyRun(w, w.(queue := w.queue[id := row], jobs := w.jobs[id := j]), r)
  {
  }

  lemma FinalizeTouches(w: World, run: Run, jobs: seq<Job>, now: int)
    ensures OnlyRun(w, FinalizeIfComplete(w, run, jobs, now).w, run.id)
  {
    hide Conclusions, Aggregate, OnlyRun, AllCompleted;
    OnlyRunReflexive(w, run.id);
    if !(run.status.Completed? && run.completedAt.Some?) && AllCompleted(jobs) {
      var done := run.(status := Completed, conclusion := Aggregate(Conclusions(jobs)), completedAt := Some(now));
      ClosingTouches(w, done, Event(RunCompleted, run.id, 0, 0, now, 0));
    }
  }

  lemma ClosingTouches(w: World, done: Run, e: Event)
    ensures var put := Emit(PutRun(w, done), e); OnlyRun(w, put.(plans := put.plans - {done.id}), done.id)
  {
  }
}
