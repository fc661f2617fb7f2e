/** Who runs out of time, and who is stopped because a sibling failed: exactly whom each sweep of a
    tick reaches, in the units of the configuration, and what becomes of them. */
module Budgets {
  import opened Model
  import opened Entities
  import opened Steps
  import opened Invariants
  import opened Moves
  import opened Attempts
  import opened Sweeps
  import opened Admissions
  import opened EntryPoints
  import opened Unchanged
  import opened Effects

  // ----------------------------------------------------------------- One job

  predicate Running(j: Job) {
    j.status.InProgress? && j.startedAt.Some?
  }

  predicate SetupLate(opts: Options, j: Job, now: int) {
    Running(j) && j.setupCompletedAt.None? && now - j.startedAt.value > opts.setupTimeout
  }

  /** A step of the running attempt has overrun the budget that was issued for it. */
  ghost predicate StepLate(w: World, j: Job, now: int) {
    && j.id in w.stepTimeouts && (j.id, j.attempt) in w.steps
    && exists s :: s in w.steps[(j.id, j.attempt)] && Overrun(s, w.stepTimeouts[j.id], now)
  }

  /** A step with a budget has been running for longer than that. */
  predicate Overrun(s: Step, budgets: map<int, int>, now: int) {
    s.number in budgets && s.status == InProgress && s.startedAt != None && budgets[s.number] > 0
    && now > s.startedAt.value + budgets[s.number]
  }

  /** A job's own budget is in minutes; without one it has the default, in nanoseconds. */
  predicate JobLate(opts: Options, j: Job, now: int) {
    Running(j) && now - j.startedAt.value > if j.timeoutMinutes == 0 then opts.defaultJobTimeout else 60_000_000_000 * j.timeoutMinutes
  }

  /** The policy has another attempt for a failure of the infrastructure. */
  predicate MayRetry(j: Job, pj: PlannedJob) {
    ClassInfra in pj.retry.on && j.infraRetryCount + 1 < pj.retry.attempts
  }

  /** The next attempt after a failure of the infrastructure. */
  function TriedAgain(j: Job, now: int): Job {
    OneMoreTime(j, now).(infraRetryCount := j.infraRetryCount + 1)
  }

  lemma StepOverdueMeansLate(w: World, j: Job, now: int)
    ensures SomeStepOverdue(w, j, now) <==> StepLate(w, j, now)
  {
    if SomeStepOverdue(w, j, now) {
      var s :| s in StepsOf(w, j.id, j.attempt) && StepOverdue(s, w.stepTimeouts[j.id], now);
      assert Overrun(s, w.stepTimeouts[j.id], now);
    }
    if StepLate(w, j, now) {
      var s :| s in w.steps[(j.id, j.attempt)] && Overrun(s, w.stepTimeouts[j.id], now);
      assert StepOverdue(s, w.stepTimeouts[j.id], now);
    }
  }

  lemma TimedRetryShape(w: World, pj: PlannedJob, j: Job, now: int)
    requires InStep(w, j)
    ensures var f := StopJob(w, Some(pj), j, Because(ActorTimeout), InfraFailure, ClassInfra, now, true);
      && f.ok && f.w.jobs == w.jobs[j.id := f.job]
      && f.job == if MayRetry(j, pj) then TriedAgain(j, now) else Stopped(j, InfraFailure, ClassInfra, Because(ActorTimeout), now)
  {
    hide Conclude, RequeueForRetry, Stopped, TriedAgain;
    RetriedShape(w, pj, j, now);
    EndedShape(w, j, Imposed(InfraFailure, ClassInfra, Because(ActorTimeout)), now);
  }

  lemma RetriedShape(w: World, pj: PlannedJob, j: Job, now: int)
    requires InStep(w, j)
    ensures var f := RequeueForRetry(w, pj, j, now); f.ok && f.job == TriedAgain(j, now) && f.w.jobs == w.jobs[j.id := f.job]
  {
    hide Retry.Delay;
  }

  lemma EndedShape(w: World, j: Job, res: Result, now: int)
    requires res.cancel.Some?
    ensures var f := Conclude(w, j, res, now);
      && f.ok && f.job == Stopped(j, res.conclusion, res.fault, res.cancel.value, now) && f.w.jobs == w.jobs[j.id := f.job]
  {
  }

  /** A running job is stopped exactly when its setup, one of its steps or the job itself has
      overrun its budget, in this order of blame: late setup is the platform's failure and is
      retried while the policy allows; the rest is the job's own. */
  lemma StoppedExactlyWhenOutOfTime(opts: Options, w: World, j: Job, now: int, pj: PlannedJob)
    requires Inv(w) && InStep(w, j) && j.runID in w.plans && PlannedAs(w, j, pj)
    ensures var f := EnforceJobTimeout(opts, w, j, now);
      && f.ok && f.w.jobs == w.jobs[j.id := f.job]
      && f.job == (if SetupLate(opts, j, now)
                   then if MayRetry(j, pj) then TriedAgain(j, now) else Stopped(j, InfraFailure, ClassInfra, Because(ActorTimeout), now)
                   else if Running(j) && (StepLate(w, j, now) || JobLate(opts, j, now))
                   then Stopped(j, TimedOut, ClassUser, Because(ActorTimeout), now)
                   else j)
      && (f.job == j ==> f.w == w)
  {
    hide Inv, StopJob, SomeStepOverdue, StepLate, Find, Stopped, TriedAgain;
    InvHasStructure(w);
    PlansOf(w);
    StepOverdueMeansLate(w, j, now);
    TimedRetryShape(w, pj, j, now);
    StopShape(w, j, Because(ActorTimeout), TimedOut, ClassUser, now);
    assert Find(w.plans[j.runID].jobs, j.key, j.matrixKey) == Some(pj);
    assert w.jobs[j.id := j] == w.jobs;
    EndedIsOther(j, InfraFailure, ClassInfra, now);
    EndedIsOther(j, TimedOut, ClassUser, now);
  }

  lemma EndedIsOther(j: Job, conclusion: Conclusion, fault: FailureClass, now: int)
    ensures j.status.InProgress? ==> Stopped(j, conclusion, fault, Because(ActorTimeout), now) != j && TriedAgain(j, now) != j
  {
  }

  // ---------------------------------------------------------------- The sweep

  /** Nothing that the budgets of job id depend on has changed. */
  ghost predicate SameBudgets(w: World, w': World, id: int) {
    && w'.plans == w.plans && w'.steps == w.steps
    && (id in w.stepTimeouts <==> id in w'.stepTimeouts)
    && (id in w.stepTimeouts ==> w'.stepTimeouts[id] == w.stepTimeouts[id])
  }

  lemma StoppingSparesOtherBudgets(opts: Options, w: World, j: Job, now: int, id: int)
    requires id != j.id
    ensures SameBudgets(w, EnforceJobTimeout(opts, w, j, now).w, id)
  {
    hide SomeStepOverdue, JobBudget, Find, StopJob;
    var pj := if j.runID in w.plans then Find(w.plans[j.runID].jobs, j.key, j.matrixKey) else None;
    EndingSparesOtherBudgets(w, pj, j, Imposed(InfraFailure, ClassInfra, Because(ActorTimeout)), now, true, id);
    EndingSparesOtherBudgets(w, None, j, Imposed(TimedOut, ClassUser, Because(ActorTimeout)), now, false, id);
    StoppingIsEnding(w, pj, j, now);
  }

  lemma StoppingIsEnding(w: World, pj: Option<PlannedJob>, j: Job, now: int)
    ensures StopJob(w, pj, j, Because(ActorTimeout), InfraFailure, ClassInfra, now, true)
         == FinishAttempt(w, pj, j, Imposed(InfraFailure, ClassInfra, Because(ActorTimeout)), now, true)
    ensures StopJob(w, None, j, Because(ActorTimeout), TimedOut, ClassUser, now, false)
         == FinishAttempt(w, None, j, Imposed(TimedOut, ClassUser, Because(ActorTimeout)), now, false)
  {
    hide FinishAttempt;
  }

  lemma EndingSparesOtherBudgets(w: World, pj: Option<PlannedJob>, j: Job, res: Result, now: int, allowRetry: bool, id: int)
    requires id != j.id && res.classReason == "" && res.outputs.None?
    ensures SameBudgets(w, FinishAttempt(w, pj, j, res, now, allowRetry).w, id)
  {
    hide Conclude, RequeueForRetry, Retry.Retries;
    ConcludingSpares(w, j, res, now, id);
    if pj.Some? {
      RetryingSpares(w, pj.value, j, now, id);
    }
  }

  lemma ConcludingSpares(w: World, j: Job, res: Result, now: int, id: int)
    requires id != j.id
    ensures SameBudgets(w, Conclude(w, j, res, now).w, id)
  {
  }

  lemma RetryingSpares(w: World, pj: PlannedJob, j: Job, now: int, id: int)
    requires id != j.id
    ensures SameBudgets(w, RequeueForRetry(w, pj, j, now).w, id)
  {
    hide Retry.Delay;
  }

  lemma BudgetsDecide(opts: Options, w: World, w': World, j: Job, now: int)
    requires SameBudgets(w, w', j.id)
    ensures EnforceJobTimeout(opts, w', j, now).job == EnforceJobTimeout(opts, w, j, now).job
  {
    hide Find, Retry.Delay, Retry.Retries;
    assert SomeStepOverdue(w', j, now) <==> SomeStepOverdue(w, j, now);
  }

  lemma {:induction false} SweepSparesTheRest(opts: Options, w: World, jobs: seq<Job>, i: nat, now: int, r: int, id: int)
    requires Inv(w) && Exact(w, jobs, r) && id in w.jobs && forall k :: i <= k < |jobs| ==> jobs[k].id != id
    ensures var w' := TimeoutsFrom(opts, w, jobs, i, now).w; id in w'.jobs && w'.jobs[id] == w.jobs[id]
    decreases |jobs| - i
  {
    hide Inv, EnforceJobTimeout, Snapshot, Updates;
    if i < |jobs| {
      assert InStep(w, jobs[i]);
      TimeoutKeepsInv(opts, w, jobs[i], now);
      var f := EnforceJobTimeout(opts, w, jobs[i], now);
      EnforceSameId(opts, w, jobs[i], now);
      OneStepSpares(w, f.w, f.job, jobs[i], id);
      if f.ok {
        NextList(w, f.w, jobs, i, f.job, r);
        SweepSparesTheRest(opts, f.w, jobs[i := f.job], i + 1, now, r, id);
      }
    }
  }

  lemma OneStepSpares(w: World, w': World, j': Job, j: Job, id: int)
    requires ((w' == w && j' == j) || Updates(w, w', j')) && j'.id == j.id != id && id in w.jobs
    ensures id in w'.jobs && w'.jobs[id] == w.jobs[id]
  {
  }

  lemma NextList(w: World, w': World, jobs: seq<Job>, i: nat, j: Job, r: int)
    requires Inv(w) && Exact(w, jobs, r) && i < |jobs| && j.id == jobs[i].id
    requires (w' == w && j == jobs[i]) || Updates(w, w', j)
    ensures Exact(w', jobs[i := j], r)
  {
    hide Inv, Snapshot, Updates;
    if w' == w && j == jobs[i] {
      assert jobs[i := j] == jobs;
    } else {
      InvHasStructure(w);
      SnapshotMoves(w, w', jobs, i, j, r);
    }
  }

  /** The sweep over a run's jobs treats each as if it were alone. */
  lemma {:induction false} SweepTreatsEachAlone(opts: Options, w: World, jobs: seq<Job>, i: nat, now: int, r: int, m: nat)
    requires Inv(w) && Exact(w, jobs, r) && i <= m < |jobs| && TimeoutsFrom(opts, w, jobs, i, now).ok
    ensures var w' := TimeoutsFrom(opts, w, jobs, i, now).w; var id := jobs[m].id;
      id in w'.jobs && w'.jobs[id] == EnforceJobTimeout(opts, w, jobs[m], now).job
    decreases |jobs| - i
  {
    hide Inv, EnforceJobTimeout, Snapshot, Updates, SameBudgets;
    assert InStep(w, jobs[i]);
    TimeoutKeepsInv(opts, w, jobs[i], now);
    InvHasStructure(w);
    SnapshotFacts(w, jobs, r);
    var f := EnforceJobTimeout(opts, w, jobs[i], now);
    EnforceSameId(opts, w, jobs[i], now);
    NextList(w, f.w, jobs, i, f.job, r);
    var rest := jobs[i := f.job];
    if i == m {
      FirstIsTreated(w, f.w, f.job, jobs[i]);
      SweepSparesTheRest(opts, f.w, rest, i + 1, now, r, f.job.id);
    } else {
      StoppingSparesOtherBudgets(opts, w, jobs[i], now, jobs[m].id);
      BudgetsDecide(opts, w, f.w, jobs[m], now);
      SweepTreatsEachAlone(opts, f.w, rest, i + 1, now, r, m);
    }
  }

  lemma FirstIsTreated(w: World, w': World, j': Job, j: Job)
    requires ((w' == w && j' == j) || Updates(w, w', j')) && InStep(w, j) && j'.id == j.id
    ensures j'.id in w'.jobs && w'.jobs[j'.id] == j'
  {
  }

  // ------------------------------------------------------------------ One run

  /** A run is timed from its start, or from its creation if it has none. */
  predicate RunLate(opts: Options, run: Run, now: int) {
    if run.startedAt.Some? then run.startedAt.value != 0 && now - run.startedAt.value > opts.runTimeout
    else run.createdAt != 0 && now - run.createdAt > opts.runTimeout
  }

  /** A tick stops all jobs of a run and closes it, for the time it took, exactly when it has
      taken too long; otherwise the run comes out of the tick without a reason to be over. */
  lemma LateRunsAreClosed(opts: Options, w: World, r: int, now: int)
    requires Inv(w) && r in w.runs && r in w.plans && !w.runs[r].status.Completed?
    ensures var w' := TickRun(opts, w, r, now).w;
      if RunLate(opts, w.runs[r], now)
      then JobsStopped(w, w', Unfinished(w, r), TimedOut, ClassUser, Because(ActorTimeout), now)
           && RunClosed(w, w', r, Because(ActorTimeout), now)
      else r in w'.runs && w'.runs[r].cancel.None?
  {
    hide Inv, Structure, Snapshot, JobsOf, StopFrom, JobsStopped, OpenFrom, Unfinished, FinalizeIfComplete, TimeoutsFrom,
      FailFastFrom, AdmitReadyJobs, KeysOf;
    InvHasStructure(w);
    RunFacts(w, r);
    NotCancelled(w, r);
    ListingIsExact(w, r);
    var run, jobs, reason := w.runs[r], JobsOf(w, r), Because(ActorTimeout);
    if RunLate(opts, run, now) {
      OpenAreUnfinished(w, jobs, r);
      StoppingTheTail(w, jobs, 0, TimedOut, ClassUser, reason, now);
      StopFromKeepsInv(w, jobs, 0, reason, TimedOut, ClassUser, now, r);
      var s := StopFrom(w, jobs, 0, reason, TimedOut, ClassUser, now);
      ClosingShape(s.0, run.(cancel := Some(reason)), s.1, now);
      StoppedThenClosed(w, s.0, FinalizeIfComplete(s.0, run.(cancel := Some(reason)), s.1, now).w, Unfinished(w, r), TimedOut,
                        ClassUser, reason, now);
    } else {
      RestSameRuns(opts, w, run, w.plans[r], jobs, now);
    }
  }

  lemma RestSameRuns(opts: Options, w: World, run: Run, p: Plan, jobs: seq<Job>, now: int)
    requires Inv(w) && run.id in w.runs && run == w.runs[run.id] && run.cancel.None? && Exact(w, jobs, run.id)
    ensures var t := TimeoutsFrom(opts, w, jobs, 0, now);
      var f := FailFastFrom(t.w, p, t.jobs, KeysOf(t.jobs), now);
      var a := AdmitReadyJobs(opts, f.w, run, p, f.jobs, now);
      var w' := FinalizeIfComplete(a.w, run, a.jobs, now).w;
      && SameRuns(w, t.w) && (t.ok ==> SameRuns(w, a.w) && w'.runs.Keys == w.runs.Keys && w'.runs[run.id].cancel.None?)
  {
    hide Inv, Snapshot, TimeoutsFrom, FailFastFrom, AdmitReadyJobs, KeysOf, Conclusions, Aggregate;
    TimeoutsKeepInv(opts, w, jobs, 0, now, run.id);
    var t := TimeoutsFrom(opts, w, jobs, 0, now);
    if t.ok {
      FailFastKeepsInv(t.w, p, t.jobs, KeysOf(t.jobs), now, run.id);
      var f := FailFastFrom(t.w, p, t.jobs, KeysOf(t.jobs), now);
      AdmissionSameRuns(opts, f.w, run, p, f.jobs, now);
    }
  }

  // ---------------------------------------------------------------- Fail-fast

  /** A leg that is done and failed, and whose failure is not to be overlooked. */
  predicate Spoiled(j: Job) {
    && j.status == Completed && !j.continueOnError
    && j.conclusion in {Failure, TimedOut, InfraFailure, ConfigError, ActionRequired}
  }

  predicate FirstOf(jobs: seq<Job>, key: string, k: nat) {
    k < |jobs| && jobs[k].key == key && forall m :: 0 <= m < k ==> jobs[m].key != key
  }

  ghost predicate TwoLegs(jobs: seq<Job>, key: string) {
    exists a, b :: 0 <= a < b < |jobs| && jobs[a].key == key && jobs[b].key == key
  }

  ghost predicate SpoiledLeg(jobs: seq<Job>, key: string) {
    exists k :: 0 <= k < |jobs| && jobs[k].key == key && Spoiled(jobs[k])
  }

  ghost predicate PlannedToFailFast(p: Plan, jobs: seq<Job>, key: string) {
    forall k: nat :: FirstOf(jobs, key, k) ==>
      var pj := Find(p.jobs, key, jobs[k].matrixKey); pj.Some? && pj.value.failFast
  }

  /** The job has two legs or more, one of them spoiled, and is planned to fail fast. */
  ghost predicate MustStop(p: Plan, jobs: seq<Job>, key: string) {
    TwoLegs(jobs, key) && SpoiledLeg(jobs, key) && PlannedToFailFast(p, jobs, key)
  }

  /** The unfinished legs of these jobs. */
  function LegsLeft(jobs: seq<Job>, keys: set<string>): (ids: set<int>) {
    set k | 0 <= k < |jobs| && jobs[k].key in keys && !jobs[k].status.Completed? :: jobs[k].id
  }

  ghost predicate SomeLeg(jobs: seq<Job>, key: string) {
    exists k :: 0 <= k < |jobs| && jobs[k].key == key
  }

  lemma OneLegMore(jobs: seq<Job>, key: string)
    requires jobs != []
    ensures SomeLeg(jobs, key) <==> jobs[0].key == key || SomeLeg(jobs[1..], key)
    ensures TwoLegs(jobs, key) <==> (jobs[0].key == key && SomeLeg(jobs[1..], key)) || TwoLegs(jobs[1..], key)
  {
    var rest := jobs[1..];
    assert forall k :: 0 <= k < |rest| ==> rest[k] == jobs[k + 1];
    if k :| 0 <= k < |rest| && rest[k].key == key {
      assert jobs[k + 1].key == key;
    }
    if a, b :| 0 <= a < b < |rest| && rest[a].key == key && rest[b].key == key {
      assert jobs[a + 1].key == key && jobs[b + 1].key == key;
    }
    if a, b :| 0 <= a < b < |jobs| && jobs[a].key == key && jobs[b].key == key {
      assert rest[b - 1].key == key;
      assert a > 0 ==> rest[a - 1].key == key;
    }
    if k :| 0 <= k < |jobs| && jobs[k].key == key {
      assert k > 0 ==> rest[k - 1].key == key;
    }
  }

  lemma {:induction false} CountOfLegs(jobs: seq<Job>, key: string)
    ensures |LegsOf(jobs, key)| >= 1 <==> SomeLeg(jobs, key)
    ensures |LegsOf(jobs, key)| >= 2 <==> TwoLegs(jobs, key)
    decreases |jobs|
  {
    if jobs != [] {
      CountOfLegs(jobs[1..], key);
      OneLegMore(jobs, key);
      hide SomeLeg, TwoLegs;
    }
  }

  lemma {:induction false} FirstLeg(jobs: seq<Job>, key: string) returns (k: nat)
    requires LegsOf(jobs, key) != []
    ensures FirstOf(jobs, key, k) && LegsOf(jobs, key)[0] == jobs[k]
    ensures forall m :: FirstOf(jobs, key, m) ==> m == k
    decreases |jobs|
  {
    if jobs[0].key == key {
      k := 0;
    } else {
      var m := FirstLeg(jobs[1..], key);
      k := m + 1;
      assert forall i :: 0 <= i < |jobs| - 1 ==> jobs[1..][i] == jobs[i + 1];
    }
  }

  lemma SpoiledLegIsListed(jobs: seq<Job>, key: string)
    ensures (exists l :: l in LegsOf(jobs, key) && FailedLeg(l)) <==> SpoiledLeg(jobs, key)
  {
    hide LegsOf;
    var legs := LegsOf(jobs, key);
    if l :| l in legs && FailedLeg(l) {
      var k :| 0 <= k < |jobs| && jobs[k] == l;
      assert Spoiled(jobs[k]);
    }
    if k :| 0 <= k < |jobs| && jobs[k].key == key && Spoiled(jobs[k]) {
      assert jobs[k] in legs && FailedLeg(jobs[k]);
    }
  }

  lemma FailingFastMeans(p: Plan, jobs: seq<Job>, key: string)
    ensures FailsFast(p, jobs, key) <==> MustStop(p, jobs, key)
  {
    hide LegsOf, Find, TwoLegs, SpoiledLeg, FirstOf, FailedLeg;
    CountOfLegs(jobs, key);
    SpoiledLegIsListed(jobs, key);
    if LegsOf(jobs, key) != [] {
      var k := FirstLeg(jobs, key);
      FirstIsThere(jobs, key, k);
    }
  }

  lemma FirstIsThere(jobs: seq<Job>, key: string, k: nat)
    requires FirstOf(jobs, key, k)
    ensures k < |jobs| && jobs[k].key == key
  {
  }

  /** The unfinished legs of a job from place k on. */
  function LegsLeftFrom(jobs: seq<Job>, key: string, k: nat): (ids: set<int>) {
    set m | k <= m < |jobs| && jobs[m].key == key && !jobs[m].status.Completed? :: jobs[m].id
  }

  lemma OneLegLess(jobs: seq<Job>, key: string, k: nat, j: Job)
    requires k < |jobs| && DistinctIds(jobs) && jobs[k].key == key && !jobs[k].status.Completed? && j.id == jobs[k].id
    ensures LegsLeftFrom(jobs, key, k) == {j.id} + LegsLeftFrom(jobs[k := j], key, k + 1)
    ensures j.id !in LegsLeftFrom(jobs[k := j], key, k + 1) && DistinctIds(jobs[k := j])
  {
    var rest := jobs[k := j];
    assert forall m :: k < m < |jobs| ==> rest[m] == jobs[m];
  }

  lemma NoLegHere(jobs: seq<Job>, key: string, k: nat)
    requires k < |jobs| && (jobs[k].key != key || jobs[k].status.Completed?)
    ensures LegsLeftFrom(jobs, key, k) == LegsLeftFrom(jobs, key, k + 1)
  {
  }

  lemma NoLegsPastTheEnd(jobs: seq<Job>, key: string)
    ensures LegsLeftFrom(jobs, key, |jobs|) == {}
  {
  }

  lemma {:induction false} CancellingLegs(w: World, jobs: seq<Job>, key: string, k: nat, now: int)
    requires k <= |jobs| && DistinctIds(jobs) && forall m :: 0 <= m < |jobs| ==> InStep(w, jobs[m])
    ensures var s := CancelLegsFrom(w, jobs, key, k, now);
      && JobsStopped(w, s.w, LegsLeftFrom(jobs, key, k), Cancelled, ClassNone, Because(ActorDependencyFailed), now)
      && SameRuns(w, s.w)
      && (forall m :: 0 <= m < |jobs| ==> InStep(s.w, s.jobs[m]) && s.jobs[m].id == jobs[m].id && s.jobs[m].key == jobs[m].key)
      && (forall m :: 0 <= m < |jobs| && jobs[m].key != key ==> s.jobs[m] == jobs[m])
    decreases |jobs| - k
  {
    hide StopJob, Stopped, JobsStopped, LegsLeftFrom;
    var reason := Because(ActorDependencyFailed);
    if k == |jobs| {
      NoLegsPastTheEnd(jobs, key);
      NothingStopped(w, Cancelled, ClassNone, reason, now);
    } else if jobs[k].key != key || jobs[k].status.Completed? {
      NoLegHere(jobs, key, k);
      CancellingLegs(w, jobs, key, k + 1, now);
    } else {
      StopShape(w, jobs[k], reason, Cancelled, ClassNone, now);
      var f := StopJob(w, None, jobs[k], reason, Cancelled, ClassNone, now, false);
      assert f.job.key == jobs[k].key by {
        StoppedKeepsKey(jobs[k], Cancelled, ClassNone, reason, now);
      }
      var rest := jobs[k := f.job];
      OneLegLess(jobs, key, k, f.job);
      assert SameRuns(w, f.w) by {
        StopSameRuns(w, None, jobs[k], reason, Cancelled, ClassNone, now, false);
      }
      forall m | 0 <= m < |rest| ensures InStep(f.w, rest[m]) {
        assert m != k ==> jobs[m].id != jobs[k].id;
      }
      CancellingLegs(f.w, rest, key, k + 1, now);
      StoppedInTwoParts(w, f.w, CancelLegsFrom(f.w, rest, key, k + 1, now).w, {f.job.id}, LegsLeftFrom(rest, key, k + 1),
                        Cancelled, ClassNone, reason, now);
    }
  }

  lemma StoppedKeepsKey(j: Job, conclusion: Conclusion, fault: FailureClass, reason: CancelReason, now: int)
    ensures Stopped(j, conclusion, fault, reason, now).key == j.key
  {
  }

  ghost function Stopping(p: Plan, jobs: seq<Job>, keys: seq<string>): set<string> {
    set key | key in keys && MustStop(p, jobs, key)
  }

  predicate NoRepeat(keys: seq<string>) {
    forall a, b :: 0 <= a < b < |keys| ==> keys[a] != keys[b]
  }

  /** The rows of these jobs are the same in both lists. */
  ghost predicate Alike(a: seq<Job>, b: seq<Job>, key: string) {
    |a| == |b| && forall m :: 0 <= m < |a| ==> a[m].id == b[m].id && a[m].key == b[m].key && (a[m].key == key ==> a[m] == b[m])
  }

  lemma AlikeTwoLegs(a: seq<Job>, b: seq<Job>, key: string)
    requires Alike(a, b, key)
    ensures TwoLegs(a, key) ==> TwoLegs(b, key)
    ensures SpoiledLeg(a, key) ==> SpoiledLeg(b, key)
  {
    hide Spoiled;
    if x, y :| 0 <= x < y < |a| && a[x].key == key && a[y].key == key {
      assert b[x].key == key && b[y].key == key;
    }
    if k :| 0 <= k < |a| && a[k].key == key && Spoiled(a[k]) {
      assert b[k].key == key && Spoiled(b[k]);
    }
  }

  lemma AlikePlans(p: Plan, a: seq<Job>, b: seq<Job>, key: string)
    requires Alike(a, b, key)
    ensures PlannedToFailFast(p, a, key) ==> PlannedToFailFast(p, b, key)
  {
    hide Find;
    forall k: nat | FirstOf(b, key, k) ensures FirstOf(a, key, k) && a[k] == b[k] {
      assert forall m :: 0 <= m < |a| ==> a[m].key == b[m].key;
    }
  }

  lemma AlikeMustStop(p: Plan, a: seq<Job>, b: seq<Job>, key: string)
    requires Alike(a, b, key)
    ensures MustStop(p, a, key) <==> MustStop(p, b, key)
  {
    hide TwoLegs, SpoiledLeg, PlannedToFailFast;
    assert Alike(b, a, key);
    AlikeTwoLegs(a, b, key);
    AlikeTwoLegs(b, a, key);
    AlikePlans(p, a, b, key);
    AlikePlans(p, b, a, key);
  }

  lemma LegsOfOneAndTheRest(jobs: seq<Job>, jobs': seq<Job>, key: string, keys: set<string>)
    requires key !in keys && DistinctIds(jobs) && forall k :: k in keys ==> Alike(jobs, jobs', k)
    ensures |jobs| == |jobs'| ==> LegsLeft(jobs, keys + {key}) == LegsLeftFrom(jobs, key, 0) + LegsLeft(jobs', keys)
    ensures |jobs| == |jobs'| ==> LegsLeftFrom(jobs, key, 0) !! LegsLeft(jobs', keys)
  {
    hide Alike;
    forall m | 0 <= m < |jobs| && |jobs| == |jobs'| ensures jobs[m].key in keys ==> jobs'[m] == jobs[m] {
      if jobs[m].key in keys {
        AlikeAt(jobs, jobs', jobs[m].key, m);
      }
    }
    if |jobs| == |jobs'| {
      forall m | 0 <= m < |jobs| && jobs'[m].key in keys ensures jobs'[m] == jobs[m] {
        AlikeAt(jobs, jobs', jobs'[m].key, m);
      }
    }
  }

  lemma AlikeAt(a: seq<Job>, b: seq<Job>, key: string, m: nat)
    requires Alike(a, b, key) && m < |a|
    ensures m < |b| && a[m].id == b[m].id && a[m].key == b[m].key && (a[m].key == key ==> a[m] == b[m])
  {
  }

  lemma {:induction false} FailingFastTheRest(w: World, p: Plan, jobs: seq<Job>, keys: seq<string>, now: int)
    requires DistinctIds(jobs) && NoRepeat(keys) && forall m :: 0 <= m < |jobs| ==> InStep(w, jobs[m])
    ensures JobsStopped(w, FailFastFrom(w, p, jobs, keys, now).w, LegsLeft(jobs, Stopping(p, jobs, keys)), Cancelled, ClassNone,
                        Because(ActorDependencyFailed), now)
    ensures SameRuns(w, FailFastFrom(w, p, jobs, keys, now).w)
    decreases |keys|
  {
    hide Stopped, JobsStopped, LegsLeft, MustStop, FailsFast, CancelLegsFrom, Alike;
    var reason := Because(ActorDependencyFailed);
    if keys == [] {
      assert Stopping(p, jobs, keys) == {};
      NoLegsLeft(jobs);
      NothingStopped(w, Cancelled, ClassNone, reason, now);
    } else {
      var key, rest := keys[0], keys[1..];
      assert keys == [key] + rest;
      FailingFastMeans(p, jobs, key);
      if MustStop(p, jobs, key) {
        CancellingLegs(w, jobs, key, 0, now);
        var s := CancelLegsFrom(w, jobs, key, 0, now);
        forall other | other != key ensures Alike(jobs, s.jobs, other) {
          AlikeFor(jobs, s.jobs, key, other);
        }
        forall other | other in rest ensures MustStop(p, s.jobs, other) <==> MustStop(p, jobs, other) {
          AlikeMustStop(p, jobs, s.jobs, other);
        }
        assert Stopping(p, s.jobs, rest) == Stopping(p, jobs, rest);
        assert Stopping(p, jobs, keys) == Stopping(p, jobs, rest) + {key};
        FailingFastTheRest(s.w, p, s.jobs, rest, now);
        LegsOfOneAndTheRest(jobs, s.jobs, key, Stopping(p, jobs, rest));
        StoppedInTwoParts(w, s.w, FailFastFrom(s.w, p, s.jobs, rest, now).w, LegsLeftFrom(jobs, key, 0),
                          LegsLeft(s.jobs, Stopping(p, jobs, rest)), Cancelled, ClassNone, reason, now);
      } else {
        assert Stopping(p, jobs, keys) == Stopping(p, jobs, rest);
        FailingFastTheRest(w, p, jobs, rest, now);
      }
    }
  }

  lemma AlikeFor(jobs: seq<Job>, jobs': seq<Job>, key: string, other: string)
    requires |jobs| == |jobs'| && key != other
    requires forall m :: 0 <= m < |jobs| ==> jobs'[m].id == jobs[m].id && jobs'[m].key == jobs[m].key
    requires forall m :: 0 <= m < |jobs| && jobs[m].key != key ==> jobs'[m] == jobs[m]
    ensures Alike(jobs, jobs', other)
  {
  }

  lemma NoLegsLeft(jobs: seq<Job>)
    ensures LegsLeft(jobs, {}) == {}
  {
  }

  lemma {:induction false} KeysAreListedOnce(jobs: seq<Job>)
    ensures NoRepeat(KeysOf(jobs))
    decreases |jobs|
  {
    if jobs != [] {
      KeysAreListedOnce(jobs[..|jobs| - 1]);
    }
  }

  /** Whether a leg of the run has to stop: it is not done, it has a sibling that failed for
      good, and its job is planned to fail fast. */
  ghost function LegsToStop(w: World, r: int, p: Plan): set<int> {
    set id | id in w.jobs && w.jobs[id].runID == r && !w.jobs[id].status.Completed? && MustStop(p, JobsOf(w, r), w.jobs[id].key)
  }

  /** The sweep cancels exactly the unfinished legs of jobs of two legs or more that fail fast
      and have a leg that failed for good; nobody else is touched. */
  lemma FailFastReachesExactlyTheSiblings(w: World, r: int, p: Plan, now: int)
    requires Inv(w)
    ensures var jobs := JobsOf(w, r); var s := FailFastFrom(w, p, jobs, KeysOf(jobs), now);
      && JobsStopped(w, s.w, LegsToStop(w, r, p), Cancelled, ClassNone, Because(ActorDependencyFailed), now)
      && SameRuns(w, s.w)
  {
    hide Inv, Structure, Snapshot, JobsBelow, FailFastFrom, JobsStopped, MustStop, KeysOf, LegsOf;
    InvHasStructure(w);
    ListingIsExact(w, r);
    var jobs := JobsOf(w, r);
    OpenAreUnfinished(w, jobs, r);
    KeysAreListedOnce(jobs);
    FailingFastTheRest(w, p, jobs, KeysOf(jobs), now);
    SnapshotFacts(w, jobs, r);
    var stopping := Stopping(p, jobs, KeysOf(jobs));
    forall id | id in LegsToStop(w, r, p) ensures id in LegsLeft(jobs, stopping) {
      var k :| 0 <= k < |jobs| && jobs[k].id == id;
      assert InStep(w, jobs[k]) && jobs[k] in jobs;
    }
    forall id | id in LegsLeft(jobs, stopping) ensures id in LegsToStop(w, r, p) {
      var k :| 0 <= k < |jobs| && jobs[k].key in stopping && !jobs[k].status.Completed? && jobs[k].id == id;
      assert InStep(w, jobs[k]);
    }
    assert LegsLeft(jobs, stopping) == LegsToStop(w, r, p);
  }
}
