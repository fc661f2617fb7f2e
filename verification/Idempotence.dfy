/** Calling Tick a second time for the same instant. Where no tracked run shares a group with
    another and no group a waiting job would cancel for is taken yet, the second call changes
    something exactly when the first passed over a job. */
module Idempotence {
  import opened Model
  import opened Retry
  import opened Entities
  import opened Steps
  import opened Invariants
  import opened Moves
  import opened Attempts
  import opened Sweeps
  import opened Admissions
  import opened EntryPoints
  import opened AuditLog
  import opened Settling
  import opened Settled
  import opened Unchanged

  // ---------------------------------------------------- What a tick does to a row

  lemma {:induction false} TimeoutsKeepIdentity(opts: Options, w: World, jobs: seq<Job>, i: nat, now: int)
    ensures var s := TimeoutsFrom(opts, w, jobs, i, now);
      forall k :: 0 <= k < |jobs| ==> SameIdentity(jobs[k], s.jobs[k])
    decreases |jobs| - i
  {
    hide EnforceJobTimeout;
    if i < |jobs| {
      var f := EnforceJobTimeout(opts, w, jobs[i], now);
      EnforceKeepsIdentity(opts, w, jobs[i], now);
      if f.ok {
        TimeoutsKeepIdentity(opts, f.w, jobs[i := f.job], i + 1, now);
      }
    }
  }

  lemma EnforceKeepsIdentity(opts: Options, w: World, j: Job, now: int)
    ensures SameIdentity(j, EnforceJobTimeout(opts, w, j, now).job)
  {
    hide FinishAttempt, SomeStepOverdue, Find;
    var pj := if j.runID in w.plans then Find(w.plans[j.runID].jobs, j.key, j.matrixKey) else None;
    FinishKeepsIdentity(w, pj, j, Imposed(InfraFailure, ClassInfra, Because(ActorTimeout)), now, true);
    FinishKeepsIdentity(w, None, j, Imposed(TimedOut, ClassUser, Because(ActorTimeout)), now, false);
  }

  lemma FinishKeepsIdentity(w: World, pj: Option<PlannedJob>, j: Job, res: Result, now: int, allowRetry: bool)
    ensures SameIdentity(j, FinishAttempt(w, pj, j, res, now, allowRetry).job)
  {
    hide Retries, Delay, Noted;
  }

  lemma OrderDependsOnIdentity(jobs: seq<Job>, jobs': seq<Job>)
    requires |jobs'| == |jobs| && forall k :: 0 <= k < |jobs| ==> SameIdentity(jobs[k], jobs'[k])
    ensures ListedInOrder(jobs) ==> ListedInOrder(jobs')
  {
  }

  lemma NeedsAreAsPlanned(w: World, jobs: seq<Job>, r: int)
    requires Structure(w) && Exact(w, jobs, r) && r in w.origin
    ensures NeedsAsPlanned(w.origin[r], jobs)
  {
    SnapshotFacts(w, jobs, r);
    forall k | 0 <= k < |jobs|
      ensures var found := Find(w.origin[r].jobs, jobs[k].key, jobs[k].matrixKey);
        found.Some? ==> found.value.needs == jobs[k].needs
    {
      assert InStep(w, jobs[k]);
      var pj :| PlannedAs(w, w.jobs[jobs[k].id], pj) && w.jobs[jobs[k].id].needs == pj.needs;
    }
  }

  /** Same job, and if its row has changed it had not ended before. */
  ghost predicate Aging(j: Job, j': Job) {
    SameIdentity(j, j') && (j' == j || !j.status.Completed?)
  }

  /** A sweep ends jobs or restarts running ones; it admits nobody. */
  ghost predicate Worn(j: Job, j': Job) {
    && SameIdentity(j, j')
    && (j' == j || (!j.status.Completed? && (j'.status.Completed? || (Holds(j) && InFlight(j')))))
  }

  ghost predicate AllAging(jobs: seq<Job>, jobs': seq<Job>) {
    |jobs'| == |jobs| && forall k :: 0 <= k < |jobs| ==> Aging(jobs[k], jobs'[k])
  }

  ghost predicate AllWorn(jobs: seq<Job>, jobs': seq<Job>) {
    |jobs'| == |jobs| && forall k :: 0 <= k < |jobs| ==> Worn(jobs[k], jobs'[k])
  }

  lemma AllWornTransitive(a: seq<Job>, b: seq<Job>, c: seq<Job>)
    requires AllWorn(a, b) && AllWorn(b, c)
    ensures AllWorn(a, c)
  {
    forall k | 0 <= k < |a| ensures Worn(a[k], c[k]) {
      assert Worn(a[k], b[k]) && Worn(b[k], c[k]);
    }
  }

  lemma FinishWears(w: World, pj: Option<PlannedJob>, j: Job, res: Result, now: int, allowRetry: bool)
    requires res.Valid() && (allowRetry ==> pj.Some?)
    ensures var j' := FinishAttempt(w, pj, j, res, now, allowRetry).job; j'.status.Completed? || InFlight(j')
  {
    hide Retries, Delay, Noted;
  }

  lemma EnforceWears(opts: Options, w: World, j: Job, now: int)
    ensures Worn(j, EnforceJobTimeout(opts, w, j, now).job)
  {
    hide FinishAttempt, SomeStepOverdue, Find, JobBudget;
    EnforceKeepsIdentity(opts, w, j, now);
    var pj := if j.runID in w.plans then Find(w.plans[j.runID].jobs, j.key, j.matrixKey) else None;
    if pj.Some? {
      FinishWears(w, pj, j, Imposed(InfraFailure, ClassInfra, Because(ActorTimeout)), now, true);
    }
    FinishWears(w, None, j, Imposed(TimedOut, ClassUser, Because(ActorTimeout)), now, false);
  }

  lemma WornOne(jobs: seq<Job>, i: nat, j: Job)
    requires i < |jobs| && Worn(jobs[i], j)
    ensures AllWorn(jobs, jobs[i := j])
  {
  }

  lemma {:induction false} TimeoutsWear(opts: Options, w: World, jobs: seq<Job>, i: nat, now: int)
    ensures AllWorn(jobs, TimeoutsFrom(opts, w, jobs, i, now).jobs)
    decreases |jobs| - i
  {
    hide EnforceJobTimeout, Worn;
    if i < |jobs| {
      var f := EnforceJobTimeout(opts, w, jobs[i], now);
      EnforceWears(opts, w, jobs[i], now);
      if f.ok {
        WornOne(jobs, i, f.job);
        TimeoutsWear(opts, f.w, jobs[i := f.job], i + 1, now);
        AllWornTransitive(jobs, jobs[i := f.job], TimeoutsFrom(opts, f.w, jobs[i := f.job], i + 1, now).jobs);
      } else {
        AllWornReflexive(jobs);
      }
    } else {
      AllWornReflexive(jobs);
    }
  }

  lemma AllWornReflexive(jobs: seq<Job>)
    ensures AllWorn(jobs, jobs)
  {
  }

  lemma {:induction false} CancelLegsWear(w: World, jobs: seq<Job>, key: string, k: nat, now: int)
    ensures AllWorn(jobs, CancelLegsFrom(w, jobs, key, k, now).jobs)
    decreases |jobs| - k
  {
    hide StopJob, Worn;
    AllWornReflexive(jobs);
    if k < |jobs| {
      if jobs[k].key != key || jobs[k].status.Completed? {
        CancelLegsWear(w, jobs, key, k + 1, now);
      } else {
        var f := StopJob(w, None, jobs[k], Because(ActorDependencyFailed), Cancelled, ClassNone, now, false);
        StopEnds(w, jobs[k], now);
        EndedIsWorn(jobs[k], f.job);
        WornOne(jobs, k, f.job);
        CancelLegsWear(f.w, jobs[k := f.job], key, k + 1, now);
        AllWornTransitive(jobs, jobs[k := f.job], CancelLegsFrom(f.w, jobs[k := f.job], key, k + 1, now).jobs);
      }
    }
  }

  lemma EndedIsWorn(j: Job, j': Job)
    requires SameIdentity(j, j') && !j.status.Completed? && j'.status.Completed?
    ensures Worn(j, j')
  {
  }

  lemma {:induction false} FailFastWears(w: World, p: Plan, jobs: seq<Job>, keys: seq<string>, now: int)
    ensures AllWorn(jobs, FailFastFrom(w, p, jobs, keys, now).jobs)
    decreases |keys|
  {
    hide CancelLegsFrom, FailsFast, AllWorn;
    AllWornReflexive(jobs);
    if keys != [] {
      if FailsFast(p, jobs, keys[0]) {
        CancelLegsWear(w, jobs, keys[0], 0, now);
        var s := CancelLegsFrom(w, jobs, keys[0], 0, now);
        FailFastWears(s.w, p, s.jobs, keys[1..], now);
        AllWornTransitive(jobs, s.jobs, FailFastFrom(s.w, p, s.jobs, keys[1..], now).jobs);
      } else {
        FailFastWears(w, p, jobs, keys[1..], now);
      }
    }
  }

  lemma {:induction false} StopFromAges(w: World, jobs: seq<Job>, i: nat, reason: CancelReason, conclusion: Conclusion,
                                        fault: FailureClass, now: int)
    ensures AllAging(jobs, StopFrom(w, jobs, i, reason, conclusion, fault, now).1)
    decreases |jobs| - i
  {
    hide StopJob;
    if i < |jobs| {
      if jobs[i].status.Completed? {
        StopFromAges(w, jobs, i + 1, reason, conclusion, fault, now);
      } else {
        var f := StopJob(w, None, jobs[i], reason, conclusion, fault, now, false);
        StopKeepsIdentity(w, jobs[i], reason, conclusion, fault, now);
        if f.ok {
          StopFromAges(f.w, jobs[i := f.job], i + 1, reason, conclusion, fault, now);
          var last := StopFrom(f.w, jobs[i := f.job], i + 1, reason, conclusion, fault, now).1;
          forall k | 0 <= k < |jobs| ensures Aging(jobs[k], last[k]) {
            assert Aging(jobs[i := f.job][k], last[k]);
          }
        }
      }
    }
  }

  lemma StopKeepsIdentity(w: World, j: Job, reason: CancelReason, conclusion: Conclusion, fault: FailureClass, now: int)
    ensures SameIdentity(j, StopJob(w, None, j, reason, conclusion, fault, now, false).job)
  {
    hide FinishAttempt;
    FinishKeepsIdentity(w, None, j, Imposed(conclusion, fault, reason), now, false);
  }

  /** The same of the rows of a whole run. */
  ghost predicate Aged(w: World, w': World, r: int) {
    forall id :: id in w.jobs && w.jobs[id].runID == r ==> id in w'.jobs && Aging(w.jobs[id], w'.jobs[id])
  }

  ghost predicate WornRun(w: World, w': World, r: int) {
    forall id :: id in w.jobs && w.jobs[id].runID == r ==> id in w'.jobs && Worn(w.jobs[id], w'.jobs[id])
  }

  lemma AgedByLists(w: World, w': World, jobs: seq<Job>, jobs': seq<Job>, r: int)
    requires Structure(w) && Exact(w, jobs, r) && Exact(w', jobs', r) && AllAging(jobs, jobs')
    ensures Aged(w, w', r)
  {
    hide Structure;
    SnapshotFacts(w, jobs, r);
    forall id | id in w.jobs && w.jobs[id].runID == r ensures id in w'.jobs && Aging(w.jobs[id], w'.jobs[id]) {
      var k :| 0 <= k < |jobs| && jobs[k].id == id;
      assert InStep(w, jobs[k]) && InStep(w', jobs'[k]) && Aging(jobs[k], jobs'[k]);
    }
  }

  lemma WornByLists(w: World, w': World, jobs: seq<Job>, jobs': seq<Job>, r: int)
    requires Structure(w) && Exact(w, jobs, r) && Exact(w', jobs', r) && AllWorn(jobs, jobs')
    ensures WornRun(w, w', r)
  {
    hide Structure;
    SnapshotFacts(w, jobs, r);
    forall id | id in w.jobs && w.jobs[id].runID == r ensures id in w'.jobs && Worn(w.jobs[id], w'.jobs[id]) {
      var k :| 0 <= k < |jobs| && jobs[k].id == id;
      assert InStep(w, jobs[k]) && InStep(w', jobs'[k]) && Worn(jobs[k], jobs'[k]);
    }
  }

  lemma WornThenCalmerIsAging(a: seq<Job>, b: seq<Job>, c: seq<Job>)
    requires AllWorn(a, b) && AllCalmer(b, c)
    ensures AllAging(a, c)
  {
    forall k | 0 <= k < |a| ensures Aging(a[k], c[k]) {
      assert Worn(a[k], b[k]) && Calmer(b[k], c[k]);
    }
  }

  // ------------------------------------------------------------- Orderly runs

  /** The job was planned to cancel whatever holds its group. */
  ghost predicate CancelsInProgress(w: World, j: Job) {
    j.runID in w.plans && Cancelling(w.plans[j.runID], j)
  }

  /** Two unfinished jobs of one concurrency group. */
  ghost predicate Rivals(w: World, a: int, b: int) {
    && a in w.jobs && b in w.jobs && a != b
    && w.jobs[a].group == w.jobs[b].group != "" && !w.jobs[a].status.Completed? && !w.jobs[b].status.Completed?
  }

  /** No other tracked run has an unfinished job in a group of this one's. */
  ghost predicate GroupsStayHome(w: World, r: int) {
    forall a, b :: Rivals(w, a, b) && w.jobs[a].runID == r && w.jobs[b].runID in w.plans ==> w.jobs[b].runID == r
  }

  /** Nobody holds a group that a job not admitted yet would cancel for. */
  ghost predicate GroupsOpen(w: World, r: int) {
    forall a, b :: Rivals(w, a, b) && w.jobs[a].runID == r && !InFlight(w.jobs[a]) && CancelsInProgress(w, w.jobs[a])
      ==> !Holds(w.jobs[b])
  }

  /** The run is in no workflow-level group, its jobs are listed in needs order, and it
      shares no job-level group. */
  ghost predicate Orderly(w: World, r: int) {
    && r in w.plans && w.plans[r].runGroup == ""
    && ListedInOrder(JobsOf(w, r))
    && GroupsStayHome(w, r) && GroupsOpen(w, r)
  }

  lemma SweepsKeepGroupsOpen(w: World, w': World, r: int)
    requires OnlyRun(w, w', r) && WornRun(w, w', r) && w'.plans == w.plans && GroupsOpen(w, r)
    ensures GroupsOpen(w', r)
  {
    hide Cancelling;
    forall a, b | Rivals(w', a, b) && w'.jobs[a].runID == r && !InFlight(w'.jobs[a]) && CancelsInProgress(w', w'.jobs[a])
      ensures !Holds(w'.jobs[b])
    {
      assert Worn(w.jobs[a], w'.jobs[a]);
      assert w'.jobs[a] == w.jobs[a];
      assert w.jobs[b].runID == r ==> Worn(w.jobs[b], w'.jobs[b]);
      assert Rivals(w, a, b);
    }
  }

  lemma TidyAtTheStart(w: World, run: Run, p: Plan, jobs: seq<Job>)
    requires Inv(w) && Exact(w, jobs, run.id) && GroupsOpen(w, run.id) && run.id in w.plans && w.plans[run.id] == p
    ensures GroupsTidy(p, Admission(w, jobs, CountInFlight(jobs), {}, true))
  {
    hide Inv, Structure, Snapshot, CountInFlight, RetryBound, Cancelling;
    InvHasStructure(w);
    SnapshotFacts(w, jobs, run.id);
    forall k | 0 <= k < |jobs| && Pending(jobs[k])
      ensures Cancelling(p, jobs[k]) ==> !GroupIsHeld(w, jobs[k])
      ensures !jobs[k].status.InProgress?
    {
      assert InStep(w, jobs[k]);
      JobFacts(w, jobs[k].id);
      assert jobs[k].group != "" ==>
        forall h :: h in w.jobs && h != jobs[k].id && w.jobs[h].group == jobs[k].group && Holds(w.jobs[h])
          ==> Rivals(w, jobs[k].id, h);
    }
  }

  // ------------------------------------------------------ One run becomes steady

  lemma CalmerKeepsBudgets(opts: Options, w: World, w': World, jobs: seq<Job>, jobs': seq<Job>, now: int)
    requires Shrinks(w, w') && AllCalmer(jobs, jobs')
    requires forall k :: 0 <= k < |jobs| ==> WithinBudget(opts, w, jobs[k], now)
    ensures forall k :: 0 <= k < |jobs'| ==> WithinBudget(opts, w', jobs'[k], now)
  {
    hide WithinBudget;
    forall k | 0 <= k < |jobs'| ensures WithinBudget(opts, w', jobs'[k], now) {
      assert Calmer(jobs[k], jobs'[k]);
      BudgetsShrink(opts, w, w', jobs[k], now);
      if jobs'[k] != jobs[k] {
        NotRunningIsWithinBudget(opts, w', jobs'[k], now);
      }
    }
  }

  lemma NotRunningIsWithinBudget(opts: Options, w: World, j: Job, now: int)
    requires !j.status.InProgress?
    ensures WithinBudget(opts, w, j, now)
  {
  }

  lemma SameRunsFacts(w: World, w': World)
    requires SameRuns(w, w')
    ensures w'.runs == w.runs && w'.plans == w.plans && w'.origin == w.origin
  {
  }

  lemma ExactIsOwn(w: World, jobs: seq<Job>, r: int)
    requires Structure(w) && Exact(w, jobs, r)
    ensures AllOwn(w, jobs, r)
  {
    SnapshotFacts(w, jobs, r);
  }

  /** The state after the sweeps of a tick that does not close the run. */
  lemma SweepsSettle(opts: Options, w: World, run: Run, p: Plan, jobs: seq<Job>, now: int)
    requires Inv(w) && Exact(w, jobs, run.id) && run.id in w.plans && p == w.plans[run.id] && ListedInOrder(jobs)
    ensures var t := TimeoutsFrom(opts, w, jobs, 0, now);
      var f := FailFastFrom(t.w, p, t.jobs, KeysOf(t.jobs), now);
      && t.ok && Inv(f.w) && SameRuns(w, f.w) && Exact(f.w, f.jobs, run.id) && OnlyRun(w, f.w, run.id)
      && AllWorn(jobs, f.jobs) && ListedInOrder(f.jobs) && NeedsAsPlanned(p, f.jobs)
      && (forall k :: 0 <= k < |f.jobs| ==> WithinBudget(opts, f.w, f.jobs[k], now))
      && (forall key :: LegsSettled(p, f.jobs, key))
  {
    hide Inv, Structure, Exact, Snapshot, SameRuns, OnlyRun, TimeoutsFrom, FailFastFrom, KeysOf, WithinBudget, LegsSettled,
      ListedInOrder, NeedsAsPlanned, Own, Shrinks, AllWorn;
    var r := run.id;
    var t := TimeoutsFrom(opts, w, jobs, 0, now);
    InvHasStructure(w);
    PlansOf(w);
    ExactIsOwn(w, jobs, r);
    TimeoutsSucceed(opts, w, jobs, 0, now, r);
    TimeoutsKeepInv(opts, w, jobs, 0, now, r);
    TimeoutsTouch(opts, w, jobs, 0, now, r);
    TimeoutsSettle(opts, w, jobs, 0, now);
    TimeoutsWear(opts, w, jobs, 0, now);
    InvHasStructure(t.w);
    ExactIsOwn(t.w, t.jobs, r);
    var f := FailFastFrom(t.w, p, t.jobs, KeysOf(t.jobs), now);
    FailFastKeepsInv(t.w, p, t.jobs, KeysOf(t.jobs), now, r);
    FailFastTouches(t.w, p, t.jobs, KeysOf(t.jobs), now, r);
    FailFastSettles(t.w, p, t.jobs, KeysOf(t.jobs), {}, now);
    FailFastWears(t.w, p, t.jobs, KeysOf(t.jobs), now);
    AllWornTransitive(jobs, t.jobs, f.jobs);
    OnlyRunTransitive(w, t.w, f.w, r);
    SameRunsTransitive(w, t.w, f.w);
    CalmerKeepsBudgets(opts, t.w, f.w, t.jobs, f.jobs, now);
    forall key ensures LegsSettled(p, f.jobs, key) {
      if key !in KeysOf(t.jobs) {
        UnlistedKeysAreSettled(p, t.jobs, key);
        CalmerKeepsSettled(p, t.jobs, f.jobs, key);
      }
    }
    WornKeepsTheOrder(jobs, f.jobs);
    InvHasStructure(f.w);
    SameRunsFacts(w, f.w);
    NeedsAreAsPlanned(f.w, f.jobs, r);
  }

  lemma WornKeepsTheOrder(jobs: seq<Job>, jobs': seq<Job>)
    requires AllWorn(jobs, jobs') && ListedInOrder(jobs)
    ensures ListedInOrder(jobs')
  {
    forall k | 0 <= k < |jobs| ensures SameIdentity(jobs[k], jobs'[k]) {
      assert Worn(jobs[k], jobs'[k]);
    }
    OrderDependsOnIdentity(jobs, jobs');
  }

  lemma ExactIsSnapshot(w: World, jobs: seq<Job>, r: int)
    requires Exact(w, jobs, r)
    ensures Snapshot(w, jobs, r)
  {
  }

  lemma StuckByCount(opts: Options, run: Run, p: Plan, w: World, jobs: seq<Job>, a: map<string, int>, b: map<string, int>, j: Job)
    requires Stuck(opts, run, p, w, jobs, a, j) && Count(a, j.key) == Count(b, j.key)
    ensures Stuck(opts, run, p, w, jobs, b, j)
  {
    hide ComputeNeeds, ShouldRun, GroupIsHeld;
  }

  lemma PassStarts(w: World, run: Run, p: Plan, jobs: seq<Job>)
    requires Inv(w) && Exact(w, jobs, run.id) && run.id in w.plans && p == w.plans[run.id]
    requires ListedInOrder(jobs) && NeedsAsPlanned(p, jobs) && GroupsOpen(w, run.id)
    ensures ExactPass(Admission(w, jobs, CountInFlight(jobs), {}, true), run, p)
  {
    hide Inv, Structure, Exact, CountInFlight, SlotsCounted, ListedInOrder, NeedsAsPlanned, GroupsTidy, Snapshot, GroupsOpen;
    InvHasStructure(w);
    PlansOf(w);
    SlotsAreCountedAtTheStart(w, jobs, run.id);
    ExactIsSnapshot(w, jobs, run.id);
    TidyAtTheStart(w, run, p, jobs);
  }

  lemma AdmissionLeavesSteady(opts: Options, w: World, run: Run, p: Plan, jobs: seq<Job>, now: int)
    requires Inv(w) && Exact(w, jobs, run.id) && run.id in w.plans && p == w.plans[run.id] && p.runGroup == ""
    requires run.id in w.runs && w.runs[run.id] == run && !run.status.Completed?
    requires ListedInOrder(jobs) && NeedsAsPlanned(p, jobs) && GroupsOpen(w, run.id) && !RunOverdue(opts, run, now)
    requires forall k :: 0 <= k < |jobs| ==> WithinBudget(opts, w, jobs[k], now)
    requires forall key :: LegsSettled(p, jobs, key)
    ensures var a := AdmitReadyJobs(opts, w, run, p, jobs, now);
      && OnlyRun(w, a.w, run.id) && SameRuns(w, a.w) && AllCalmer(jobs, a.jobs) && Exact(a.w, a.jobs, run.id)
      && (a.ok <==> !Errs(opts, a.w, run.id))
      && (!a.ok || !AllCompleted(a.jobs) ==> Steady(opts, a.w, run.id, now))
  {
    hide Inv, Structure, Exact, SameRuns, OnlyRun, WithinBudget, LegsSettled, ListedInOrder, NeedsAsPlanned, RunOverdue,
      AdmitFrom, CountInFlight, Stuck, Shrinks, ExactPass, FirstFailing, GroupsOpen, AllCalmer;
    var start := Admission(w, jobs, CountInFlight(jobs), {}, true);
    PassStarts(w, run, p, jobs);
    AdmissionSettles(opts, run, p, 0, start, now);
    AdmissionSameRuns(opts, w, run, p, jobs, now);
    var a := AdmitReadyJobs(opts, w, run, p, jobs, now);
    SameRunsFacts(w, a.w);
    ExactIsTheListing(a.w, a.jobs, run.id);
    CalmerKeepsBudgets(opts, w, a.w, jobs, a.jobs, now);
    forall key ensures LegsSettled(p, a.jobs, key) {
      CalmerKeepsSettled(p, jobs, a.jobs, key);
    }
    forall k | 0 <= k < FirstFailing(opts, run, p, a.jobs, 0) && Pending(a.jobs[k])
      ensures Stuck(opts, run, p, a.w, a.jobs, CountInFlight(a.jobs), a.jobs[k])
    {
      StuckByCount(opts, run, p, a.w, a.jobs, a.inFlight, CountInFlight(a.jobs), a.jobs[k]);
    }
  }

  lemma OverdueRunIsFinished(opts: Options, w: World, run: Run, jobs: seq<Job>, now: int)
    requires Inv(w) && Exact(w, jobs, run.id) && run.id in w.runs && w.runs[run.id] == run && !run.status.Completed?
    requires RunOverdue(opts, run, now)
    ensures var s := EnforceRunTimeout(opts, w, run, jobs, now);
      && s.run.status.Completed? && run.id !in s.w.plans && OnlyRun(w, s.w, run.id) && Aged(w, s.w, run.id)
  {
    hide Inv, Structure, Exact, Snapshot, OnlyRun, StopFrom, Conclusions, AllAging, Aged;
    InvHasStructure(w);
    ExactIsOwn(w, jobs, run.id);
    var reason := Because(ActorTimeout);
    var s := StopFrom(w, jobs, 0, reason, TimedOut, ClassUser, now);
    StopFromKeepsInv(w, jobs, 0, reason, TimedOut, ClassUser, now, run.id);
    StopFromTouches(w, jobs, 0, reason, TimedOut, ClassUser, now, run.id);
    StopFromAges(w, jobs, 0, reason, TimedOut, ClassUser, now);
    AgedByLists(w, s.0, jobs, s.1, run.id);
    var closing := run.(cancel := Some(reason));
    FinalizeTouches(s.0, closing, s.1, now);
    FinalizeKeepsRows(s.0, closing, s.1, now);
    AgedAlike(w, s.0, FinalizeIfComplete(s.0, closing, s.1, now).w, run.id);
    OnlyRunTransitive(w, s.0, FinalizeIfComplete(s.0, closing, s.1, now).w, run.id);
  }

  lemma FinalizeKeepsRows(w: World, run: Run, jobs: seq<Job>, now: int)
    ensures var w' := FinalizeIfComplete(w, run, jobs, now).w; w'.jobs == w.jobs && w'.queue == w.queue
    ensures AllCompleted(jobs) && !run.status.Completed? ==> run.id !in FinalizeIfComplete(w, run, jobs, now).w.plans
    ensures !AllCompleted(jobs) ==> FinalizeIfComplete(w, run, jobs, now) == Finalized(w, run)
  {
  }

  lemma AgedAlike(w: World, mid: World, w': World, r: int)
    requires Aged(w, mid, r) && w'.jobs == mid.jobs
    ensures Aged(w, w', r)
  {
  }

  lemma AgedInPlace(w: World, r: int)
    ensures Aged(w, ForgetPlan(w, r), r)
  {
  }

  lemma ForgettingTouches(w: World, r: int)
    ensures OnlyRun(w, ForgetPlan(w, r), r)
  {
  }

  lemma TickRunSettles(opts: Options, w: World, r: int, now: int)
    requires Inv(w) && Orderly(w, r)
    ensures var t := TickRun(opts, w, r, now);
      && OnlyRun(w, t.w, r) && Aged(w, t.w, r)
      && (r in t.w.plans ==> Steady(opts, t.w, r, now))
      && (t.ok <==> !Errs(opts, t.w, r))
  {
    hide Inv, Structure, Exact, OnlyRun, TimeoutsFrom, FailFastFrom, AdmitReadyJobs, RunOverdue, KeysOf, ListedInOrder, Steady,
      VerdictHonest, LegsSettled, WithinBudget, NeedsAsPlanned, StopFrom, Aged, AllWorn, AllCalmer, GroupsOpen, GroupsStayHome;
    InvHasStructure(w);
    PlansOf(w);
    TrackedAreRuns(w);
    ForgettingTouches(w, r);
    AgedInPlace(w, r);
    RunFacts(w, r);
    if !w.runs[r].status.Completed? {
      ListingIsExact(w, r);
      var run, p, jobs := w.runs[r], w.plans[r], JobsOf(w, r);
      if RunOverdue(opts, run, now) {
        OverdueRunIsFinished(opts, w, run, jobs, now);
      } else {
        RestOfTickRunSettles(opts, w, run, p, jobs, now);
        NotOverdue(opts, w, run, jobs, now);
      }
    }
  }

  lemma RestOfTickRunSettles(opts: Options, w: World, run: Run, p: Plan, jobs: seq<Job>, now: int)
    requires Inv(w) && Exact(w, jobs, run.id) && run.id in w.plans && p == w.plans[run.id] && p.runGroup == ""
    requires run.id in w.runs && w.runs[run.id] == run && !run.status.Completed?
    requires ListedInOrder(jobs) && GroupsOpen(w, run.id) && !RunOverdue(opts, run, now)
    ensures var t := TimeoutsFrom(opts, w, jobs, 0, now);
      var f := FailFastFrom(t.w, p, t.jobs, KeysOf(t.jobs), now);
      var a := AdmitReadyJobs(opts, f.w, run, p, f.jobs, now);
      var w' := if a.ok then FinalizeIfComplete(a.w, run, a.jobs, now).w else a.w;
      && t.ok && OnlyRun(w, w', run.id) && Aged(w, w', run.id)
      && (run.id in w'.plans ==> Steady(opts, w', run.id, now))
      && (a.ok <==> !Errs(opts, w', run.id))
  {
    hide Inv, Structure, Exact, OnlyRun, TimeoutsFrom, FailFastFrom, AdmitReadyJobs, RunOverdue, KeysOf, ListedInOrder, Steady,
      LegsSettled, WithinBudget, NeedsAsPlanned, Aged, AllWorn, AllCalmer, AllAging, GroupsOpen, FinalizeIfComplete, SameRuns,
      WornRun, AllCompleted, Errs;
    var r := run.id;
    InvHasStructure(w);
    SweepsSettle(opts, w, run, p, jobs, now);
    var t := TimeoutsFrom(opts, w, jobs, 0, now);
    var f := FailFastFrom(t.w, p, t.jobs, KeysOf(t.jobs), now);
    SameRunsFacts(w, f.w);
    WornByLists(w, f.w, jobs, f.jobs, r);
    SweepsKeepGroupsOpen(w, f.w, r);
    AdmissionLeavesSteady(opts, f.w, run, p, f.jobs, now);
    var a := AdmitReadyJobs(opts, f.w, run, p, f.jobs, now);
    OnlyRunTransitive(w, f.w, a.w, r);
    WornThenCalmerIsAging(jobs, f.jobs, a.jobs);
    AgedByLists(w, a.w, jobs, a.jobs, r);
    FinalizeTouches(a.w, run, a.jobs, now);
    FinalizeKeepsRows(a.w, run, a.jobs, now);
    var last := FinalizeIfComplete(a.w, run, a.jobs, now).w;
    OnlyRunTransitive(w, a.w, last, r);
    AgedAlike(w, a.w, last, r);
    if a.ok && AllCompleted(a.jobs) {
      ForgottenDoesNotErr(opts, last, r);
    }
  }

  lemma ForgottenDoesNotErr(opts: Options, w: World, r: int)
    requires r !in w.plans
    ensures !Errs(opts, w, r)
  {
  }

  // ------------------------------------------------------- Other runs keep still

  lemma OtherRunsJobs(w: World, w': World, r: int, other: int)
    requires OnlyRun(w, w', r) && other != r
    ensures JobsOf(w', other) == JobsOf(w, other)
  {
    JobsBelowDependsOnTheRun(w.jobs, w'.jobs, w.nextJob, other);
  }

  /** Whoever is a rival after a run's tick was one before. */
  lemma RivalsBefore(w: World, w': World, r: int, a: int, b: int)
    requires OnlyRun(w, w', r) && Aged(w, w', r) && Rivals(w', a, b)
    ensures Rivals(w, a, b) && w.jobs[a].runID == w'.jobs[a].runID && w.jobs[b].runID == w'.jobs[b].runID
  {
    assert w.jobs[a].runID == r ==> Aging(w.jobs[a], w'.jobs[a]);
    assert w.jobs[b].runID == r ==> Aging(w.jobs[b], w'.jobs[b]);
  }

  lemma StaysHome(w: World, w': World, r: int, q: int)
    requires OnlyRun(w, w', r) && Aged(w, w', r) && r in w.plans && GroupsStayHome(w, q)
    ensures GroupsStayHome(w', q)
  {
    hide Aged;
    forall a, b | Rivals(w', a, b) && w'.jobs[a].runID == q && w'.jobs[b].runID in w'.plans
      ensures w'.jobs[b].runID == q
    {
      RivalsBefore(w, w', r, a, b);
    }
  }

  lemma StaysOpen(w: World, w': World, r: int, q: int)
    requires OnlyRun(w, w', r) && Aged(w, w', r) && r in w.plans && q != r && GroupsStayHome(w, q) && GroupsOpen(w, q)
    ensures GroupsOpen(w', q)
  {
    hide Aged, Cancelling;
    forall a, b | Rivals(w', a, b) && w'.jobs[a].runID == q && !InFlight(w'.jobs[a]) && CancelsInProgress(w', w'.jobs[a])
      ensures !Holds(w'.jobs[b])
    {
      RivalsBefore(w, w', r, a, b);
      assert w.jobs[b].runID != r;
    }
  }

  lemma OrderlyStays(w: World, w': World, r: int, q: int)
    requires OnlyRun(w, w', r) && Aged(w, w', r) && r in w.plans && q != r && Orderly(w, q)
    ensures Orderly(w', q)
  {
    hide ListedInOrder, GroupsStayHome, GroupsOpen, Aged;
    OtherRunsJobs(w, w', r, q);
    StaysHome(w, w', r, q);
    StaysOpen(w, w', r, q);
  }

  lemma BudgetKeepsStill(opts: Options, w: World, w': World, r: int, j: Job, now: int)
    requires OnlyRun(w, w', r) && j.id in w.jobs && w.jobs[j.id].runID != r && WithinBudget(opts, w, j, now)
    ensures WithinBudget(opts, w', j, now)
  {
  }

  lemma HeldAsBefore(w: World, w': World, r: int, q: int, j: Job)
    requires OnlyRun(w, w', r) && r in w.plans && q != r && GroupsStayHome(w, q)
    requires InStep(w, j) && j.runID == q && !j.status.Completed? && GroupIsHeld(w, j)
    ensures GroupIsHeld(w', j)
  {
    var h :| h in w.jobs && h != j.id && w.jobs[h].group == j.group && Holds(w.jobs[h]);
    assert Rivals(w, j.id, h);
    assert w'.jobs[h] == w.jobs[h];
  }

  lemma StuckKeepsStill(opts: Options, run: Run, p: Plan, w: World, w': World, jobs: seq<Job>, inFlight: map<string, int>, j: Job)
    requires Stuck(opts, run, p, w, jobs, inFlight, j) && (GroupIsHeld(w, j) ==> GroupIsHeld(w', j))
    ensures Stuck(opts, run, p, w', jobs, inFlight, j)
  {
    hide ComputeNeeds, ShouldRun, GroupIsHeld;
  }

  /** What a tick of another run leaves true of a run that has had its turn. */
  ghost predicate AtRest(opts: Options, w: World, q: int, now: int) {
    q in w.plans ==> w.plans[q].runGroup == "" && Steady(opts, w, q, now) && GroupsStayHome(w, q)
  }

  lemma SteadyKeepsStill(opts: Options, w: World, w': World, r: int, q: int, now: int)
    requires Structure(w) && OnlyRun(w, w', r) && r in w.plans && q != r && q in w.plans && w.plans[q].runGroup == ""
    requires Steady(opts, w, q, now) && GroupsStayHome(w, q)
    ensures Steady(opts, w', q, now)
  {
    hide WithinBudget, LegsSettled, Stuck, RunOverdue, Structure, FirstFailing, GroupsStayHome, CountInFlight, GroupIsHeld;
    OtherRunsJobs(w, w', r, q);
    ListingIsExact(w, q);
    var run, p, jobs := w.runs[q], w.plans[q], JobsOf(w, q);
    SnapshotFacts(w, jobs, q);
    forall k | 0 <= k < |jobs| ensures WithinBudget(opts, w', jobs[k], now) {
      assert InStep(w, jobs[k]);
      BudgetKeepsStill(opts, w, w', r, jobs[k], now);
    }
    forall k | 0 <= k < FirstFailing(opts, run, p, jobs, 0) && Pending(jobs[k])
      ensures Stuck(opts, run, p, w', jobs, CountInFlight(jobs), jobs[k])
    {
      assert InStep(w, jobs[k]);
      if GroupIsHeld(w, jobs[k]) {
        HeldAsBefore(w, w', r, q, jobs[k]);
      }
      StuckKeepsStill(opts, run, p, w, w', jobs, CountInFlight(jobs), jobs[k]);
    }
  }

  lemma ErrsAsBefore(opts: Options, w: World, w': World, r: int, q: int)
    requires OnlyRun(w, w', r) && q != r && (q in w.plans ==> w.plans[q].runGroup == "")
    ensures Errs(opts, w', q) == Errs(opts, w, q)
  {
    hide FirstFailing;
    OtherRunsJobs(w, w', r, q);
  }

  lemma AtRestKeepsStill(opts: Options, w: World, w': World, r: int, q: int, now: int)
    requires Structure(w) && OnlyRun(w, w', r) && Aged(w, w', r) && r in w.plans && q != r && AtRest(opts, w, q, now)
    ensures AtRest(opts, w', q, now) && Errs(opts, w', q) == Errs(opts, w, q)
  {
    hide Steady, GroupsStayHome, Aged, Structure, Errs;
    if q in w.plans {
      SteadyKeepsStill(opts, w, w', r, q, now);
      StaysHome(w, w', r, q);
    }
    ErrsAsBefore(opts, w, w', r, q);
  }

  // ------------------------------------------------------------------ All runs

  /** Rows keep their identity, what has ended stays as it is, and plans are only dropped. */
  ghost predicate Older(w: World, w': World) {
    && w'.plans.Keys <= w.plans.Keys && (forall r :: r in w'.plans ==> w'.plans[r] == w.plans[r])
    && w'.jobs.Keys == w.jobs.Keys
    && forall id :: id in w.jobs ==> Aging(w.jobs[id], w'.jobs[id])
  }

  lemma OlderByRun(w: World, w': World, r: int)
    requires OnlyRun(w, w', r) && Aged(w, w', r)
    ensures Older(w, w')
  {
    forall id | id in w.jobs ensures Aging(w.jobs[id], w'.jobs[id]) {
    }
    forall k | k in w'.plans ensures k in w.plans && w'.plans[k] == w.plans[k] {
      assert k != r ==> k in w.plans;
    }
  }

  lemma OlderTransitive(a: World, b: World, c: World)
    requires Older(a, b) && Older(b, c)
    ensures Older(a, c)
  {
    forall id | id in a.jobs ensures Aging(a.jobs[id], c.jobs[id]) {
      assert Aging(a.jobs[id], b.jobs[id]) && Aging(b.jobs[id], c.jobs[id]);
    }
  }

  /** The state after the runs in the list have had their turns, as far as the list got. */
  ghost predicate TurnsTaken(opts: Options, w: World, ids: seq<int>, done: set<int>, now: int, t: Outcome) {
    && NoneExpired(t.w, now) && Older(w, t.w)
    && (forall q :: q in done ==> AtRest(opts, t.w, q, now) && Errs(opts, t.w, q) == Errs(opts, w, q))
    && (forall k :: 0 <= k < |ids| && (forall m :: 0 <= m < k ==> !Errs(opts, t.w, ids[m])) ==> AtRest(opts, t.w, ids[k], now))
    && (t.ok <==> NoneErrs(opts, t.w, ids))
  }

  lemma OnlyRunFacts(w: World, w': World, r: int, now: int)
    requires OnlyRun(w, w', r) && NoneExpired(w, now)
    ensures NoneExpired(w', now)
  {
  }

  lemma {:induction false} TickRunsSettle(opts: Options, w: World, ids: seq<int>, done: set<int>, now: int)
    requires Inv(w) && NoneExpired(w, now)
    requires forall k, l :: 0 <= k < l < |ids| ==> ids[k] < ids[l]
    requires forall k :: 0 <= k < |ids| ==> Orderly(w, ids[k]) && ids[k] !in done
    requires forall r :: r in done ==> AtRest(opts, w, r, now)
    ensures TurnsTaken(opts, w, ids, done, now, TickRuns(opts, w, ids, now))
    decreases |ids|
  {
    hide Inv, Structure, TickRun, Orderly, AtRest, OnlyRun, Aged, Older, Errs, NoneErrs, NoneExpired, TurnsTaken;
    if ids == [] {
      NobodyErrs(opts, w);
      NoTurns(opts, w, done, now);
    } else {
      var r := ids[0];
      var t := TickRun(opts, w, r, now);
      OneTurn(opts, w, r, done, now);
      TickRunKeepsInv(opts, w, r, now);
      if t.ok {
        forall k | 0 <= k < |ids[1..]| ensures Orderly(t.w, ids[1..][k]) && ids[1..][k] !in done + {r} {
          assert ids[1..][k] == ids[k + 1] && ids[k + 1] != r;
          OrderlyIsTracked(w, r);
          OrderlyStays(w, t.w, r, ids[k + 1]);
        }
        TickRunsSettle(opts, t.w, ids[1..], done + {r}, now);
        MoreTurns(opts, w, t.w, ids, done, now, TickRuns(opts, t.w, ids[1..], now));
      } else {
        StoppedAtOnce(opts, w, t, ids, done, now);
      }
    }
  }

  lemma OrderlyIsTracked(w: World, r: int)
    requires Orderly(w, r)
    ensures r in w.plans
  {
  }

  lemma NoTurns(opts: Options, w: World, done: set<int>, now: int)
    requires NoneExpired(w, now) && forall r :: r in done ==> AtRest(opts, w, r, now)
    ensures TurnsTaken(opts, w, [], done, now, Outcome(w, true))
  {
    hide AtRest, Errs, NoneExpired;
  }

  lemma OneTurn(opts: Options, w: World, r: int, done: set<int>, now: int)
    requires Inv(w) && NoneExpired(w, now) && Orderly(w, r) && r !in done
    requires forall q :: q in done ==> AtRest(opts, w, q, now)
    ensures var t := TickRun(opts, w, r, now);
      && OnlyRun(w, t.w, r) && Aged(w, t.w, r) && Older(w, t.w) && NoneExpired(t.w, now) && (t.ok <==> !Errs(opts, t.w, r))
      && AtRest(opts, t.w, r, now)
      && (forall q :: q in done ==> AtRest(opts, t.w, q, now) && Errs(opts, t.w, q) == Errs(opts, w, q))
  {
    hide Inv, Structure, TickRun, OnlyRun, Aged, Older, Errs, NoneExpired, Steady, GroupsStayHome, GroupsOpen, ListedInOrder, AtRest;
    InvHasStructure(w);
    var t := TickRun(opts, w, r, now);
    TickRunSettles(opts, w, r, now);
    OlderByRun(w, t.w, r);
    OnlyRunFacts(w, t.w, r, now);
    forall q | q in done ensures AtRest(opts, t.w, q, now) && Errs(opts, t.w, q) == Errs(opts, w, q) {
      AtRestKeepsStill(opts, w, t.w, r, q, now);
    }
    StaysHome(w, t.w, r, r);
    NowAtRest(opts, w, t.w, r, now);
  }

  lemma NowAtRest(opts: Options, w: World, w': World, r: int, now: int)
    requires r in w.plans && w.plans[r].runGroup == "" && Older(w, w') && GroupsStayHome(w', r)
    requires r in w'.plans ==> Steady(opts, w', r, now)
    ensures AtRest(opts, w', r, now)
  {
    hide Steady, GroupsStayHome;
  }

  lemma MoreTurns(opts: Options, w: World, w1: World, ids: seq<int>, done: set<int>, now: int, t: Outcome)
    requires ids != [] && Older(w, w1) && TurnsTaken(opts, w1, ids[1..], done + {ids[0]}, now, t)
    requires !Errs(opts, w1, ids[0]) && forall q :: q in done ==> Errs(opts, w1, q) == Errs(opts, w, q)
    ensures TurnsTaken(opts, w, ids, done, now, t)
  {
    hide AtRest, Errs, NoneExpired, Older, NoneErrs;
    OlderTransitive(w, w1, t.w);
    NoneErrsSplits(opts, t.w, ids);
    forall k | 0 <= k < |ids| && (forall m :: 0 <= m < k ==> !Errs(opts, t.w, ids[m])) ensures AtRest(opts, t.w, ids[k], now) {
      if k > 0 {
        forall m | 0 <= m < k - 1 ensures !Errs(opts, t.w, ids[1..][m]) {
          assert ids[1..][m] == ids[m + 1];
        }
        assert ids[1..][k - 1] == ids[k];
      }
    }
  }

  lemma StoppedAtOnce(opts: Options, w: World, t: Outcome, ids: seq<int>, done: set<int>, now: int)
    requires ids != [] && Older(w, t.w) && NoneExpired(t.w, now) && Errs(opts, t.w, ids[0]) && !t.ok
    requires AtRest(opts, t.w, ids[0], now)
    requires forall q :: q in done ==> AtRest(opts, t.w, q, now) && Errs(opts, t.w, q) == Errs(opts, w, q)
    ensures TurnsTaken(opts, w, ids, done, now, t)
  {
    hide AtRest, Errs, NoneExpired, Older;
  }

  // -------------------------------------------------------------------- Reaping

  /** What reaping leaves alone: it restarts running jobs and nothing else. */
  ghost predicate SameShape(w: World, w': World) {
    && w'.plans == w.plans && w'.nextJob == w.nextJob && w'.nextRun == w.nextRun && w'.jobs.Keys == w.jobs.Keys
    && forall id :: id in w.jobs ==> Worn(w.jobs[id], w'.jobs[id])
  }

  /** Only admitted unfinished jobs are on the queue. */
  ghost predicate QueueHolds(w: World) {
    forall id :: id in w.queue ==> id in w.jobs && Holds(w.jobs[id])
  }

  lemma {:induction false} ReapAllReaps(w: World, ids: seq<int>, now: int)
    requires RowsFit(w) && QueueHolds(w)
    ensures var w' := ReapAll(w, ids, now);
      && SameShape(w, w') && RowsFit(w')
      && forall id :: id in w'.queue && Expired(w'.queue[id], now) ==> id in w.queue && w.queue[id] == w'.queue[id] && id !in ids
    decreases |ids|
  {
    hide ReapOne, Worn;
    if ids == [] {
      SameShapeReflexive(w);
    } else {
      assert ids == [ids[0]] + ids[1..];
      if ids[0] in w.jobs && ids[0] in w.queue {
        ReapOneReaps(w, ids[0], now);
        ReapAllReaps(ReapOne(w, ids[0], now), ids[1..], now);
        SameShapeTransitive(w, ReapOne(w, ids[0], now), ReapAll(w, ids, now));
      } else {
        ReapAllReaps(w, ids[1..], now);
      }
    }
  }

  lemma SameShapeReflexive(w: World)
    ensures SameShape(w, w)
  {
  }

  lemma SameShapeTransitive(a: World, b: World, c: World)
    requires SameShape(a, b) && SameShape(b, c)
    ensures SameShape(a, c)
  {
    forall id | id in a.jobs ensures Worn(a.jobs[id], c.jobs[id]) {
      assert Worn(a.jobs[id], b.jobs[id]) && Worn(b.jobs[id], c.jobs[id]);
    }
  }

  lemma ReapOneReaps(w: World, id: int, now: int)
    requires RowsFit(w) && QueueHolds(w) && id in w.jobs && id in w.queue
    ensures var w' := ReapOne(w, id, now);
      && SameShape(w, w') && RowsFit(w') && QueueHolds(w') && id in w'.queue && !w'.queue[id].leased
      && forall k :: k != id ==> (k in w'.queue <==> k in w.queue) && (k in w.queue ==> w'.queue[k] == w.queue[k])
  {
  }

  lemma QueueHoldsByInv(w: World)
    requires Inv(w)
    ensures QueueHolds(w) && RowsFit(w)
  {
    hide Inv, RetryBound;
    InvHasStructure(w);
    forall id | id in w.queue ensures id in w.jobs && Holds(w.jobs[id]) {
      QueueFacts(w, id);
      JobFacts(w, id);
    }
  }

  lemma OrderlyHasShape(w: World, w': World, r: int)
    requires SameShape(w, w') && Orderly(w, r)
    ensures Orderly(w', r)
  {
    hide ListedInOrder, Worn, Cancelling;
    RosterOfSameShape(w, w', r);
    forall a, b | Rivals(w', a, b) && w'.jobs[a].runID == r
      ensures w'.jobs[b].runID in w'.plans ==> w'.jobs[b].runID == r
      ensures !InFlight(w'.jobs[a]) && CancelsInProgress(w', w'.jobs[a]) ==> !Holds(w'.jobs[b])
    {
      ShapeOfRivals(w, w', a, b);
    }
  }

  lemma ShapeOfRivals(w: World, w': World, a: int, b: int)
    requires SameShape(w, w') && Rivals(w', a, b)
    ensures Rivals(w, a, b) && w'.jobs[a].runID == w.jobs[a].runID && w'.jobs[b].runID == w.jobs[b].runID
    ensures !InFlight(w'.jobs[a]) ==> w'.jobs[a] == w.jobs[a]
    ensures Holds(w'.jobs[b]) ==> Holds(w.jobs[b])
  {
    assert Worn(w.jobs[a], w'.jobs[a]) && Worn(w.jobs[b], w'.jobs[b]);
  }

  lemma RosterOfSameShape(w: World, w': World, r: int)
    requires SameShape(w, w') && ListedInOrder(JobsOf(w, r))
    ensures ListedInOrder(JobsOf(w', r))
  {
    RosterStays(w.jobs, w'.jobs, w.nextJob, r);
    RosterListsTheJobs(w.jobs, w.nextJob, r);
    RosterListsTheJobs(w'.jobs, w.nextJob, r);
    var jobs, jobs' := JobsOf(w, r), JobsOf(w', r);
    forall k | 0 <= k < |jobs| ensures SameIdentity(jobs[k], jobs'[k]) {
      var id := RosterBelow(w.jobs, w.nextJob, r)[k];
      assert jobs[k] == w.jobs[id] && jobs'[k] == w'.jobs[id] && Worn(w.jobs[id], w'.jobs[id]);
    }
    OrderDependsOnIdentity(jobs, jobs');
  }

  lemma ReapingSettles(w: World, now: int)
    requires Inv(w)
    ensures var w' := ReapExpiredLeases(w, now); Inv(w') && NoneExpired(w', now) && SameShape(w, w') && Older(w, w')
  {
    hide Inv, SameShape;
    QueueHoldsByInv(w);
    ReapKeepsInv(w, now);
    var ids := ExpiredBelow(w, w.nextJob, now);
    ExpiredBelowIs(w, w.nextJob, now);
    ReapAllReaps(w, ids, now);
    var w' := ReapAll(w, ids, now);
    forall id | id in w'.queue ensures !Expired(w'.queue[id], now) {
    }
    OlderByShape(w, w');
  }

  lemma OlderByShape(w: World, w': World)
    requires SameShape(w, w')
    ensures Older(w, w')
  {
    forall id | id in w.jobs ensures Aging(w.jobs[id], w'.jobs[id]) {
      assert Worn(w.jobs[id], w'.jobs[id]);
    }
  }

  // --------------------------------------------------------------- The theorems

  ghost predicate AllOrderly(w: World) {
    forall r :: r in w.plans ==> Orderly(w, r)
  }

  /** Every run the tick got to has nothing due but, perhaps, a job that was passed over. */
  lemma OneTickSettles(opts: Options, w: World, now: int)
    requires Inv(w) && AllOrderly(w) && now != 0
    ensures var t := Tick(opts, w, now);
      && NoneExpired(t.w, now) && Older(w, t.w)
      && (forall r :: r in t.w.plans && Reached(opts, t.w, r) ==> Steady(opts, t.w, r, now))
      && (t.ok <==> forall r :: r in t.w.plans ==> !Errs(opts, t.w, r))
  {
    hide Inv, Structure, ReapExpiredLeases, TickRuns, Orderly, Steady, Errs, AtRest, Older, NoneExpired, SameShape, NoneErrs;
    ReapingSettles(w, now);
    var w0 := ReapExpiredLeases(w, now);
    forall r | r in w0.plans ensures Orderly(w0, r) {
      ShapeKeepsPlans(w, w0);
      OrderlyHasShape(w, w0, r);
    }
    InvHasStructure(w0);
    TrackedAreRuns(w0);
    TrackedAreThePlans(w0.plans, w0.nextRun);
    var ids := TrackedRuns(w0);
    assert forall k :: 0 <= k < |ids| ==> ids[k] in ids;
    TickRunsSettle(opts, w0, ids, {}, now);
    var t := TickRuns(opts, w0, ids, now);
    OlderTransitive(w, w0, t.w);
    OlderDropsPlans(w0, t.w);
    forall r | r in t.w.plans && Reached(opts, t.w, r) ensures Steady(opts, t.w, r, now) {
      assert r in ids;
      var k :| 0 <= k < |ids| && ids[k] == r;
      forall m | 0 <= m < k ensures !Errs(opts, t.w, ids[m]) {
        UntrackedDoNotErr(opts, t.w, ids[m]);
      }
      RestIsSteady(opts, t.w, r, now);
    }
    NoneErrsMeans(opts, t.w, ids);
  }

  lemma NoneErrsMeans(opts: Options, w: World, ids: seq<int>)
    requires forall r :: r in w.plans ==> r in ids
    ensures NoneErrs(opts, w, ids) <==> forall r :: r in w.plans ==> !Errs(opts, w, r)
  {
    hide Errs;
    if NoneErrs(opts, w, ids) {
      forall r | r in w.plans ensures !Errs(opts, w, r) {
        var k :| 0 <= k < |ids| && ids[k] == r;
      }
    }
    forall k | 0 <= k < |ids| ensures Errs(opts, w, ids[k]) ==> ids[k] in w.plans {
      UntrackedDoNotErr(opts, w, ids[k]);
    }
  }

  lemma UntrackedDoNotErr(opts: Options, w: World, r: int)
    ensures Errs(opts, w, r) ==> r in w.plans
  {
  }

  lemma RestIsSteady(opts: Options, w: World, r: int, now: int)
    requires AtRest(opts, w, r, now) && r in w.plans
    ensures Steady(opts, w, r, now)
  {
  }

  lemma ShapeKeepsPlans(w: World, w': World)
    requires SameShape(w, w')
    ensures w'.plans == w.plans
  {
  }

  lemma OlderDropsPlans(w: World, w': World)
    requires Older(w, w')
    ensures w'.plans.Keys <= w.plans.Keys
  {
  }

  /** Among orderly runs a second Tick leaves the state as it is, and reports what the first
      reported, exactly when the first passed nobody over: when no job it left waiting, with
      its needs done and a slot free, would cancel what took its group. */
  lemma TickIsIdempotentExactlyWhenNobodyIsPassedOver(opts: Options, w: World, now: int)
    requires Inv(w) && AllOrderly(w) && now != 0
    ensures var t := Tick(opts, w, now);
      && (Tick(opts, t.w, now).w == t.w
          <==> forall r :: r in t.w.plans && Reached(opts, t.w, r) ==> NobodyPassedOver(opts, t.w, r))
      && (Tick(opts, t.w, now).w == t.w ==> Tick(opts, t.w, now) == t)
  {
    hide Inv, Tick, Steady, Errs, Reached, NobodyPassedOver, NoneExpired, Older;
    var t := Tick(opts, w, now);
    OneTickSettles(opts, w, now);
    TickKeepsInv(opts, w, now);
    TickChangesNothingExactlyWhenAllIsQuiet(opts, t.w, now);
  }

  /** A job that cancels in progress is alone in its group. */
  ghost predicate CancellersAreAlone(w: World, r: int) {
    forall a, b :: Rivals(w, a, b) && w.jobs[a].runID == r ==> !CancelsInProgress(w, w.jobs[a])
  }

  lemma AloneMeansOpen(w: World, r: int)
    requires CancellersAreAlone(w, r)
    ensures GroupsOpen(w, r)
  {
    hide CancelsInProgress, Rivals;
  }

  lemma AloneIsNeverPassedOver(opts: Options, w: World, w': World, r: int)
    requires Inv(w') && Older(w, w') && CancellersAreAlone(w, r)
    ensures NobodyPassedOver(opts, w', r)
  {
    hide Inv, Structure, Wanted, FirstFailing, CountInFlight, RunGroupBlocked;
    if r in w'.runs && r in w'.plans {
      InvHasStructure(w');
      ListingIsExact(w', r);
      var run, p, jobs := w'.runs[r], w'.plans[r], JobsOf(w', r);
      SnapshotFacts(w', jobs, r);
      forall k | 0 <= k < FirstFailing(opts, run, p, jobs, 0) && Pending(jobs[k])
        ensures !PassedOver(opts, run, p, w', jobs, CountInFlight(jobs), jobs[k])
      {
        assert InStep(w', jobs[k]);
        NotPassedOver(opts, run, p, w, w', jobs, CountInFlight(jobs), jobs[k], r);
      }
    }
  }

  lemma NotPassedOver(opts: Options, run: Run, p: Plan, w: World, w': World, jobs: seq<Job>, inFlight: map<string, int>,
                      j: Job, r: int)
    requires Older(w, w') && CancellersAreAlone(w, r) && r in w'.plans && p == w'.plans[r]
    requires InStep(w', j) && j.runID == r && !j.status.Completed?
    ensures !PassedOver(opts, run, p, w', jobs, inFlight, j)
  {
    hide ComputeNeeds, ShouldRun;
    assert Aging(w.jobs[j.id], w'.jobs[j.id]);
    forall h | h in w'.jobs && h != j.id && w'.jobs[h].group == j.group != "" && Holds(w'.jobs[h])
      ensures Rivals(w, j.id, h)
    {
      assert Aging(w.jobs[h], w'.jobs[h]);
    }
  }

  /** A second Tick at one instant leaves every job, run, queue row, event and plan as the
      first left them, and reports the same: for any groups that stay within their runs, as
      long as no job cancels another of its group. */
  lemma TickIsIdempotent(opts: Options, w: World, now: int)
    requires Inv(w)
    requires forall r :: r in w.plans ==>
      && w.plans[r].runGroup == "" && ListedInOrder(JobsOf(w, r)) && GroupsStayHome(w, r) && CancellersAreAlone(w, r)
    ensures Tick(opts, Tick(opts, w, now).w, now) == Tick(opts, w, now)
  {
    hide Inv, Tick, Steady, Errs, Reached, NobodyPassedOver, NoneExpired, Older, GroupsStayHome, CancellersAreAlone, ListedInOrder,
      GroupsOpen;
    if now == 0 {
      TickNeedsATime(opts, w);
      TickNeedsATime(opts, Tick(opts, w, now).w);
    } else {
      forall r | r in w.plans ensures Orderly(w, r) {
        AloneMeansOpen(w, r);
      }
      var t := Tick(opts, w, now);
      OneTickSettles(opts, w, now);
      TickKeepsInv(opts, w, now);
      OlderDropsPlans(w, t.w);
      forall r | r in t.w.plans ensures NobodyPassedOver(opts, t.w, r) {
        AloneIsNeverPassedOver(opts, w, t.w, r);
      }
      TickIsIdempotentExactlyWhenNobodyIsPassedOver(opts, w, now);
    }
  }

  lemma TickNeedsATime(opts: Options, w: World)
    ensures Tick(opts, w, 0) == Outcome(w, false)
  {
  }
}
