/** Why a second Tick of an instant may still act. A job that was passed over displaces, in the
    next pass, what took its group; two jobs of one cancel-in-progress group are enough for
    that. Shown in general, and on one run of two such jobs, followed step by step. */
module Restless {
  import opened Model
  import opened Retry
  import opened Entities
  import opened Steps
  import opened Invariants
  import opened Moves
  import opened Attempts
  import opened Sweeps
  import opened Admissions
  import opened EntryPoints
  import opened AuditLog
  import opened Settling
  import opened Settled
  import opened Unchanged
  import opened Idempotence
  import opened Safety

  // ----------------------------------------------- Who is passed over, displaces

  /** The log of w' says of a job that held its group in w that it was cancelled since. */
  ghost predicate CancelsAHolder(w: World, w': World) {
    exists i, h :: |w.events| <= i < |w'.events| && Cancellation(w, w'.events[i], h)
  }

  ghost predicate Cancellation(w: World, e: Event, h: int) {
    h in w.jobs && Holds(w.jobs[h]) && e.kind == JobCancelled && e.jobID == h
  }

  lemma CancelsAndGoesOn(w: World, mid: World, w': World)
    requires CancelsAHolder(w, mid) && Grows(mid, w')
    ensures CancelsAHolder(w, w')
  {
    var i, h :| |w.events| <= i < |mid.events| && Cancellation(w, mid.events[i], h);
    assert w'.events[i] == mid.events[i];
  }

  lemma DisplacingIsLogged(w: World, holders: seq<Job>, now: int)
    requires holders != [] && InStep(w, holders[0]) && Holds(holders[0])
    ensures CancelsAHolder(w, DisplaceAll(w, holders, now))
  {
    hide DisplaceAll, Grows;
    var h := holders[0];
    var f := StopJob(w, None, h, Because(ActorConcurrencyGroup), Cancelled, ClassNone, now, false);
    assert f.w.events == w.events + [JobEvent(JobCancelled, f.job, now)] && f.job.id == h.id;
    assert Cancellation(w, f.w.events[|w.events|], h.id);
    DisplaceGrows(f.w, holders[1..], now);
    DisplaceFirst(w, holders, now);
    CancelsAndGoesOn(w, f.w, DisplaceAll(w, holders, now));
  }

  lemma DisplaceFirst(w: World, holders: seq<Job>, now: int)
    requires holders != []
    ensures var f := StopJob(w, None, holders[0], Because(ActorConcurrencyGroup), Cancelled, ClassNone, now, false);
      DisplaceAll(w, holders, now) == DisplaceAll(f.w, holders[1..], now)
  {
  }

  lemma PassedOverDisplaces(opts: Options, run: Run, p: Plan, i: nat, a: Admission, now: int)
    requires Structure(a.w) && i < |a.jobs| && a.taken == {} && Pending(a.jobs[i])
    requires PassedOver(opts, run, p, a.w, a.jobs, a.inFlight, a.jobs[i])
    ensures CancelsAHolder(a.w, AdmitOne(opts, run, p, i, a, now).w)
  {
    hide Structure, ComputeNeeds, ShouldRun, FinishAttempt, Find, LiveBelow, HoldersOf, DisplaceAll, AdmitToQueue,
      CancelsAHolder, Grows, DistinctIds;
    var j := a.jobs[i];
    HeldMeansHolders(a.w, j);
    HoldersAreAll(a.w, j);
    var holders := HoldersOf(LiveBelow(a.w.jobs, a.w.nextJob, j.group), j.id);
    assert holders[0] in holders;
    DisplacingIsLogged(a.w, holders, now);
    var freed := DisplaceAll(a.w, holders, now);
    QueueGrows(freed, j, now);
    CancelsAndGoesOn(a.w, freed, AdmitToQueue(freed, j, now).w);
  }

  /** The first job that was passed over is reached with nothing changed before it. */
  lemma {:induction false} PassReachesThePassedOver(opts: Options, run: Run, p: Plan, m: nat, a: Admission, i: nat, now: int)
    requires Structure(a.w) && a.ok && a.taken == {} && m <= i < |a.jobs|
    requires i < FirstFailing(opts, run, p, a.jobs, m) && Pending(a.jobs[i])
    requires PassedOver(opts, run, p, a.w, a.jobs, a.inFlight, a.jobs[i])
    requires forall k :: m <= k < i && Pending(a.jobs[k]) ==>
      Stuck(opts, run, p, a.w, a.jobs, a.inFlight, a.jobs[k]) && !PassedOver(opts, run, p, a.w, a.jobs, a.inFlight, a.jobs[k])
    ensures CancelsAHolder(a.w, AdmitFrom(opts, run, p, m, a, now).w)
    decreases i - m
  {
    hide Structure, Stuck, PassedOver, Failing, AdmitOne, CancelsAHolder, Grows;
    var next := AdmitOne(opts, run, p, m, a, now);
    if m < i {
      if Pending(a.jobs[m]) {
        QuietLook(opts, run, p, m, a, now);
      } else {
        SettledJobsAreSkipped(opts, run, p, m, a, now);
      }
      PassReachesThePassedOver(opts, run, p, m + 1, a, i, now);
    } else {
      PassedOverDisplaces(opts, run, p, i, a, now);
      AdmitFromGrows(opts, run, p, i + 1, next, now);
      CancelsAndGoesOn(a.w, next.w, AdmitFrom(opts, run, p, i + 1, next, now).w);
    }
  }

  lemma SettledJobsAreSkipped(opts: Options, run: Run, p: Plan, i: nat, a: Admission, now: int)
    requires i < |a.jobs| && !Pending(a.jobs[i])
    ensures AdmitOne(opts, run, p, i, a, now) == a
  {
  }

  lemma FirstPassedOver(opts: Options, run: Run, p: Plan, w: World, jobs: seq<Job>, inFlight: map<string, int>, stop: nat)
    returns (i: nat)
    requires stop <= |jobs|
    requires exists k :: 0 <= k < stop && Pending(jobs[k]) && PassedOver(opts, run, p, w, jobs, inFlight, jobs[k])
    ensures i < stop && Pending(jobs[i]) && PassedOver(opts, run, p, w, jobs, inFlight, jobs[i])
    ensures forall k :: 0 <= k < i && Pending(jobs[k]) ==> !PassedOver(opts, run, p, w, jobs, inFlight, jobs[k])
  {
    hide PassedOver;
    i := 0;
    while !(Pending(jobs[i]) && PassedOver(opts, run, p, w, jobs, inFlight, jobs[i]))
      invariant i < stop
      invariant forall k :: 0 <= k < i && Pending(jobs[k]) ==> !PassedOver(opts, run, p, w, jobs, inFlight, jobs[k])
      decreases stop - i
    {
      i := i + 1;
      if i == stop {
        assert false;
      }
    }
  }

  lemma RunWithSomeonePassedOver(opts: Options, w: World, r: int, now: int)
    requires Structure(w) && Steady(opts, w, r, now) && !NobodyPassedOver(opts, w, r)
    ensures CancelsAHolder(w, TickRun(opts, w, r, now).w)
  {
    hide Structure, RunOverdue, TimeoutsFrom, FailFastFrom, AdmitFrom, LegsSettled, Stuck, PassedOver, WithinBudget, FirstFailing,
      RunGroupBlocked, CancelsAHolder, CountInFlight, KeysOf, FinalizeIfComplete, Grows, AllCompleted, EnforceRunTimeout;
    var run, p, jobs := w.runs[r], w.plans[r], JobsOf(w, r);
    NotOverdue(opts, w, run, jobs, now);
    QuietTimeouts(opts, w, jobs, 0, now);
    QuietFailFast(w, p, jobs, KeysOf(jobs), now);
    var start := Admission(w, jobs, CountInFlight(jobs), {}, true);
    var i := FirstPassedOver(opts, run, p, w, jobs, start.inFlight, FirstFailing(opts, run, p, jobs, 0));
    PassReachesThePassedOver(opts, run, p, 0, start, i, now);
    var a := AdmitReadyJobs(opts, w, run, p, jobs, now);
    FinalizeGrows(a.w, run, a.jobs, now);
    CancelsAndGoesOn(w, a.w, if a.ok then FinalizeIfComplete(a.w, run, a.jobs, now).w else a.w) by {
      GrowsReflexive(a.w);
    }
  }

  lemma {:induction false} RunsWithSomeonePassedOver(opts: Options, w: World, ids: seq<int>, k: nat, now: int)
    requires Structure(w) && k < |ids| && !NobodyPassedOver(opts, w, ids[k])
    requires forall m :: 0 <= m < k ==> !Errs(opts, w, ids[m])
    requires forall m :: 0 <= m <= k ==> Steady(opts, w, ids[m], now)
    ensures CancelsAHolder(w, TickRuns(opts, w, ids, now).w)
    decreases |ids|
  {
    hide Structure, Steady, TickRun, NobodyPassedOver, Errs, CancelsAHolder, Grows;
    if NobodyPassedOver(opts, w, ids[0]) {
      QuietRunIsLeftAlone(opts, w, ids[0], now);
      RunsWithSomeonePassedOver(opts, w, ids[1..], k - 1, now);
    } else {
      RunWithSomeonePassedOver(opts, w, ids[0], now);
      var t := TickRun(opts, w, ids[0], now);
      TickRunsGrow(opts, t.w, ids[1..], now);
      if t.ok {
        CancelsAndGoesOn(w, t.w, TickRuns(opts, t.w, ids[1..], now).w);
      }
    }
  }

  /** Whoever was passed over is no curiosity of the log: the next Tick of the same instant
      cancels a job the first one let have its group. */
  lemma PassedOverMakesTheNextTickCancel(opts: Options, w: World, r: int, now: int)
    requires Inv(w) && AllOrderly(w) && now != 0
    requires var w1 := Tick(opts, w, now).w; r in w1.plans && Reached(opts, w1, r) && !NobodyPassedOver(opts, w1, r)
    ensures var w1 := Tick(opts, w, now).w; CancelsAHolder(w1, Tick(opts, w1, now).w)
  {
    hide Inv, Structure, Tick, Steady, Errs, NobodyPassedOver, NoneExpired, Older, CancelsAHolder, TickRuns, Orderly,
      ReapExpiredLeases, TrackedBelow;
    var w1 := Tick(opts, w, now).w;
    OneTickSettles(opts, w, now);
    TickKeepsInv(opts, w, now);
    InvHasStructure(w1);
    NothingToReap(w1, now);
    var k := TurnOf(w1, r);
    var ids := TrackedRuns(w1);
    forall m | 0 <= m <= k ensures Steady(opts, w1, ids[m], now) && (m < k ==> !Errs(opts, w1, ids[m])) {
    }
    RunsWithSomeonePassedOver(opts, w1, ids, k, now);
    TickIsReapAndRuns(opts, w1, now);
  }

  /** Where in the order of the tracked runs a run has its turn. */
  lemma TurnOf(w: World, r: int) returns (k: nat)
    requires Structure(w) && r in w.plans
    ensures var ids := TrackedRuns(w);
      k < |ids| && ids[k] == r && forall m :: 0 <= m <= k ==> ids[m] in w.plans && (m < k ==> ids[m] < r)
  {
    hide Structure, TrackedBelow;
    TrackedAreRuns(w);
    TrackedAreThePlans(w.plans, w.nextRun);
    var ids := TrackedRuns(w);
    assert r in ids;
    k :| 0 <= k < |ids| && ids[k] == r;
    forall m | 0 <= m <= k ensures ids[m] in w.plans {
      assert ids[m] in ids;
    }
  }

  lemma TickIsReapAndRuns(opts: Options, w: World, now: int)
    requires now != 0 && ReapExpiredLeases(w, now) == w
    ensures Tick(opts, w, now) == TickRuns(opts, w, TrackedRuns(w), now)
  {
    hide TickRuns, ReapExpiredLeases;
  }

  // --------------------------------------------------- Two of a group are enough

  /** An unfinished job that would cancel for its group, with its needs done and no cap on
      its legs. */
  ghost predicate Contender(opts: Options, w: World, r: int, id: int) {
    && r in w.runs && r in w.plans && id in w.jobs && w.jobs[id].runID == r
    && !w.jobs[id].status.Completed? && !w.jobs[id].awaitingApproval
    && Wanted(opts, w.runs[r], w.plans[r], JobsOf(w, r), w.jobs[id])
    && (var pj := Find(w.plans[r].jobs, w.jobs[id].key, w.jobs[id].matrixKey).value; pj.cancelInProgress && pj.maxParallel <= 0)
  }

  lemma OneOfTwoWaits(w: World, a: int, b: int)
    requires Inv(w) && Rivals(w, a, b) && !w.jobs[a].awaitingApproval && !w.jobs[b].awaitingApproval
    ensures Pending(w.jobs[a]) || Pending(w.jobs[b])
  {
    hide Structure, NoJobLost, SlotsRespected, NoEarlyStart, VerdictsHonest, RetriesBounded, History;
  }

  lemma WaitingContenderIsPassedOver(opts: Options, w: World, r: int, id: int, now: int)
    requires Inv(w) && Steady(opts, w, r, now) && !Errs(opts, w, r) && w.plans[r].runGroup == ""
    requires Contender(opts, w, r, id) && Pending(w.jobs[id])
    ensures !NobodyPassedOver(opts, w, r)
  {
    hide Inv, Structure, ComputeNeeds, ShouldRun, CountInFlight, LegsSettled, WithinBudget, RunOverdue, Find;
    InvHasStructure(w);
    ListingIsExact(w, r);
    var run, p, jobs := w.runs[r], w.plans[r], JobsOf(w, r);
    SnapshotFacts(w, jobs, r);
    var k :| 0 <= k < |jobs| && jobs[k].id == id;
    assert InStep(w, jobs[k]);
    assert Stuck(opts, run, p, w, jobs, CountInFlight(jobs), jobs[k]);
    assert PassedOver(opts, run, p, w, jobs, CountInFlight(jobs), jobs[k]);
  }

  /** Two jobs of one cancel-in-progress group that are both to run: the first Tick lets one of
      them in, and the second, at the same instant, cancels a job the first let in. */
  lemma RivalsMakeTheNextTickCancel(opts: Options, w: World, r: int, a: int, b: int, now: int)
    requires Inv(w) && AllOrderly(w) && now != 0 && Tick(opts, w, now).ok
    requires var w1 := Tick(opts, w, now).w; Rivals(w1, a, b) && Contender(opts, w1, r, a) && Contender(opts, w1, r, b)
    ensures var w1 := Tick(opts, w, now).w; CancelsAHolder(w1, Tick(opts, w1, now).w)
  {
    hide Inv, Tick, Steady, Errs, NobodyPassedOver, NoneExpired, Older, CancelsAHolder, Wanted, Orderly;
    var w1 := Tick(opts, w, now).w;
    OneTickSettles(opts, w, now);
    TickKeepsInv(opts, w, now);
    OneOfTwoWaits(w1, a, b);
    PlanOfAnOrderlyRun(w, w1, r);
    WaitingContenderIsPassedOver(opts, w1, r, if Pending(w1.jobs[a]) then a else b, now);
    PassedOverMakesTheNextTickCancel(opts, w, r, now);
  }

  lemma PlanOfAnOrderlyRun(w: World, w1: World, r: int)
    requires AllOrderly(w) && Older(w, w1) && r in w1.plans
    ensures w1.plans[r].runGroup == ""
  {
    assert Orderly(w, r);
  }

  // ------------------------------------------------------------------ Two jobs

  function Planned(key: string): PlannedJob {
    PlannedJob(key, "", [], [], "", false, RetryPolicy(1, [], BackoffNone, 0, 0), "deploys", true, false, 0, false, 0)
  }

  function Unstarted(id: int, key: string): Job {
    Job(id, 1, key, "", [], [], 1, Queued, NoConclusion, ClassNone, None, "deploys", false, 0, "", false, map[],
        None, None, None, None, None, 0)
  }

  const TwoOfAGroup := Plan([Planned("a"), Planned("b")], "", false)

  /** One run just started, with two independent jobs that share a cancel-in-progress group. */
  const JustStarted := World(
    map[1 := Run(1, 1, 5, false, false, InProgress, NoConclusion, None, Some(5), None)], 2,
    map[1 := Unstarted(1, "a"), 2 := Unstarted(2, "b")], 3,
    map[], map[], [Event(RunStarted, 1, 0, 0, 5, 0)], map[1 := TwoOfAGroup], map[], map[1 := TwoOfAGroup])

  const First := Unstarted(1, "a").(queuedAt := Some(10))
  const Second := Unstarted(2, "b").(status := Waiting)
  const Calm := NeedsState(true, map[], true, false, false)

  /** The world after the first pass: one job queued, the other held. */
  function AfterOneTick(): World {
    JustStarted.(
      jobs := map[1 := First, 2 := Second],
      queue := map[1 := Row([], "deploys", 10, 10, false, "", 0)],
      events := JustStarted.events + [JobEvent(JobQueued, First, 10), JobEvent(JobWaiting, Second, 10)])
  }

  lemma NobodyHoldsYet()
    ensures HoldersOf(LiveBelow(JustStarted.jobs, 3, "deploys"), 1) == []
  {
    var live := LiveBelow(JustStarted.jobs, 3, "deploys");
    LiveOfTwo(JustStarted.jobs);
    assert live == [Unstarted(1, "a"), Unstarted(2, "b")];
    assert HoldersOf(live[2..], 1) == [];
    assert HoldersOf(live[1..], 1) == [];
  }

  lemma LiveOfTwo(jobs: map<int, Job>)
    requires 1 in jobs && 2 in jobs && 0 !in jobs
    requires jobs[1].group == jobs[2].group == "deploys" && !jobs[1].status.Completed? && !jobs[2].status.Completed?
    ensures LiveBelow(jobs, 3, "deploys") == [jobs[1], jobs[2]]
  {
    assert LiveBelow(jobs, 1, "deploys") == [];
    assert LiveBelow(jobs, 2, "deploys") == [jobs[1]];
  }

  lemma JobsOfTwo(w: World)
    requires w.nextJob == 3 && 0 !in w.jobs && 1 in w.jobs && 2 in w.jobs && w.jobs[1].runID == w.jobs[2].runID == 1
    ensures JobsOf(w, 1) == [w.jobs[1], w.jobs[2]]
  {
    assert JobsBelow(w.jobs, 1, 1) == [];
    assert JobsBelow(w.jobs, 2, 1) == [w.jobs[1]];
  }

  /** Nothing is due before admission: no lease, no timeout, no failed leg. */
  lemma OnlyAdmissionActs(opts: Options, w: World, now: int)
    requires opts.runTimeout >= 10 && 0 < now <= 10
    requires w.runs == JustStarted.runs && w.nextRun == 2 && w.plans == JustStarted.plans && w.nextJob == 3
    requires w.jobs.Keys == {1, 2} && (forall id :: id in w.queue ==> !w.queue[id].leased)
    requires w.jobs[1].runID == w.jobs[2].runID == 1 && w.jobs[1].key == "a" && w.jobs[2].key == "b"
    requires !w.jobs[1].status.InProgress? && !w.jobs[2].status.InProgress?
    requires var a := AdmitReadyJobs(opts, w, w.runs[1], TwoOfAGroup, [w.jobs[1], w.jobs[2]], now);
      a.ok && !AllCompleted(a.jobs)
    ensures Tick(opts, w, now)
         == Outcome(AdmitReadyJobs(opts, w, w.runs[1], TwoOfAGroup, [w.jobs[1], w.jobs[2]], now).w, true)
  {
    hide AdmitReadyJobs, KeysOf;
    NothingReaped(w, now);
    var run, jobs := w.runs[1], [w.jobs[1], w.jobs[2]];
    JobsOfTwo(w);
    assert TrackedRuns(w) == [1] by {
      assert TrackedBelow(w.plans, 1) == [];
    }
    assert TimeoutsFrom(opts, w, jobs, 0, now) == Sweep(w, jobs, true) by {
      assert EnforceJobTimeout(opts, w, jobs[0], now) == Finished(w, jobs[0], true);
      assert EnforceJobTimeout(opts, w, jobs[1], now) == Finished(w, jobs[1], true);
      assert jobs[0 := jobs[0]] == jobs && jobs[1 := jobs[1]] == jobs;
      assert TimeoutsFrom(opts, w, jobs, 2, now) == Sweep(w, jobs, true);
    }
    SingleLegsDoNotFailFast(w, TwoOfAGroup, jobs, KeysOf(jobs), now);
    assert EnforceRunTimeout(opts, w, run, jobs, now) == RunSweep(w, run, jobs);
    assert TickRun(opts, w, 1, now).w == AdmitReadyJobs(opts, w, run, TwoOfAGroup, jobs, now).w && TickRun(opts, w, 1, now).ok;
    assert [1][1..] == [];
    assert TickRuns(opts, w, [1], now) == TickRuns(opts, TickRun(opts, w, 1, now).w, [], now);
  }

  lemma NothingReaped(w: World, now: int)
    requires w.nextJob == 3 && forall id :: id in w.queue ==> !w.queue[id].leased
    ensures ReapExpiredLeases(w, now) == w
  {
    assert ReapedBelow(w, 1, now) == [];
    assert ReapedBelow(w, 2, now) == [];
    assert ReapedBelow(w, 3, now) == [];
    forall id | id in w.queue ensures !Expired(w.queue[id], now) {
    }
    assert DropExpiredLeases(w, now).queue == w.queue;
    assert DropExpiredLeases(w, now).jobs == w.jobs;
  }

  lemma {:induction false} SingleLegsDoNotFailFast(w: World, p: Plan, jobs: seq<Job>, keys: seq<string>, now: int)
    requires |jobs| == 2 && jobs[0].key != jobs[1].key
    ensures FailFastFrom(w, p, jobs, keys, now) == Sweep(w, jobs, true)
    decreases |keys|
  {
    if keys != [] {
      assert jobs[1..][1..] == [];
      assert |LegsOf(jobs[1..], keys[0])| <= 1;
      assert |LegsOf(jobs, keys[0])| < 2;
      SingleLegsDoNotFailFast(w, p, jobs, keys[1..], now);
    }
  }

  lemma FirstPass(opts: Options)
    ensures var w := JustStarted;
      var a := AdmitReadyJobs(opts, w, w.runs[1], TwoOfAGroup, [w.jobs[1], w.jobs[2]], 10);
      a.ok && a.w == AfterOneTick() && a.jobs == [First, Second]
  {
    hide HoldersOf, LiveBelow;
    var w := JustStarted;
    var a, b := Unstarted(1, "a"), Unstarted(2, "b");
    NobodyHoldsYet();
    assert CountInFlight([a, b]) == map[] by {
      assert [a, b][..1] == [a] && [a][..0] == [];
      assert CountInFlight([a]) == map[];
    }
    var start := Admission(w, [a, b], map[], {}, true);
    var one := AdmitOne(opts, w.runs[1], TwoOfAGroup, 0, start, 10);
    assert one == Admission(AfterFirst(), [First, b], map["a" := 1], {"deploys"}, true) by {
      AdmitFirst(opts);
    }
    var two := AdmitOne(opts, w.runs[1], TwoOfAGroup, 1, one, 10);
    assert two == Admission(AfterOneTick(), [First, Second], map["a" := 1], {"deploys"}, true) by {
      HoldSecond(opts);
    }
    assert AdmitFrom(opts, w.runs[1], TwoOfAGroup, 2, two, 10) == two;
    assert AdmitFrom(opts, w.runs[1], TwoOfAGroup, 1, one, 10) == two;
  }

  function AfterFirst(): World {
    JustStarted.(
      jobs := map[1 := First, 2 := Unstarted(2, "b")],
      queue := map[1 := Row([], "deploys", 10, 10, false, "", 0)],
      events := JustStarted.events + [JobEvent(JobQueued, First, 10)])
  }

  lemma AdmitFirst(opts: Options)
    ensures AdmitOne(opts, JustStarted.runs[1], TwoOfAGroup, 0,
                     Admission(JustStarted, [Unstarted(1, "a"), Unstarted(2, "b")], map[], {}, true), 10)
         == Admission(AfterFirst(), [First, Unstarted(2, "b")], map["a" := 1], {"deploys"}, true)
  {
    hide HoldersOf, LiveBelow;
    NobodyHoldsYet();
    var a, b := Unstarted(1, "a"), Unstarted(2, "b");
    assert ComputeNeeds(Planned("a"), [a, b], false) == NeedsOk(Calm);
    assert AdmitToGroup(JustStarted, a, Planned("a"), {}, 10) == GroupDecision(JustStarted, a, {"deploys"}, true);
    assert AdmitToQueue(JustStarted, a, 10) == Finished(AfterFirst(), First, true) by {
      assert PutJob(JustStarted, First).jobs == map[1 := First, 2 := b];
      assert Enqueue(PutJob(JustStarted, First), First, 10, None).queue == AfterFirst().queue;
      assert Enqueue(PutJob(JustStarted, First), First, 10, None).jobs == AfterFirst().jobs;
    }
    assert [a, b][0 := First] == [First, b];
  }

  lemma HoldSecond(opts: Options)
    ensures AdmitOne(opts, JustStarted.runs[1], TwoOfAGroup, 1,
                     Admission(AfterFirst(), [First, Unstarted(2, "b")], map["a" := 1], {"deploys"}, true), 10)
         == Admission(AfterOneTick(), [First, Second], map["a" := 1], {"deploys"}, true)
  {
    var b := Unstarted(2, "b");
    assert TwoOfAGroup.jobs[1..][0] == Planned("b");
    assert Find(TwoOfAGroup.jobs, "b", "") == Some(Planned("b"));
    assert ComputeNeeds(Planned("b"), [First, b], false) == NeedsOk(Calm);
    assert HoldForGroup(AfterFirst(), b, 10) == Finished(AfterOneTick(), Second, true) by {
      assert PutJob(AfterFirst(), Second).jobs == AfterOneTick().jobs;
    }
    assert [First, b][1 := Second] == [First, Second];
  }

  const Opening := [ActCreateRun(5, false), ActStartRun(1, TwoOfAGroup)]

  lemma JustStartedIsReached(opts: Options)
    ensures LeadsTo(opts, Opening, JustStarted) && Reachable(opts, JustStarted)
  {
    hide LegalHistory, ApplyAll;
    var created := Apply(opts, EmptyWorld, ActCreateRun(5, false));
    NothingYet(opts);
    OneMoreStep(opts, [], EmptyWorld, ActCreateRun(5, false));
    assert [] + [ActCreateRun(5, false)] == [ActCreateRun(5, false)];
    StartingTwo(opts, created);
    OneMoreStep(opts, [ActCreateRun(5, false)], created, ActStartRun(1, TwoOfAGroup));
    assert [ActCreateRun(5, false)] + [ActStartRun(1, TwoOfAGroup)] == Opening;
  }

  lemma StartingTwo(opts: Options, created: World)
    requires created == Apply(opts, EmptyWorld, ActCreateRun(5, false))
    ensures Legal(created, ActStartRun(1, TwoOfAGroup)) && Apply(opts, created, ActStartRun(1, TwoOfAGroup)) == JustStarted
  {
    var run := created.runs[1];
    var a, b := NewJob(1, run, Planned("a"), false), NewJob(2, run, Planned("b"), false);
    assert TwoOfAGroup.jobs[1..] == [Planned("b")];
    var one := created.(jobs := created.jobs[1 := a], nextJob := 2);
    var two := one.(jobs := one.jobs[2 := b], nextJob := 3);
    assert CreateJobs(one, run, [Planned("b")], false) == two by {
      assert [Planned("b")][1..] == [];
      assert CreateJobs(two, run, [], false) == two;
    }
    assert CreateJobs(created, run, TwoOfAGroup.jobs, false) == two;
    assert two.jobs == JustStarted.jobs;
  }

  lemma JustStartedIsOrderly()
    ensures AllOrderly(JustStarted)
  {
    JobsOfTwo(JustStarted);
    forall r | r in JustStarted.plans ensures Orderly(JustStarted, r) {
    }
  }

  lemma BothWantToRun(opts: Options)
    ensures Contender(opts, AfterOneTick(), 1, 1) && Contender(opts, AfterOneTick(), 1, 2) && Rivals(AfterOneTick(), 1, 2)
  {
    JobsOfTwo(AfterOneTick());
    assert TwoOfAGroup.jobs[1..][0] == Planned("b");
    assert Find(TwoOfAGroup.jobs, "a", "") == Some(Planned("a"));
    assert Find(TwoOfAGroup.jobs, "b", "") == Some(Planned("b"));
    assert ComputeNeeds(Planned("a"), [First, Second], false) == NeedsOk(Calm);
    assert ComputeNeeds(Planned("b"), [First, Second], false) == NeedsOk(Calm);
  }

  /** Job id was let in and is still there in once; by twice it has been cancelled. */
  ghost predicate LetInThenCancelled(once: World, twice: World, id: int) {
    && id in once.queue && id in once.jobs && Holds(once.jobs[id])
    && exists i :: |once.events| <= i < |twice.events| && Cancellation(once, twice.events[i], id)
  }

  /** Tick is documented as idempotent within an instant. Here a run of two jobs is created
      and started; the first Tick queues one of the two, and the second, for the same
      instant, cancels it. */
  lemma TickIsNotIdempotentWithGroups(opts: Options)
    requires opts.runTimeout >= 10
    ensures LeadsTo(opts, Opening, JustStarted)
    ensures var once := Tick(opts, JustStarted, 10).w; LetInThenCancelled(once, Tick(opts, once, 10).w, 1)
  {
    hide AdmitReadyJobs, Tick, Contender, AllOrderly, Inv, Reachable, LeadsTo;
    JustStartedIsReached(opts);
    ReachableIsSafe(opts, JustStarted);
    FirstPass(opts);
    assert [First, Second][0] == First;
    OnlyAdmissionActs(opts, JustStarted, 10);
    JustStartedIsOrderly();
    BothWantToRun(opts);
    RivalsMakeTheNextTickCancel(opts, JustStarted, 1, 1, 2, 10);
    OnlyTheFirstCanBeCancelled(AfterOneTick(), Tick(opts, AfterOneTick(), 10).w);
  }

  lemma OnlyTheFirstCanBeCancelled(once: World, twice: World)
    requires once == AfterOneTick() && CancelsAHolder(once, twice)
    ensures LetInThenCancelled(once, twice, 1)
  {
    var i, h :| |once.events| <= i < |twice.events| && Cancellation(once, twice.events[i], h);
    assert h == 1;
  }
}
