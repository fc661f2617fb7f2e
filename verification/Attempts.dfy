/** Ending, retrying, holding and admitting a job are fair moves; so are the sweeps over a
    run's jobs that are made of them. The second half is about snapshots: the list of jobs
    an entry point read stays in step with the rows while it works through the list. */
module Attempts {
  import opened Model
  import opened Retry
  import opened Entities
  import opened Steps
  import opened Invariants
  import opened Moves

  // ------------------------------------------------------------- One attempt

  /** What the invariant says of one job. */
  lemma JobFacts(w: World, id: int)
    requires Inv(w) && id in w.jobs
    ensures w.jobs[id].id == id && 0 < id < w.nextJob && w.jobs[id].runID in w.origin && w.jobs[id].runID in w.runs
    ensures RowsAgree(w.jobs[id], w.queue) && RetryBound(w, w.jobs[id])
  {
  }

  /** j is the current row of its job, up to its outputs. */
  ghost predicate Current(w: World, j: Job) {
    j.id in w.jobs && w.jobs[j.id] == j.(outputs := w.jobs[j.id].outputs)
  }

  lemma ConcludeKeepsInv(w: World, j: Job, res: Result, now: int)
    requires Inv(w) && Current(w, j) && !j.status.Completed? && res.Valid()
    ensures Inv(Conclude(w, j, res, now).w)
    ensures Updates(w, Conclude(w, j, res, now).w, Concluded(j, res, now))
    ensures Conclude(w, j, res, now).job == Concluded(j, res, now) && Conclude(w, j, res, now).ok
  {
    hide Inv, NeedMet;
    var done := Concluded(j, res, now);
    var w' := Conclude(w, j, res, now).w;
    var e := Some(JobEvent(TerminalKind(res), done, now));
    JobFacts(w, j.id);
    assert RetryBound(w, done) by {
      forall pj | PlannedAs(w, done, pj) ensures PlannedAs(w, w.jobs[j.id], pj) {
      }
    }
    assert FairMove(w, w', done, e);
    FairMoveKeepsInv(w, w', done, e);
  }

  lemma RetryKeepsInv(w: World, pj: PlannedJob, j: Job, now: int)
    requires Inv(w) && Current(w, j) && InFlight(j)
    requires PlannedAs(w, j, pj) && j.infraRetryCount + 1 < pj.retry.attempts
    ensures Inv(RequeueForRetry(w, pj, j, now).w)
    ensures Updates(w, RequeueForRetry(w, pj, j, now).w, RequeueForRetry(w, pj, j, now).job)
    ensures RequeueForRetry(w, pj, j, now).ok
  {
    hide Inv, NeedMet, Delay;
    var f := RequeueForRetry(w, pj, j, now);
    var next := f.job;
    var until := now + Delay(pj.retry, next.infraRetryCount + 1);
    var e := Some(JobEvent(Retried, next, now).(until := until));
    JobFacts(w, j.id);
    assert PlannedAs(w, w.jobs[j.id], pj);
    assert f.w.jobs == w.jobs[j.id := next];
    assert RetryBound(w, next) by {
      forall other | PlannedAs(w, next, other) ensures other == pj {
      }
    }
    assert FairMove(w, f.w, next, e);
    FairMoveKeepsInv(w, f.w, next, e);
  }

  lemma SamePlan(w: World, w': World, j: Job, j': Job, pj: PlannedJob)
    requires PlannedAs(w, j, pj) && w'.origin == w.origin && SameIdentity(j, j')
    ensures PlannedAs(w', j', pj)
  {
  }

  lemma UpdatesIgnoreTheLog(w: World, noted: World, w': World, j: Job)
    requires Updates(noted, w', j) && noted == w.(events := noted.events)
    ensures Updates(w, w', j)
  {
  }

  /** Ending an attempt keeps the invariant; a retry needs the attempt to be one
      that was admitted. */
  lemma FinishAttemptKeepsInv(w: World, pj: Option<PlannedJob>, j: Job, res: Result, now: int, allowRetry: bool)
    requires Inv(w) && j.id in w.jobs && w.jobs[j.id] == j && !j.status.Completed?
    requires allowRetry && pj.Some? ==> PlannedAs(w, j, pj.value) && InFlight(j)
    ensures var f := FinishAttempt(w, pj, j, res, now, allowRetry);
      && Inv(f.w)
      && (if f.ok then Updates(w, f.w, f.job) else f.w == w && f.job == j)
  {
    hide Inv, Updates, Noted, Conclude, RequeueForRetry, PlannedAs;
    if res.Valid() && !(allowRetry && pj.None?) {
      NotedKeepsInv(w, j, res, now);
      var noted, job := Noted(w, j, res, now), WithOutputs(j, res);
      if allowRetry && res.fault == ClassInfra && Retries(pj.value.retry, ClassInfra, j.infraRetryCount + 1) {
        SamePlan(w, noted, j, job, pj.value);
        RetryKeepsInv(noted, pj.value, job, now);
        UpdatesIgnoreTheLog(w, noted, RequeueForRetry(noted, pj.value, job, now).w, RequeueForRetry(noted, pj.value, job, now).job);
      } else {
        ConcludeKeepsInv(noted, job, res, now);
        UpdatesIgnoreTheLog(w, noted, Conclude(noted, job, res, now).w, Concluded(job, res, now));
      }
    }
  }

  lemma NotedKeepsInv(w: World, j: Job, res: Result, now: int)
    requires Inv(w) && j.id in w.jobs && w.jobs[j.id] == j
    ensures var noted := Noted(w, j, res, now);
      Inv(noted) && Current(noted, WithOutputs(j, res)) && noted == w.(events := noted.events)
  {
    hide Inv;
    if res.classReason != "" {
      NeutralEventKeepsInv(w, JobEvent(Classified, j, now));
    }
  }

  /** Stopping a job for a reason of the scheduler's own always works, and ends it. */
  lemma StopKeepsInv(w: World, j: Job, reason: CancelReason, conclusion: Conclusion, fault: FailureClass, now: int)
    requires Inv(w) && j.id in w.jobs && w.jobs[j.id] == j && !j.status.Completed?
    requires reason.Valid() && Imposed(conclusion, fault, reason).Valid()
    ensures var f := StopJob(w, None, j, reason, conclusion, fault, now, false);
      && f.ok && Inv(f.w) && Updates(w, f.w, f.job) && f.job == Concluded(j, Imposed(conclusion, fault, reason), now)
  {
    hide Inv;
    FinishAttemptKeepsInv(w, None, j, Imposed(conclusion, fault, reason), now, false);
  }

  lemma HoldKeepsInv(w: World, j: Job, now: int)
    requires Inv(w) && j.id in w.jobs && w.jobs[j.id] == j && Pending(j)
    ensures var f := HoldForGroup(w, j, now); Inv(f.w) && Updates(w, f.w, f.job) && Pending(f.job)
  {
    hide Inv, NeedMet;
    if !j.status.Waiting? {
      var held := j.(status := Waiting);
      JobFacts(w, j.id);
      var w' := HoldForGroup(w, j, now).w;
      assert RetryBound(w, held) by {
        forall pj | PlannedAs(w, held, pj) ensures PlannedAs(w, j, pj) {
        }
      }
      assert FairMove(w, w', held, Some(JobEvent(JobWaiting, held, now)));
      FairMoveKeepsInv(w, w', held, Some(JobEvent(JobWaiting, held, now)));
    }
  }

  lemma AdmitKeepsInv(w: World, j: Job, now: int)
    requires Inv(w) && j.id in w.jobs && w.jobs[j.id] == j && Pending(j)
    requires GroupFree(w, j) && SlotFree(w, j) && NeedsHold(w, j)
    ensures var f := AdmitToQueue(w, j, now); Inv(f.w) && Updates(w, f.w, f.job) && InFlight(f.job)
  {
    hide Inv, NeedMet, SlotFree, NeedsHold, RetryBound;
    var queued := j.(status := Queued, queuedAt := Some(now));
    var w' := AdmitToQueue(w, j, now).w;
    JobFacts(w, j.id);
    assert w'.jobs == w.jobs[j.id := queued];
    SamePlanAllows(w, j, queued);
    assert FairMove(w, w', queued, Some(JobEvent(JobQueued, queued, now)));
    FairMoveKeepsInv(w, w', queued, Some(JobEvent(JobQueued, queued, now)));
  }

  /** What a job may do depends on its plan, not on where it stands. */
  lemma SamePlanAllows(w: World, j: Job, j': Job)
    requires j' == j.(status := j'.status, queuedAt := j'.queuedAt)
    requires RetryBound(w, j) && SlotFree(w, j) && NeedsHold(w, j)
    ensures RetryBound(w, j') && SlotFree(w, j') && NeedsHold(w, j')
  {
    hide NeedMet;
    forall pj | PlannedAs(w, j', pj) ensures PlannedAs(w, j, pj) {
    }
    if Gated(w, j') {
      var pj :| PlannedAs(w, j', pj) && Plain(pj);
      assert PlannedAs(w, j, pj);
    }
  }

  lemma QueueFacts(w: World, id: int)
    requires Inv(w) && id in w.queue
    ensures id in w.jobs
  {
  }

  // ---------------------------------------------------------------- Snapshots

  ghost function RosterBelow(jobs: map<int, Job>, n: int, r: int): seq<int>
    decreases n
  {
    if n <= 0 then []
    else RosterBelow(jobs, n - 1, r) + (if n - 1 in jobs && jobs[n - 1].runID == r then [n - 1] else [])
  }

  /** The ids of a run's jobs, ascending. */
  ghost function Roster(w: World, r: int): seq<int> {
    RosterBelow(w.jobs, w.nextJob, r)
  }

  lemma {:induction false} RosterIs(jobs: map<int, Job>, n: int, r: int)
    ensures forall id :: id in RosterBelow(jobs, n, r) <==> 0 <= id < n && id in jobs && jobs[id].runID == r
    ensures forall k, l :: 0 <= k < l < |RosterBelow(jobs, n, r)| ==> RosterBelow(jobs, n, r)[k] < RosterBelow(jobs, n, r)[l]
    decreases n
  {
    if n > 0 {
      RosterIs(jobs, n - 1, r);
      var front := RosterBelow(jobs, n - 1, r);
      forall k | 0 <= k < |front| ensures front[k] < n - 1 {
        assert front[k] in front;
      }
    }
  }

  lemma {:induction false} RosterListsTheJobs(jobs: map<int, Job>, n: int, r: int)
    ensures |JobsBelow(jobs, n, r)| == |RosterBelow(jobs, n, r)|
    ensures forall k :: 0 <= k < |RosterBelow(jobs, n, r)| ==>
      RosterBelow(jobs, n, r)[k] in jobs && JobsBelow(jobs, n, r)[k] == jobs[RosterBelow(jobs, n, r)[k]]
    decreases n
  {
    if n > 0 {
      RosterListsTheJobs(jobs, n - 1, r);
    }
  }

  lemma {:induction false} RosterStays(jobs: map<int, Job>, jobs': map<int, Job>, n: int, r: int)
    requires forall id :: 0 <= id < n ==>
      (id in jobs && jobs[id].runID == r <==> id in jobs' && jobs'[id].runID == r)
    ensures RosterBelow(jobs, n, r) == RosterBelow(jobs', n, r)
    decreases n
  {
    if n > 0 {
      RosterStays(jobs, jobs', n - 1, r);
    }
  }

  /** The copy is what the store holds. */
  ghost predicate InStep(w: World, j: Job) {
    j.id in w.jobs && w.jobs[j.id] == j
  }

  /** The copy is of an admitted job that has been stopped in the store since. */
  ghost predicate Overtaken(w: World, j: Job) {
    j.id in w.jobs && SameIdentity(w.jobs[j.id], j) && InFlight(j) && w.jobs[j.id].status.Completed?
  }

  /** jobs lists copies of a run's jobs, in order, none of them misleading. */
  ghost predicate Snapshot(w: World, jobs: seq<Job>, r: int) {
    && |jobs| == |Roster(w, r)|
    && (forall k :: 0 <= k < |jobs| ==> jobs[k].id == Roster(w, r)[k] && (InStep(w, jobs[k]) || Overtaken(w, jobs[k])))
  }

  ghost predicate Exact(w: World, jobs: seq<Job>, r: int) {
    Snapshot(w, jobs, r) && forall k :: 0 <= k < |jobs| ==> InStep(w, jobs[k])
  }

  lemma ListingIsExact(w: World, r: int)
    requires Structure(w)
    ensures Exact(w, JobsOf(w, r), r)
  {
    RosterListsTheJobs(w.jobs, w.nextJob, r);
  }

  lemma ExactIsTheListing(w: World, jobs: seq<Job>, r: int)
    requires Exact(w, jobs, r)
    ensures jobs == JobsOf(w, r)
  {
    RosterListsTheJobs(w.jobs, w.nextJob, r);
  }

  lemma SnapshotFacts(w: World, jobs: seq<Job>, r: int)
    requires Structure(w) && Snapshot(w, jobs, r)
    ensures forall k :: 0 <= k < |jobs| ==> jobs[k].runID == r
    ensures forall k, l :: 0 <= k < l < |jobs| ==> jobs[k].id != jobs[l].id
    ensures forall id :: id in w.jobs && w.jobs[id].runID == r ==> exists k :: 0 <= k < |jobs| && jobs[k].id == id
  {
    RosterIs(w.jobs, w.nextJob, r);
    forall k | 0 <= k < |jobs| ensures jobs[k].runID == r {
      assert Roster(w, r)[k] in Roster(w, r);
    }
    forall id | id in w.jobs && w.jobs[id].runID == r ensures exists k :: 0 <= k < |jobs| && jobs[k].id == id {
      assert id in Roster(w, r);
      var k :| 0 <= k < |jobs| && Roster(w, r)[k] == id;
      assert jobs[k].id == id;
    }
  }

  lemma RosterMoves(w: World, w': World, j: Job, r: int)
    requires Structure(w) && Updates(w, w', j)
    ensures Roster(w', r) == Roster(w, r)
  {
    RosterStays(w.jobs, w'.jobs, w.nextJob, r);
  }

  /** A move of the i-th job, copied back into the list, leaves the rest true. */
  lemma SnapshotMoves(w: World, w': World, jobs: seq<Job>, i: nat, j: Job, r: int)
    requires Structure(w) && Snapshot(w, jobs, r) && i < |jobs| && jobs[i].id == j.id && Updates(w, w', j)
    ensures Snapshot(w', jobs[i := j], r)
    ensures Exact(w, jobs, r) ==> Exact(w', jobs[i := j], r)
  {
    RosterMoves(w, w', j, r);
    SnapshotFacts(w, jobs, r);
    var jobs' := jobs[i := j];
    forall k | 0 <= k < |jobs'|
      ensures jobs'[k].id == Roster(w', r)[k] && (InStep(w', jobs'[k]) || Overtaken(w', jobs'[k]))
      ensures InStep(w, jobs[k]) ==> InStep(w', jobs'[k])
    {
      if k != i {
        assert jobs'[k] == jobs[k] && jobs[k].id != j.id;
      }
    }
  }

  /** Stopping an admitted job behind the list's back only overtakes its copy. */
  lemma SnapshotOvertaken(w: World, w': World, jobs: seq<Job>, j: Job, r: int)
    requires Structure(w) && Snapshot(w, jobs, r) && Updates(w, w', j)
    requires Holds(w.jobs[j.id]) && NoJobLost(w) && j.status.Completed?
    ensures Snapshot(w', jobs, r)
  {
    RosterMoves(w, w', j, r);
    assert RowsAgree(w.jobs[j.id], w.queue);
  }

  // ------------------------------------------------------- Sweeps over a list

  lemma {:induction false} StopFromKeepsInv(w: World, jobs: seq<Job>, i: nat, reason: CancelReason,
                                            conclusion: Conclusion, fault: FailureClass, now: int, r: int)
    requires Inv(w) && Exact(w, jobs, r) && i <= |jobs|
    requires reason.Valid() && Imposed(conclusion, fault, reason).Valid()
    requires forall k :: 0 <= k < i ==> jobs[k].status.Completed?
    ensures var s := StopFrom(w, jobs, i, reason, conclusion, fault, now);
      s.2 && Inv(s.0) && Exact(s.0, s.1, r) && AllCompleted(s.1) && s.0.runs == w.runs
    decreases |jobs| - i
  {
    hide Inv, StopJob, Snapshot, Updates;
    if i < |jobs| {
      assert InStep(w, jobs[i]);
      if jobs[i].status.Completed? {
        StopFromKeepsInv(w, jobs, i + 1, reason, conclusion, fault, now, r);
      } else {
        StopKeepsInv(w, jobs[i], reason, conclusion, fault, now);
        var f := StopJob(w, None, jobs[i], reason, conclusion, fault, now, false);
        InvHasStructure(w);
        UpdatesFacts(w, f.w, f.job);
        SnapshotMoves(w, f.w, jobs, i, f.job, r);
        StopFromKeepsInv(f.w, jobs[i := f.job], i + 1, reason, conclusion, fault, now, r);
      }
    }
  }

  // --------------------------------------------------------------- The verdict

  /** A run row may change as long as its verdict stays honest. */
  lemma RunMoveKeepsInv(w: World, w': World, run: Run)
    requires Inv(w) && run.id in w.runs
    requires w'.runs == w.runs[run.id := run] && w'.nextRun == w.nextRun && w'.jobs == w.jobs
    requires w'.nextJob == w.nextJob && w'.queue == w.queue && w'.origin == w.origin && w'.events == w.events
    requires forall r :: r in w'.plans ==> r in w'.origin && w'.plans[r] == w'.origin[r]
    requires VerdictHonest(w', run.id)
    ensures Inv(w')
  {
    var mid := w'.(runs := w.runs);
    assert VerdictsHonest(w') by {
      forall r | r in w'.runs ensures VerdictHonest(w', r) {
        if r != run.id {
          assert VerdictHonest(w, r);
        }
      }
    }
    assert forall r :: r in w'.runs ==> w'.runs[r].id == r && 0 < r < w'.nextRun;
    hide Inv, VerdictsHonest, VerdictHonest;
    assert History(mid) by {
      InvHasHistory(w);
      HistoryDependsOnRows(w, mid);
    }
    hide History;
    assert SameRows(w, mid);
    SameRowsKeepInv(w, mid);
    assert w' == mid.(runs := w'.runs);
    RunsOnlyMatterToVerdicts(mid, w');
  }

  lemma InvHasHistory(w: World)
    requires Inv(w)
    ensures History(w)
  {
  }

  lemma HistoryDependsOnRows(w: World, w': World)
    requires History(w) && w'.events == w.events && w'.jobs == w.jobs && w'.queue == w.queue
    ensures History(w')
  {
    forall id, attempt | id in w'.jobs ensures DispatchedFairly(w', id, attempt) {
      assert DispatchedFairly(w, id, attempt);
    }
  }

  lemma StructureDependsOnRunIds(w: World, w': World)
    requires Structure(w) && w' == w.(runs := w'.runs) && w.runs.Keys <= w'.runs.Keys
    requires forall r :: r in w'.runs ==> w'.runs[r].id == r && 0 < r < w'.nextRun
    ensures Structure(w')
  {
    forall id | id in w'.jobs
      ensures exists pj :: PlannedAs(w', w'.jobs[id], pj) && w'.jobs[id].needs == pj.needs
    {
      var pj :| PlannedAs(w, w.jobs[id], pj) && w.jobs[id].needs == pj.needs;
      assert PlannedAs(w', w'.jobs[id], pj);
    }
  }

  lemma RunsOnlyMatterToVerdicts(w: World, w': World)
    requires Inv(w) && w' == w.(runs := w'.runs) && VerdictsHonest(w')
    requires w.runs.Keys <= w'.runs.Keys
    requires forall r :: r in w'.runs ==> w'.runs[r].id == r && 0 < r < w'.nextRun
    ensures Inv(w')
  {
    hide NoJobLost, GroupsExclusive, SlotsRespected, NoEarlyStart, VerdictsHonest, RetriesBounded, RetriesTimed, History;
    RetriesTimedStays(w, w');
    hide Structure;
    StructureDependsOnRunIds(w, w');
    RunsDoNotMatterToRows(w, w');
    HistoryDependsOnRows(w, w');
  }

  lemma RunsDoNotMatterToRows(w: World, w': World)
    requires NoJobLost(w) && GroupsExclusive(w) && SlotsRespected(w) && NoEarlyStart(w) && RetriesBounded(w)
    requires w'.jobs == w.jobs && w'.queue == w.queue && w'.origin == w.origin
    ensures NoJobLost(w') && GroupsExclusive(w') && SlotsRespected(w') && NoEarlyStart(w') && RetriesBounded(w')
  {
    forall r, key ensures FlightOf(w', r, key) == FlightOf(w, r, key) {
    }
    forall r, key | NeedMet(w, r, key) ensures NeedMet(w', r, key) {
      forall id | IsLeg(w', id, r, key)
        ensures w'.jobs[id].status.Completed? && !Gating(w'.jobs[id]).IsFailure() && w'.jobs[id].conclusion != Cancelled
      {
        assert IsLeg(w, id, r, key);
      }
      var id :| IsLeg(w, id, r, key) && Gating(w.jobs[id]) != Skipped;
      assert IsLeg(w', id, r, key);
    }
    forall j, pj ensures PlannedAs(w', j, pj) == PlannedAs(w, j, pj) {
    }
    forall j ensures Gated(w', j) == Gated(w, j) {
    }
    forall id | id in w'.jobs ensures RetryBound(w', w'.jobs[id]) {
      assert RetryBound(w, w.jobs[id]);
    }
  }

  lemma FinalizeKeepsInv(w: World, run: Run, jobs: seq<Job>, now: int)
    requires Inv(w) && run.id in w.runs && !run.status.Completed? && Snapshot(w, jobs, run.id)
    requires run == w.runs[run.id].(cancel := run.cancel)
    requires run.cancel.Some? ==> AllCompleted(jobs)
    ensures Inv(FinalizeIfComplete(w, run, jobs, now).w)
  {
    hide Inv, Structure;
    if AllCompleted(jobs) {
      InvHasStructure(w);
      PlansOf(w);
      forall k | 0 <= k < |jobs| ensures InStep(w, jobs[k]) {
        assert jobs[k].status.Completed?;
      }
      ExactIsTheListing(w, jobs, run.id);
      SnapshotFacts(w, jobs, run.id);
      var done := run.(status := Completed, conclusion := Aggregate(Conclusions(jobs)), completedAt := Some(now));
      var put := PutRun(w, done).(plans := w.plans - {run.id});
      forall id | id in put.jobs && put.jobs[id].runID == run.id ensures put.jobs[id].status.Completed? {
        var k :| 0 <= k < |jobs| && jobs[k].id == id;
        assert InStep(w, jobs[k]) && jobs[k].status.Completed?;
      }
      assert VerdictHonest(put, run.id);
      RunMoveKeepsInv(w, put, done);
      NeutralEventKeepsInv(put, Event(RunCompleted, run.id, 0, 0, now, 0));
      assert FinalizeIfComplete(w, run, jobs, now).w == Emit(put, Event(RunCompleted, run.id, 0, 0, now, 0));
    }
  }

  lemma PlansOf(w: World)
    requires Structure(w)
    ensures forall r :: r in w.plans ==> r in w.origin && w.plans[r] == w.origin[r]
    ensures forall r :: r in w.runs ==> w.runs[r].id == r
  {
  }

  lemma InvHasStructure(w: World)
    requires Inv(w)
    ensures Structure(w)
  {
  }

  lemma UpdatesFacts(w: World, w': World, j: Job)
    requires Updates(w, w', j)
    ensures w'.runs == w.runs && w'.origin == w.origin && w'.plans == w.plans && w'.nextJob == w.nextJob
  {
  }

  lemma CancelRunKeepsInv(w: World, r: int, reason: CancelReason, now: int)
    requires Inv(w)
    ensures Inv(CancelRun(w, r, reason, now).w)
    ensures CancelRun(w, r, reason, now).ok <==> reason.Valid() && r in w.runs
    ensures CancelRun(w, r, reason, now).ok ==> CancelRun(w, r, reason, now).w.runs.Keys == w.runs.Keys
  {
    if reason.Valid() && r in w.runs && !w.runs[r].status.Completed? {
      var jobs := JobsOf(w, r);
      ListingIsExact(w, r);
      StopFromKeepsInv(w, jobs, 0, reason, Cancelled, ClassNone, now, r);
      var s := StopFrom(w, jobs, 0, reason, Cancelled, ClassNone, now);
      FinalizeKeepsInv(s.0, w.runs[r].(cancel := Some(reason)), s.1, now);
    }
  }

  lemma CancelJobKeepsInv(w: World, id: int, reason: CancelReason, now: int)
    requires Inv(w)
    ensures Inv(CancelJob(w, id, reason, now).w)
  {
    if id in w.jobs && !w.jobs[id].status.Completed? {
      assert RowsFit(w);
      if reason.Valid() {
        StopKeepsInv(w, w.jobs[id], reason, Cancelled, ClassNone, now);
      }
    }
  }
}
