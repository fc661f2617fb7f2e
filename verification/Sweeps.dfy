/** The sweeps of a tick that end jobs: timeouts, fail-fast, expired leases. A sweep walks a
    snapshot taken before it started; each turn changes one job of that snapshot only, so
    the jobs still to come are as the snapshot says. */
module Sweeps {
  import opened Model
  import opened Retry
  import opened Entities
  import opened Steps
  import opened Invariants
  import opened Moves
  import opened Attempts

  ghost predicate SameRuns(w: World, w': World) {
    w'.runs == w.runs && w'.plans == w.plans && w'.origin == w.origin
  }

  // ----------------------------------------------------------------- Timeouts

  lemma StopIsFinish(w: World, pj: Option<PlannedJob>, j: Job, conclusion: Conclusion, fault: FailureClass,
                     now: int, allowRetry: bool)
    ensures StopJob(w, pj, j, Because(ActorTimeout), conclusion, fault, now, allowRetry)
         == FinishAttempt(w, pj, j, Imposed(conclusion, fault, Because(ActorTimeout)), now, allowRetry)
  {
    hide FinishAttempt;
  }

  lemma TimedStopKeepsInv(w: World, pj: Option<PlannedJob>, j: Job, conclusion: Conclusion, fault: FailureClass,
                          now: int, allowRetry: bool)
    requires Inv(w) && InStep(w, j) && !j.status.Completed?
    requires allowRetry && pj.Some? ==> PlannedAs(w, j, pj.value) && InFlight(j)
    ensures var f := StopJob(w, pj, j, Because(ActorTimeout), conclusion, fault, now, allowRetry);
      Inv(f.w) && SameRuns(w, f.w) && ((f.w == w && f.job == j) || Updates(w, f.w, f.job))
  {
    hide Inv, Updates, FinishAttempt, SameRuns, StopJob;
    var res := Imposed(conclusion, fault, Because(ActorTimeout));
    StopIsFinish(w, pj, j, conclusion, fault, now, allowRetry);
    FinishAttemptKeepsInv(w, pj, j, res, now, allowRetry);
    FinishSameRuns(w, pj, j, res, now, allowRetry);
  }

  /** The planned job the timeout sweep looks up is the one the job was made from. */
  lemma LookupIsThePlan(w: World, j: Job)
    requires Structure(w)
    ensures var pj := if j.runID in w.plans then Find(w.plans[j.runID].jobs, j.key, j.matrixKey) else None;
      pj.Some? ==> PlannedAs(w, j, pj.value)
  {
  }

  lemma RunningIsInFlight(w: World, j: Job)
    requires Inv(w) && InStep(w, j) && j.status.InProgress?
    ensures InFlight(j)
  {
    hide Inv, RetryBound;
    JobFacts(w, j.id);
  }

  lemma TimeoutKeepsInv(opts: Options, w: World, j: Job, now: int)
    requires Inv(w) && InStep(w, j)
    ensures var f := EnforceJobTimeout(opts, w, j, now);
      Inv(f.w) && SameRuns(w, f.w) && ((f.w == w && f.job == j) || Updates(w, f.w, f.job))
  {
    hide Inv, Structure, Updates, SomeStepOverdue, StopJob, PlannedAs, Find, JobBudget;
    InvHasStructure(w);
    LookupIsThePlan(w, j);
    var pj := if j.runID in w.plans then Find(w.plans[j.runID].jobs, j.key, j.matrixKey) else None;
    if j.status.InProgress? {
      RunningIsInFlight(w, j);
      if pj.Some? {
        TimedStopKeepsInv(w, pj, j, InfraFailure, ClassInfra, now, true);
      }
      TimedStopKeepsInv(w, None, j, TimedOut, ClassUser, now, false);
    }
  }

  lemma ConcludeSameRuns(w: World, j: Job, res: Result, now: int)
    ensures SameRuns(w, Conclude(w, j, res, now).w)
  {
  }

  lemma RetrySameRuns(w: World, pj: PlannedJob, j: Job, now: int)
    ensures SameRuns(w, RequeueForRetry(w, pj, j, now).w)
  {
    hide Delay;
  }

  lemma FinishSameRuns(w: World, pj: Option<PlannedJob>, j: Job, res: Result, now: int, allowRetry: bool)
    ensures SameRuns(w, FinishAttempt(w, pj, j, res, now, allowRetry).w)
  {
    var noted, job := Noted(w, j, res, now), WithOutputs(j, res);
    assert SameRuns(w, noted);
    hide Retries, Conclude, RequeueForRetry, Noted, WithOutputs;
    ConcludeSameRuns(noted, job, res, now);
    if pj.Some? {
      RetrySameRuns(noted, pj.value, job, now);
    }
  }

  lemma {:induction false} TimeoutsKeepInv(opts: Options, w: World, jobs: seq<Job>, i: nat, now: int, r: int)
    requires Inv(w) && Exact(w, jobs, r)
    ensures var s := TimeoutsFrom(opts, w, jobs, i, now);
      Inv(s.w) && SameRuns(w, s.w) && (s.ok ==> Exact(s.w, s.jobs, r))
    decreases |jobs| - i
  {
    hide Inv, EnforceJobTimeout, Snapshot, Updates;
    if i < |jobs| {
      assert InStep(w, jobs[i]);
      TimeoutKeepsInv(opts, w, jobs[i], now);
      var f := EnforceJobTimeout(opts, w, jobs[i], now);
      if f.ok {
        if f.w == w && f.job == jobs[i] {
          assert jobs[i := f.job] == jobs;
        } else {
          InvHasStructure(w);
          assert f.job.id == jobs[i].id by { EnforceSameId(opts, w, jobs[i], now); }
          SnapshotMoves(w, f.w, jobs, i, f.job, r);
        }
        TimeoutsKeepInv(opts, f.w, jobs[i := f.job], i + 1, now, r);
      }
    }
  }

  lemma EnforceSameId(opts: Options, w: World, j: Job, now: int)
    ensures EnforceJobTimeout(opts, w, j, now).job.id == j.id
  {
  }

  // ---------------------------------------------------------------- Fail-fast

  lemma {:induction false} CancelLegsKeepsInv(w: World, jobs: seq<Job>, key: string, k: nat, now: int, r: int)
    requires Inv(w) && Exact(w, jobs, r)
    ensures var s := CancelLegsFrom(w, jobs, key, k, now); Inv(s.w) && SameRuns(w, s.w) && Exact(s.w, s.jobs, r)
    decreases |jobs| - k
  {
    hide Inv, StopJob, Snapshot, Updates;
    if k < |jobs| {
      if jobs[k].key != key || jobs[k].status.Completed? {
        CancelLegsKeepsInv(w, jobs, key, k + 1, now, r);
      } else {
        assert InStep(w, jobs[k]);
        StopKeepsInv(w, jobs[k], Because(ActorDependencyFailed), Cancelled, ClassNone, now);
        var f := StopJob(w, None, jobs[k], Because(ActorDependencyFailed), Cancelled, ClassNone, now, false);
        InvHasStructure(w);
        UpdatesFacts(w, f.w, f.job);
        SnapshotMoves(w, f.w, jobs, k, f.job, r);
        CancelLegsKeepsInv(f.w, jobs[k := f.job], key, k + 1, now, r);
      }
    }
  }

  lemma {:induction false} FailFastKeepsInv(w: World, p: Plan, jobs: seq<Job>, keys: seq<string>, now: int, r: int)
    requires Inv(w) && Exact(w, jobs, r)
    ensures var s := FailFastFrom(w, p, jobs, keys, now); Inv(s.w) && SameRuns(w, s.w) && Exact(s.w, s.jobs, r)
    decreases |keys|
  {
    hide Inv, Snapshot, FailsFast;
    if keys != [] {
      if FailsFast(p, jobs, keys[0]) {
        CancelLegsKeepsInv(w, jobs, keys[0], 0, now, r);
        var s := CancelLegsFrom(w, jobs, keys[0], 0, now);
        FailFastKeepsInv(s.w, p, s.jobs, keys[1..], now, r);
      } else {
        FailFastKeepsInv(w, p, jobs, keys[1..], now, r);
      }
    }
  }

  // ----------------------------------------------------------- Expired leases

  /** Reaping one job: the store drops the lease and the scheduler opens the next
      attempt. */
  function ReapOne(w: World, id: int, now: int): World
    requires id in w.jobs && id in w.queue
  {
    var next := NextAttempt(w.jobs[id], now);
    Emit(w.(queue := w.queue[id := Unleased(w.queue[id])],
            jobs := w.jobs[id := next],
            stepTimeouts := w.stepTimeouts - {id}),
         JobEvent(Requeued, next, now))
  }

  lemma ReapOneKeepsInv(w: World, id: int, now: int)
    requires Inv(w) && id in w.queue && w.queue[id].leased
    ensures id in w.jobs && Inv(ReapOne(w, id, now)) && SameRuns(w, ReapOne(w, id, now))
  {
    hide Inv, VerdictHonest;
    QueueFacts(w, id);
    JobFacts(w, id);
    var j := w.jobs[id];
    var next := NextAttempt(j, now);
    var w' := ReapOne(w, id, now);
    assert RetryBound(w, next) by {
      forall pj | PlannedAs(w, next, pj) ensures PlannedAs(w, j, pj) {
      }
    }
    assert FairMove(w, w', next, Some(JobEvent(Requeued, next, now)));
    FairMoveKeepsInv(w, w', next, Some(JobEvent(Requeued, next, now)));
  }

  function ReapAll(w: World, ids: seq<int>, now: int): World
    decreases |ids|
  {
    if ids == [] then w
    else if ids[0] in w.jobs && ids[0] in w.queue then ReapAll(ReapOne(w, ids[0], now), ids[1..], now)
    else ReapAll(w, ids[1..], now)
  }

  ghost predicate LeasedIds(w: World, ids: seq<int>, now: int) {
    && (forall k :: 0 <= k < |ids| ==> ids[k] in w.queue && ids[k] in w.jobs && Expired(w.queue[ids[k]], now))
    && (forall k, l :: 0 <= k < l < |ids| ==> ids[k] != ids[l])
  }

  lemma {:induction false} ReapAllKeepsInv(w: World, ids: seq<int>, now: int)
    requires Inv(w) && LeasedIds(w, ids, now)
    ensures Inv(ReapAll(w, ids, now)) && SameRuns(w, ReapAll(w, ids, now))
    decreases |ids|
  {
    hide Inv;
    if ids != [] {
      ReapOneKeepsInv(w, ids[0], now);
      ReapAllKeepsInv(ReapOne(w, ids[0], now), ids[1..], now);
    }
  }

  function ExpiredBelow(w: World, n: int, now: int): seq<int>
    decreases n
  {
    if n <= 0 then []
    else ExpiredBelow(w, n - 1, now) +
         (if n - 1 in w.jobs && n - 1 in w.queue && Expired(w.queue[n - 1], now) then [n - 1] else [])
  }

  lemma {:induction false} ExpiredBelowIs(w: World, n: int, now: int)
    ensures var ids := ExpiredBelow(w, n, now);
      && (forall id :: id in ids <==> 0 <= id < n && id in w.jobs && id in w.queue && Expired(w.queue[id], now))
      && (forall k, l :: 0 <= k < l < |ids| ==> ids[k] < ids[l])
    decreases n
  {
    if n > 0 {
      ExpiredBelowIs(w, n - 1, now);
      var front := ExpiredBelow(w, n - 1, now);
      forall k | 0 <= k < |front| ensures front[k] < n - 1 {
        assert front[k] in front;
      }
    }
  }

  /** The copy the store returns for a reaped job. */
  function ReapedCopy(w: World, id: int): Job
    requires id in w.jobs && id in w.queue
  {
    Unclaimed(w.jobs[id]).(runnerID := w.queue[id].runnerID)
  }

  lemma {:induction false} ReapedAreTheExpired(w: World, n: int, now: int)
    ensures |ReapedBelow(w, n, now)| == |ExpiredBelow(w, n, now)|
    ensures forall k :: 0 <= k < |ExpiredBelow(w, n, now)| ==>
      var id := ExpiredBelow(w, n, now)[k];
      id in w.jobs && id in w.queue && ReapedBelow(w, n, now)[k] == ReapedCopy(w, id)
    decreases n
  {
    if n > 0 {
      ReapedAreTheExpired(w, n - 1, now);
    }
  }

  /** Dropping all leases and then opening attempts one by one comes to the same as
      doing both for each job in turn. */
  lemma {:induction false} ReapingInterleaves(w: World, ids: seq<int>, copies: seq<Job>, now: int)
    requires RowsFit(w) && LeasedIds(w, ids, now) && |copies| == |ids|
    requires forall k :: 0 <= k < |ids| ==> copies[k] == ReapedCopy(w, ids[k])
    requires forall id :: id in w.queue && Expired(w.queue[id], now) ==> id in ids
    ensures ReapEach(DropExpiredLeases(w, now), copies, now) == ReapAll(w, ids, now)
    decreases |ids|
  {
    if ids == [] {
      assert copies == [];
      forall id | id in w.queue ensures !Expired(w.queue[id], now) {
        assert id !in ids;
      }
      assert DropExpiredLeases(w, now).queue == w.queue;
      assert DropExpiredLeases(w, now).jobs == w.jobs;
    } else {
      var w1 := ReapOne(w, ids[0], now);
      OneReapStep(w, ids[0], now);
      forall k | 0 <= k < |ids[1..]| ensures copies[1..][k] == ReapedCopy(w1, ids[1..][k]) {
        assert ids[k + 1] != ids[0];
      }
      ReapingInterleaves(w1, ids[1..], copies[1..], now);
    }
  }

  lemma OneReapStep(w: World, id: int, now: int)
    requires RowsFit(w) && id in w.queue && id in w.jobs && Expired(w.queue[id], now)
    ensures RowsFit(ReapOne(w, id, now))
    ensures var j := ReapedCopy(w, id);
      var next := NextAttempt(j, now);
      var put := ForgetStepTimeouts(PutJob(DropExpiredLeases(w, now), next), j.id);
      Emit(Enqueue(put, next, now, None), JobEvent(Requeued, next, now)) == DropExpiredLeases(ReapOne(w, id, now), now)
  {
    var j := ReapedCopy(w, id);
    var next := NextAttempt(j, now);
    assert next == NextAttempt(w.jobs[id], now);
    ReapedFits(w, id, now);
    var put := ForgetStepTimeouts(PutJob(DropExpiredLeases(w, now), next), j.id);
    hide RowsFit;
    assert id in put.queue;
    var after := DropExpiredLeases(ReapOne(w, id, now), now);
    assert after.jobs == put.jobs by {
      assert after.jobs.Keys == put.jobs.Keys;
    }
    assert after.queue == put.queue by {
      assert after.queue.Keys == put.queue.Keys;
    }
  }

  lemma ReapedFits(w: World, id: int, now: int)
    requires RowsFit(w) && id in w.queue && id in w.jobs
    ensures RowsFit(ReapOne(w, id, now))
  {
  }

  lemma ReapKeepsInv(w: World, now: int)
    requires Inv(w)
    ensures Inv(ReapExpiredLeases(w, now)) && SameRuns(w, ReapExpiredLeases(w, now))
    ensures ReapExpiredLeases(w, now) == ReapAll(w, ExpiredBelow(w, w.nextJob, now), now)
  {
    InvHasStructure(w);
    hide Inv;
    var ids := ExpiredBelow(w, w.nextJob, now);
    ExpiredBelowIs(w, w.nextJob, now);
    ReapedAreTheExpired(w, w.nextJob, now);
    assert LeasedIds(w, ids, now) by {
      forall k | 0 <= k < |ids| ensures ids[k] in w.queue && ids[k] in w.jobs && Expired(w.queue[ids[k]], now) {
        assert ids[k] in ids;
      }
    }
    ReapingInterleaves(w, ids, ReapedBelow(w, w.nextJob, now), now);
    ReapAllKeepsInv(w, ids, now);
  }
}
