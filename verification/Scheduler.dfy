/** The scheduler object. Every method is proved to take the state exactly where the
    step function of the same entry point takes it. */
module Schedulers {
  import opened Model
  import opened Retry
  import opened Entities
  import opened Steps
  import opened Stores

  /** One Acquire gives up after passing over this many finished jobs. */
  const MAX_SKIPPED := 16

  class Scheduler {
    const st: Store
    const opts: Options
    var plans: map<int, Plan>
    var stepTimeouts: map<int, map<int, int>>
    /** The plan each run was started from. */
    ghost var origin: map<int, Plan>

    ghost function State(): (w: World)
      reads this, st
    {
      st.Rows().(plans := plans, stepTimeouts := stepTimeouts, origin := origin)
    }

    lemma StateIs()
      ensures var w := State();
        && w.runs == st.runs && w.jobs == st.jobs && w.queue == st.queue && w.steps == st.steps
        && w.nextRun == st.nextRun && w.nextJob == st.nextJob && w.plans == plans && w.stepTimeouts == stepTimeouts
    {
    }

    constructor (store: Store, options: Options)
      ensures st == store && opts == options
      ensures State() == store.Rows()
    {
      st, opts := store, options;
      plans, stepTimeouts, origin := map[], map[], map[];
    }

    method Emit(e: Event)
      modifies st`events
      ensures State() == Steps.Emit(old(State()), e)
    {
      st.RecordEvent(e);
    }

    method ForgetStepTimeouts(id: int)
      modifies this`stepTimeouts
      ensures State() == Steps.ForgetStepTimeouts(old(State()), id)
    {
      stepTimeouts := stepTimeouts - {id};
    }

    method SaveJob(j: Job)
      requires j.id in st.jobs
      modifies st`jobs, st`queue
      ensures State() == PutJob(old(State()), j)
      ensures st.jobs.Keys == old(st.jobs).Keys
    {
      var found := st.UpdateJob(j);
    }

    method SaveRun(r: Run)
      requires r.id in st.runs
      modifies st`runs
      ensures State() == PutRun(old(State()), r)
      ensures st.runs.Keys == old(st.runs).Keys
    {
      var found := st.UpdateRun(r);
    }

    method DropFromQueue(id: int)
      modifies st`queue
      ensures State() == Steps.DropFromQueue(old(State()), id)
    {
      st.DropFromQueue(id);
    }

    method PutOnQueue(j: Job, queuedAt: int, notBefore: Option<int>)
      requires j.id in st.jobs
      modifies st`jobs, st`queue
      ensures State() == Steps.Enqueue(old(State()), j, queuedAt, notBefore)
      ensures st.jobs.Keys == old(st.jobs).Keys
    {
      var found := st.Enqueue(j, queuedAt, notBefore);
    }

    // ----------------------------------------------------- Ending an attempt

    method FinishAttempt(pj: Option<PlannedJob>, j: Job, res: Result, now: int, allowRetry: bool)
      returns (job: Job, ok: bool)
      requires j.id in st.jobs
      modifies this`stepTimeouts, st`jobs, st`queue, st`events
      ensures Finished(State(), job, ok) == Steps.FinishAttempt(old(State()), pj, j, res, now, allowRetry)
      ensures st.jobs.Keys == old(st.jobs).Keys && job.id == j.id
    {
      hide State, Steps.RequeueForRetry, Steps.Conclude, Retries, Steps.Emit, JobEvent;
      job := j;
      if !res.Valid() {
        return j, false;
      }
      if allowRetry && pj.None? {
        return j, false;
      }
      if res.classReason != "" {
        Emit(JobEvent(Classified, j, now));
      }
      assert State() == Noted(old(State()), j, res, now);
      if res.outputs.Some? {
        job := job.(outputs := res.outputs.value);
      }
      var retried := false;
      if allowRetry && res.fault == ClassInfra {
        retried := RetriesClass(pj.value.retry, ClassInfra, job.infraRetryCount + 1);
      }
      if retried {
        job := RequeueForRetry(pj.value, job, now);
      } else {
        job := Conclude(job, res, now);
      }
      ok := true;
    }

    method Conclude(j: Job, res: Result, now: int) returns (job: Job)
      requires j.id in st.jobs
      modifies this`stepTimeouts, st`jobs, st`queue, st`events
      ensures Finished(State(), job, true) == Steps.Conclude(old(State()), j, res, now)
      ensures st.jobs.Keys == old(st.jobs).Keys && job.id == j.id
    {
      job := j.(status := Completed, conclusion := res.conclusion, fault := res.fault, cancel := res.cancel,
                completedAt := Some(now), runnerID := "", leaseExpiresAt := None);
      SaveJob(job);
      ForgetStepTimeouts(job.id);
      var kind := JobCompleted;
      if res.conclusion == Skipped {
        kind := JobSkipped;
      } else if res.cancel.Some? {
        kind := JobCancelled;
      }
      Emit(JobEvent(kind, job, now));
    }

    method RequeueForRetry(pj: PlannedJob, j: Job, now: int) returns (job: Job)
      requires j.id in st.jobs
      modifies this`stepTimeouts, st`jobs, st`queue, st`events
      ensures Finished(State(), job, true) == Steps.RequeueForRetry(old(State()), pj, j, now)
      ensures st.jobs.Keys == old(st.jobs).Keys && job.id == j.id
    {
      hide State, Delay, PutJob, Steps.Enqueue, Steps.Emit, Steps.DropFromQueue, Steps.ForgetStepTimeouts, JobEvent;
      job := NextAttempt(j, now).(infraRetryCount := j.infraRetryCount + 1);
      var delay := DelayBefore(pj.retry, job.infraRetryCount + 1);
      SaveJob(job);
      ForgetStepTimeouts(job.id);
      // A leased row would be left alone by Enqueue, so it has to go.
      DropFromQueue(job.id);
      PutOnQueue(job, now, Some(now + delay));
      Emit(JobEvent(Retried, job, now).(until := now + delay));
    }

    method StopJob(pj: Option<PlannedJob>, j: Job, reason: CancelReason, conclusion: Conclusion, fault: FailureClass,
                   now: int, allowRetry: bool) returns (job: Job, ok: bool)
      requires j.id in st.jobs
      modifies this`stepTimeouts, st`jobs, st`queue, st`events
      ensures Finished(State(), job, ok) == Steps.StopJob(old(State()), pj, j, reason, conclusion, fault, now, allowRetry)
      ensures st.jobs.Keys == old(st.jobs).Keys && job.id == j.id
    {
      if !reason.Valid() {
        return j, false;
      }
      job, ok := FinishAttempt(pj, j, Result(conclusion, fault, "", None, Some(reason)), now, allowRetry);
    }

    // --------------------------------------------------------------- Verdict

    method FinalizeIfComplete(run: Run, jobs: seq<Job>, now: int) returns (after: Run)
      requires run.id in st.runs
      modifies this`plans, st`runs, st`events
      ensures Finalized(State(), after) == Steps.FinalizeIfComplete(old(State()), run, jobs, now)
      ensures st.runs.Keys == old(st.runs).Keys && after.id == run.id
    {
      after := run;
      if run.status.Completed? && run.completedAt.Some? {
        return;
      }
      for i := 0 to |jobs|
        invariant forall k :: 0 <= k < i ==> jobs[k].status.Completed?
      {
        if !jobs[i].status.Completed? {
          return;
        }
      }
      var conclusion := RollupConclusion(jobs);
      after := run.(status := Completed, conclusion := conclusion, completedAt := Some(now));
      SaveRun(after);
      Emit(Event(RunCompleted, run.id, 0, 0, now, 0));
      plans := plans - {run.id};
    }

    static method RollupConclusion(jobs: seq<Job>) returns (c: Conclusion)
      ensures c == Aggregate(Conclusions(jobs))
    {
      hide Conclusions, Aggregate;
      var cs := [];
      ConclusionsAtTheEnds(jobs);
      for i := 0 to |jobs|
        invariant cs + Conclusions(jobs[i..]) == Conclusions(jobs)
      {
        ConclusionsFrom(jobs, i, cs);
        if jobs[i].status.Completed? {
          cs := cs + [jobs[i].conclusion];
        }
      }
      assert cs + [] == cs;
      c := AggregateConclusions(cs);
    }

    // ---------------------------------------------------------- Cancellation

    method CancelRun(runID: int, reason: CancelReason, now: int) returns (ok: bool)
      modifies this`plans, this`stepTimeouts, st`runs, st`jobs, st`queue, st`events
      ensures Outcome(State(), ok) == Steps.CancelRun(old(State()), runID, reason, now)
      ensures st.jobs.Keys == old(st.jobs).Keys && st.runs.Keys == old(st.runs).Keys
    {
      if !reason.Valid() || runID !in st.runs {
        return false;
      }
      var run := st.runs[runID];
      if run.status.Completed? {
        return true;
      }
      var jobs := st.ListJobsForRun(runID);
      ListedJobsExist(st.jobs, st.nextJob, runID);
      var stopped;
      jobs, stopped := StopAll(jobs, reason, Cancelled, ClassNone, now);
      if !stopped {
        return false;
      }
      var done := FinalizeIfComplete(run.(cancel := Some(reason)), jobs, now);
      ok := true;
    }

    /** The loop CancelAt and enforceRunTimeout share: every unfinished job of the list
        is stopped. */
    method StopAll(listed: seq<Job>, reason: CancelReason, conclusion: Conclusion, fault: FailureClass, now: int)
      returns (jobs: seq<Job>, ok: bool)
      requires Listed(listed)
      modifies this`stepTimeouts, st`jobs, st`queue, st`events
      ensures (State(), jobs, ok) == StopFrom(old(State()), listed, 0, reason, conclusion, fault, now)
      ensures st.jobs.Keys == old(st.jobs).Keys && Listed(jobs)
    {
      hide State, Steps.StopJob;
      jobs := listed;
      var i := 0;
      while i < |jobs|
        invariant 0 <= i <= |jobs| && st.jobs.Keys == old(st.jobs).Keys
        invariant Listed(jobs)
        invariant StopFrom(State(), jobs, i, reason, conclusion, fault, now)
               == StopFrom(old(State()), listed, 0, reason, conclusion, fault, now)
      {
        if !jobs[i].status.Completed? {
          ghost var before := State();
          var job, stopped := StopJob(None, jobs[i], reason, conclusion, fault, now, false);
          if !stopped {
            StopJobRefused(before, jobs[i], reason, conclusion, fault, now);
            return jobs, false;
          }
          jobs := jobs[i := job];
        }
        i := i + 1;
      }
      ok := true;
    }

    method CancelJob(id: int, reason: CancelReason, now: int) returns (ok: bool)
      modifies this`stepTimeouts, st`jobs, st`queue, st`events
      ensures Outcome(State(), ok) == Steps.CancelJob(old(State()), id, reason, now)
    {
      if id !in st.jobs {
        return false;
      }
      if st.jobs[id].status.Completed? {
        return true;
      }
      var job;
      job, ok := StopJob(None, st.jobs[id], reason, Cancelled, ClassNone, now, false);
    }

    // ----------------------------------------------------------------- Needs

    static method ComputeNeeds(pj: PlannedJob, jobs: seq<Job>, runCancelled: bool) returns (r: NeedsOutcome)
      ensures r == Steps.ComputeNeeds(pj, jobs, runCancelled)
    {
      var st := NoNeeds;
      for i := 0 to |pj.needs|
        invariant NeedsFrom(pj.needs[i..], jobs, st) == NeedsFrom(pj.needs, jobs, NoNeeds)
        invariant st.ready
      {
        var key := pj.needs[i];
        var legs := LegsOf(jobs, key);
        if |legs| == 0 {
          return NeedsError;
        }
        var ready, conclusions, outputs := ReadLegs(legs);
        if !ready {
          return NeedsOk(st.(ready := false));
        }
        var result := NeedsResultOf(conclusions);
        st := st.(context := st.context[key := NeedEntry(outputs, result)]);
        match result {
          case NeedSuccess =>
          case NeedFailure => st := st.(success := false, failure := true);
          case NeedCancelled => st := st.(success := false, cancelled := true);
          case NeedSkipped => st := st.(success := false);
        }
      }
      if runCancelled {
        st := st.(success := false, cancelled := true);
      }
      r := NeedsOk(st);
    }

    /** One needed job's legs, read until the first that still has work outstanding. */
    static method ReadLegs(legs: seq<Job>) returns (ready: bool, cs: seq<Conclusion>, outputs: map<string, string>)
      ensures ready <==> AllCompleted(legs)
      ensures ready ==> cs == GatingConclusions(legs) && outputs == MergeOutputs(legs)
    {
      cs, outputs := [], map[];
      for i := 0 to |legs|
        invariant AllCompleted(legs[..i])
        invariant |cs| == i && forall k :: 0 <= k < i ==> cs[k] == Gating(legs[k])
        invariant outputs == MergeOutputs(legs[..i])
      {
        var l := legs[i];
        if !l.status.Completed? {
          return false, cs, outputs;
        }
        var c := l.conclusion;
        if c.IsFailure() && l.continueOnError {
          c := Success;
        }
        cs := cs + [c];
        outputs := outputs + l.outputs;
        assert legs[..i + 1][..i] == legs[..i];
      }
      assert legs[..|legs|] == legs;
      ready := true;
    }

    // ------------------------------------------------------------- Admission

    method HoldForGroup(j: Job, now: int) returns (job: Job)
      requires j.id in st.jobs
      modifies st`jobs, st`queue, st`events
      ensures Finished(State(), job, true) == Steps.HoldForGroup(old(State()), j, now)
      ensures st.jobs.Keys == old(st.jobs).Keys && job.id == j.id
    {
      if j.status.Waiting? {
        return j;
      }
      job := j.(status := Waiting);
      SaveJob(job);
      Emit(JobEvent(JobWaiting, job, now));
    }

    method AdmitToConcurrencyGroup(j: Job, pj: PlannedJob, taken: set<string>, now: int)
      returns (job: Job, taken': set<string>, admitted: bool)
      requires j.id in st.jobs
      modifies this`stepTimeouts, st`jobs, st`queue, st`events
      ensures GroupDecision(State(), job, taken', admitted) == AdmitToGroup(old(State()), j, pj, taken, now)
      ensures st.jobs.Keys == old(st.jobs).Keys && job.id == j.id
    {
      hide Steps.HoldForGroup, HoldersOf, LiveBelow, DisplaceAll;
      if j.group == "" {
        return j, taken, true;
      }
      if j.group in taken {
        job := HoldForGroup(j, now);
        return job, taken, false;
      }
      var live := st.ListJobsInConcurrencyGroup(j.group);
      HoldersExist(st.jobs, st.nextJob, j.group);
      var holders := Holders(live, j.id);
      if |holders| > 0 && !pj.cancelInProgress {
        job := HoldForGroup(j, now);
        return job, taken, false;
      }
      Displace(holders, now);
      return j, taken + {j.group}, true;
    }

    /** The admitted jobs of the group, this one aside. */
    static method Holders(live: seq<Job>, id: int) returns (holders: seq<Job>)
      ensures holders == HoldersOf(live, id)
    {
      holders := [];
      for i := 0 to |live|
        invariant holders + HoldersOf(live[i..], id) == HoldersOf(live, id)
      {
        var other := live[i];
        HoldersFrom(live, i, id, holders);
        if other.id != id && !other.status.Completed? && (other.queuedAt.Some? || other.status.InProgress?) {
          holders := holders + [other];
        }
      }
    }

    /** Every holder of the group is cancelled on the newcomer's behalf. */
    method Displace(holders: seq<Job>, now: int)
      requires forall h :: h in holders ==> h.id in st.jobs
      modifies this`stepTimeouts, st`jobs, st`queue, st`events
      ensures State() == DisplaceAll(old(State()), holders, now)
      ensures st.jobs.Keys == old(st.jobs).Keys
    {
      hide Steps.StopJob;
      for i := 0 to |holders|
        invariant DisplaceAll(State(), holders[i..], now) == DisplaceAll(old(State()), holders, now)
        invariant st.jobs.Keys == old(st.jobs).Keys
      {
        assert holders[i..][1..] == holders[i + 1..];
        var job, ok := StopJob(None, holders[i], Because(ActorConcurrencyGroup), Cancelled, ClassNone, now, false);
      }
    }

    method Enqueue(j: Job, now: int) returns (job: Job)
      requires j.id in st.jobs
      modifies st`jobs, st`queue, st`events
      ensures Finished(State(), job, true) == AdmitToQueue(old(State()), j, now)
      ensures st.jobs.Keys == old(st.jobs).Keys && job.id == j.id
    {
      hide PutJob, Steps.Enqueue;
      job := j.(status := Queued, queuedAt := Some(now));
      SaveJob(job);
      PutOnQueue(job, now, None);
      Emit(JobEvent(JobQueued, job, now));
    }

    /** Whether an older run holds the run's group; found is false when a tracked run
        of that group has no row. */
    method RunGroupBlocked(run: Run, p: Plan) returns (blocked: bool, found: bool)
      ensures (if found then Some(blocked) else None) == Steps.RunGroupBlocked(State(), run, p)
    {
      if p.runGroup == "" || p.runCancelInProgress {
        return false, true;
      }
      var others := TrackedBelow(plans, st.nextRun);
      for i := 0 to |others|
        invariant BlockedFrom(State(), run, p, others[i..]) == BlockedFrom(State(), run, p, others)
      {
        assert others[i..][1..] == others[i + 1..];
        var id := others[i];
        if id == run.id || plans[id].runGroup != p.runGroup {
          continue;
        }
        if id !in st.runs {
          return false, false;
        }
        var other := st.runs[id];
        if other.status.Completed? {
          continue;
        }
        if other.createdAt < run.createdAt || (other.createdAt == run.createdAt && id < run.id) {
          return true, true;
        }
      }
      return false, true;
    }

    method AdmitReadyJobs(run: Run, p: Plan, listed: seq<Job>, now: int) returns (jobs: seq<Job>, ok: bool)
      requires Listed(listed)
      modifies this`stepTimeouts, st`jobs, st`queue, st`events
      ensures var a := Steps.AdmitReadyJobs(opts, old(State()), run, p, listed, now);
        State() == a.w && jobs == a.jobs && ok == a.ok
      ensures st.jobs.Keys == old(st.jobs).Keys && |jobs| == |listed|
    {
      hide State, AdmitOne, Steps.RunGroupBlocked;
      jobs := listed;
      var blocked, found := RunGroupBlocked(run, p);
      if !found {
        return jobs, false;
      }
      if blocked {
        return jobs, true;
      }
      var inFlight: map<string, int> := map[];
      for i := 0 to |jobs|
        invariant inFlight == CountInFlight(jobs[..i])
      {
        assert jobs[..i + 1][..i] == jobs[..i];
        if !jobs[i].status.Completed? && jobs[i].queuedAt.Some? {
          inFlight := inFlight[jobs[i].key := Count(inFlight, jobs[i].key) + 1];
        }
      }
      assert jobs[..|jobs|] == jobs;
      var taken: set<string> := {};
      ghost var start := Admission(State(), listed, inFlight, {}, true);
      var i := 0;
      while i < |jobs|
        invariant 0 <= i <= |jobs| == |listed| && Listed(jobs) && st.jobs.Keys == old(st.jobs).Keys
        invariant AdmitFrom(opts, run, p, i, Admission(State(), jobs, inFlight, taken, true), now)
               == AdmitFrom(opts, run, p, 0, start, now)
      {
        jobs, inFlight, taken, ok := AdmitJob(run, p, i, jobs, inFlight, taken, now);
        if !ok {
          return;
        }
        i := i + 1;
      }
      ok := true;
    }

    /** One turn of the admission loop. */
    method AdmitJob(run: Run, p: Plan, i: nat, listed: seq<Job>, inFlight: map<string, int>, taken: set<string>, now: int)
      returns (jobs: seq<Job>, inFlight': map<string, int>, taken': set<string>, ok: bool)
      requires i < |listed| && Listed(listed)
      modifies this`stepTimeouts, st`jobs, st`queue, st`events
      ensures Admission(State(), jobs, inFlight', taken', ok)
           == AdmitOne(opts, run, p, i, Admission(old(State()), listed, inFlight, taken, true), now)
      ensures st.jobs.Keys == old(st.jobs).Keys && |jobs| == |listed| && Listed(jobs)
    {
      hide State, Steps.ComputeNeeds, Steps.ShouldRun, Steps.FinishAttempt, Steps.Place, Find;
      jobs, inFlight', taken', ok := listed, inFlight, taken, true;
      var j := jobs[i];
      if j.status.Completed? || j.queuedAt.Some? || j.awaitingApproval {
        return;
      }
      var pj := Find(p.jobs, j.key, j.matrixKey);
      if pj.None? {
        return jobs, inFlight', taken', false;
      }
      var needs := ComputeNeeds(pj.value, jobs, run.cancel.Some?);
      if needs.NeedsError? {
        return jobs, inFlight', taken', false;
      }
      if !needs.state.ready {
        return;
      }
      var verdict := Steps.ShouldRun(opts, p, pj.value, needs.state);
      if verdict.None? {
        return jobs, inFlight', taken', false;
      }
      var job := j;
      if !verdict.value {
        var ended;
        job, ended := FinishAttempt(pj, j, SkipResult, now, false);
        jobs := jobs[i := job];
        return;
      }
      jobs, inFlight', taken' := Place(i, pj.value, jobs, inFlight, taken, now);
    }

    /** A job that is to run gets a slot and its group, or waits. */
    method Place(i: nat, pj: PlannedJob, listed: seq<Job>, inFlight: map<string, int>, taken: set<string>, now: int)
      returns (jobs: seq<Job>, inFlight': map<string, int>, taken': set<string>)
      requires i < |listed| && Listed(listed)
      modifies this`stepTimeouts, st`jobs, st`queue, st`events
      ensures Admission(State(), jobs, inFlight', taken', true)
           == Steps.Place(i, pj, Admission(old(State()), listed, inFlight, taken, true), now)
      ensures st.jobs.Keys == old(st.jobs).Keys && |jobs| == |listed| && Listed(jobs)
    {
      hide State, AdmitToGroup, AdmitToQueue;
      jobs, inFlight', taken' := listed, inFlight, taken;
      var j := jobs[i];
      if pj.maxParallel > 0 && Count(inFlight, j.key) >= pj.maxParallel {
        return;
      }
      var job, admitted;
      job, taken', admitted := AdmitToConcurrencyGroup(j, pj, taken, now);
      if !admitted {
        jobs := jobs[i := job];
        return;
      }
      job := Enqueue(job, now);
      jobs := jobs[i := job];
      inFlight' := inFlight[j.key := Count(inFlight, j.key) + 1];
    }

    // ------------------------------------------------------------- Fail-fast

    method ApplyFailFast(p: Plan, listed: seq<Job>, now: int) returns (jobs: seq<Job>)
      requires Listed(listed)
      modifies this`stepTimeouts, st`jobs, st`queue, st`events
      ensures Sweep(State(), jobs, true) == FailFastFrom(old(State()), p, listed, KeysOf(listed), now)
      ensures st.jobs.Keys == old(st.jobs).Keys && Listed(jobs)
    {
      hide State, CancelLegsFrom;
      jobs := listed;
      var keys := KeysOf(listed);
      for i := 0 to |keys|
        invariant st.jobs.Keys == old(st.jobs).Keys && Listed(jobs)
        invariant FailFastFrom(State(), p, jobs, keys[i..], now) == FailFastFrom(old(State()), p, listed, keys, now)
      {
        assert keys[i..][1..] == keys[i + 1..];
        var failed := MustFailFast(p, jobs, keys[i]);
        if failed {
          jobs := CancelLegs(jobs, keys[i], now);
        }
      }
    }

    static method MustFailFast(p: Plan, jobs: seq<Job>, key: string) returns (failed: bool)
      ensures failed <==> FailsFast(p, jobs, key)
    {
      var legs := LegsOf(jobs, key);
      if |legs| < 2 {
        return false;
      }
      var pj := Find(p.jobs, key, legs[0].matrixKey);
      if pj.None? || !pj.value.failFast {
        return false;
      }
      for i := 0 to |legs|
        invariant forall k :: 0 <= k < i ==> !FailedLeg(legs[k])
      {
        if legs[i].status.Completed? && legs[i].conclusion.IsFailure() && !legs[i].continueOnError {
          assert legs[i] in legs && FailedLeg(legs[i]);
          return true;
        }
      }
      failed := false;
    }

    method CancelLegs(listed: seq<Job>, key: string, now: int) returns (jobs: seq<Job>)
      requires Listed(listed)
      modifies this`stepTimeouts, st`jobs, st`queue, st`events
      ensures Sweep(State(), jobs, true) == CancelLegsFrom(old(State()), listed, key, 0, now)
      ensures st.jobs.Keys == old(st.jobs).Keys && Listed(jobs)
    {
      hide State, Steps.StopJob;
      jobs := listed;
      var i := 0;
      while i < |jobs|
        invariant 0 <= i <= |jobs| && st.jobs.Keys == old(st.jobs).Keys && Listed(jobs)
        invariant CancelLegsFrom(State(), jobs, key, i, now) == CancelLegsFrom(old(State()), listed, key, 0, now)
      {
        if jobs[i].key == key && !jobs[i].status.Completed? {
          var job, stopped := StopJob(None, jobs[i], Because(ActorDependencyFailed), Cancelled, ClassNone, now, false);
          jobs := jobs[i := job];
        }
        i := i + 1;
      }
    }

    // -------------------------------------------------------------- Timeouts

    method EnforceRunTimeout(run: Run, listed: seq<Job>, now: int) returns (after: Run, jobs: seq<Job>)
      requires Listed(listed) && run.id in st.runs
      modifies this`plans, this`stepTimeouts, st`runs, st`jobs, st`queue, st`events
      ensures RunSweep(State(), after, jobs) == Steps.EnforceRunTimeout(opts, old(State()), run, listed, now)
      ensures st.jobs.Keys == old(st.jobs).Keys && st.runs.Keys == old(st.runs).Keys && Listed(jobs) && after.id == run.id
    {
      hide StopFrom, Steps.FinalizeIfComplete;
      var start := run.createdAt;
      if run.startedAt.Some? {
        start := run.startedAt.value;
      }
      if start == 0 || now - start <= opts.runTimeout {
        return run, listed;
      }
      var stopped;
      jobs, stopped := StopAll(listed, Because(ActorTimeout), TimedOut, ClassUser, now);
      after := FinalizeIfComplete(run.(cancel := Some(Because(ActorTimeout))), jobs, now);
    }

    method EnforceJobTimeouts(listed: seq<Job>, now: int) returns (jobs: seq<Job>, ok: bool)
      requires Listed(listed)
      modifies this`stepTimeouts, st`jobs, st`queue, st`events
      ensures Sweep(State(), jobs, ok) == TimeoutsFrom(opts, old(State()), listed, 0, now)
      ensures st.jobs.Keys == old(st.jobs).Keys && Listed(jobs)
    {
      hide State, Steps.EnforceJobTimeout;
      jobs := listed;
      var i := 0;
      while i < |jobs|
        invariant 0 <= i <= |jobs| && st.jobs.Keys == old(st.jobs).Keys && Listed(jobs)
        invariant TimeoutsFrom(opts, State(), jobs, i, now) == TimeoutsFrom(opts, old(State()), listed, 0, now)
      {
        ghost var before := State();
        var job, within := EnforceJobTimeout(jobs[i], now);
        if !within {
          TimeoutRefused(opts, before, jobs[i], now);
          return jobs, false;
        }
        jobs := jobs[i := job];
        i := i + 1;
      }
      ok := true;
    }

    /** The three budgets of one job, most specific first. */
    method EnforceJobTimeout(j: Job, now: int) returns (job: Job, ok: bool)
      requires j.id in st.jobs
      modifies this`stepTimeouts, st`jobs, st`queue, st`events
      ensures Finished(State(), job, ok) == Steps.EnforceJobTimeout(opts, old(State()), j, now)
      ensures st.jobs.Keys == old(st.jobs).Keys && job.id == j.id
    {
      hide Steps.StopJob;
      if !j.status.InProgress? || j.startedAt.None? {
        return j, true;
      }
      var elapsed := now - j.startedAt.value;
      if j.setupCompletedAt.None? && elapsed > opts.setupTimeout {
        var pj := PlannedFor(j);
        if pj.None? {
          return j, false;
        }
        job, ok := StopJob(pj, j, Because(ActorTimeout), InfraFailure, ClassInfra, now, true);
        return;
      }
      var overdue := StepTimedOut(j, now);
      var budget := j.timeoutMinutes * 60_000_000_000;
      if budget == 0 {
        budget := opts.defaultJobTimeout;
      }
      if overdue || elapsed > budget {
        job, ok := StopJob(None, j, Because(ActorTimeout), TimedOut, ClassUser, now, false);
        return;
      }
      return j, true;
    }

    method StepTimedOut(j: Job, now: int) returns (overdue: bool)
      ensures overdue <==> SomeStepOverdue(State(), j, now)
    {
      if j.id !in stepTimeouts {
        return false;
      }
      var budgets := stepTimeouts[j.id];
      var steps := if (j.id, j.attempt) in st.steps then st.steps[(j.id, j.attempt)] else [];
      for i := 0 to |steps|
        invariant forall k :: 0 <= k < i ==> !StepOverdue(steps[k], budgets, now)
      {
        var step := steps[i];
        if step.status.InProgress? && step.startedAt.Some? && step.number in budgets && budgets[step.number] > 0
           && now - step.startedAt.value > budgets[step.number] {
          assert step in StepsOf(State(), j.id, j.attempt) && StepOverdue(step, budgets, now);
          return true;
        }
      }
      overdue := false;
    }

    function PlannedFor(j: Job): Option<PlannedJob>
      reads this`plans
    {
      if j.runID in plans then Find(plans[j.runID].jobs, j.key, j.matrixKey) else None
    }

    // ------------------------------------------------------------------ Tick

    method ReapExpiredLeases(now: int)
      requires QueueRowsHaveJobs()
      modifies this`stepTimeouts, st`jobs, st`queue, st`events
      ensures State() == Steps.ReapExpiredLeases(old(State()), now)
      ensures st.jobs.Keys == old(st.jobs).Keys
    {
      hide DropExpiredLeases, ReapEach;
      ReapedExist(State(), st.nextJob, now);
      ReapedIgnoresPlans(st.Rows(), State(), st.nextJob, now);
      DroppingIgnoresPlans(st.Rows(), State(), now);
      DroppingKeepsKeys(State(), now);
      var reaped := st.ReapExpiredLeases(now);
      RequeueReaped(reaped, now);
    }

    /** Each lost job starts its next attempt; its queue row is still there. */
    method RequeueReaped(reaped: seq<Job>, now: int)
      requires Listed(reaped)
      modifies this`stepTimeouts, st`jobs, st`queue, st`events
      ensures State() == ReapEach(old(State()), reaped, now)
      ensures st.jobs.Keys == old(st.jobs).Keys
    {
      hide State, NextAttempt, PutJob, Steps.Enqueue, Steps.Emit, Steps.ForgetStepTimeouts;
      for i := 0 to |reaped|
        invariant st.jobs.Keys == old(st.jobs).Keys
        invariant ReapEach(State(), reaped[i..], now) == ReapEach(old(State()), reaped, now)
      {
        assert reaped[i..][1..] == reaped[i + 1..];
        var j := NextAttempt(reaped[i], now);
        NextAttemptKeepsId(reaped[i], now);
        SaveJob(j);
        ForgetStepTimeouts(j.id);
        PutOnQueue(j, now, None);
        Emit(JobEvent(Requeued, j, now));
      }
    }

    method TickRun(runID: int, now: int) returns (ok: bool)
      modifies this`plans, this`stepTimeouts, st`runs, st`jobs, st`queue, st`events
      ensures Outcome(State(), ok) == Steps.TickRun(opts, old(State()), runID, now)
      ensures st.jobs.Keys == old(st.jobs).Keys && st.runs.Keys == old(st.runs).Keys
    {
      hide Steps.EnforceRunTimeout, TimeoutsFrom, FailFastFrom, Steps.AdmitReadyJobs, Steps.FinalizeIfComplete, KeysOf;
      if runID !in st.runs {
        return false;
      }
      var run := st.runs[runID];
      if run.status.Completed? {
        plans := plans - {runID};
        return true;
      }
      if runID !in plans {
        return false;
      }
      var p := plans[runID];
      var jobs := st.ListJobsForRun(runID);
      ListedJobsExist(st.jobs, st.nextJob, runID);
      run, jobs := EnforceRunTimeout(run, jobs, now);
      if run.status.Completed? {
        return true;
      }
      var timed;
      jobs, timed := EnforceJobTimeouts(jobs, now);
      if !timed {
        return false;
      }
      jobs := ApplyFailFast(p, jobs, now);
      jobs, ok := AdmitReadyJobs(run, p, jobs, now);
      if !ok {
        return false;
      }
      var after := FinalizeIfComplete(run, jobs, now);
    }

    method Tick(now: int) returns (ok: bool)
      requires QueueRowsHaveJobs()
      modifies this`plans, this`stepTimeouts, st`runs, st`jobs, st`queue, st`events
      ensures Outcome(State(), ok) == Steps.Tick(opts, old(State()), now)
    {
      hide Steps.TickRun, Steps.ReapExpiredLeases;
      if now == 0 {
        return false;
      }
      ReapExpiredLeases(now);
      ghost var reaped := State();
      var ids := TrackedBelow(plans, st.nextRun);
      for i := 0 to |ids|
        invariant TickRuns(opts, State(), ids[i..], now) == TickRuns(opts, reaped, ids, now)
      {
        assert ids[i..][1..] == ids[i + 1..];
        ok := TickRun(ids[i], now);
        if !ok {
          return;
        }
      }
      ok := true;
    }

    // -------------------------------------------------------------- Starting

    method StartRun(run: Run, p: Plan) returns (ok: bool)
      requires run.id in st.runs
      modifies this, st`runs, st`jobs, st`nextJob, st`queue, st`events
      ensures Outcome(State(), ok) == Steps.StartRun(opts, old(State()), run, p)
    {
      hide Steps.SupersedeOlderRuns, CreateJobs;
      if |p.jobs| == 0 || run.createdAt == 0 {
        return false;
      }
      var now := run.createdAt;
      ok := SupersedeOlderRuns(run, p, now);
      if !ok {
        return;
      }
      CreateJobRows(run, p.jobs, run.forkPR && opts.requireForkApproval && !run.approved);
      plans := plans[run.id := p];
      origin := origin[run.id := p];
      var started := run.(status := InProgress);
      if run.startedAt.None? {
        started := started.(startedAt := Some(now));
      }
      SaveRun(started);
      Emit(Event(RunStarted, run.id, 0, 0, now, 0));
    }

    method CreateJobRows(run: Run, planned: seq<PlannedJob>, held: bool)
      modifies st`jobs, st`nextJob
      ensures State() == CreateJobs(old(State()), run, planned, held)
    {
      hide State, NewJob;
      for i := 0 to |planned|
        invariant CreateJobs(State(), run, planned[i..], held) == CreateJobs(old(State()), run, planned, held)
      {
        assert planned[i..][1..] == planned[i + 1..];
        CreateJobRow(run, planned[i], held);
      }
    }

    /** The store numbers the row. */
    method CreateJobRow(run: Run, pj: PlannedJob, held: bool)
      modifies st`jobs, st`nextJob
      ensures var w := old(State());
        var j := NewJob(w.nextJob, run, pj, held);
        State() == w.(jobs := w.jobs[j.id := j], nextJob := w.nextJob + 1)
    {
      NewJobTakesAnyId(st.nextJob, run, pj, held);
      hide NewJob;
      var created := st.CreateJob(NewJob(0, run, pj, held));
    }

    method SupersedeOlderRuns(run: Run, p: Plan, now: int) returns (ok: bool)
      modifies this`plans, this`stepTimeouts, st`runs, st`jobs, st`queue, st`events
      ensures Outcome(State(), ok) == Steps.SupersedeOlderRuns(old(State()), run, p, now)
      ensures st.runs.Keys == old(st.runs).Keys
    {
      hide Steps.CancelRun;
      if p.runGroup == "" || !p.runCancelInProgress {
        return true;
      }
      var others := TrackedBelow(plans, st.nextRun);
      for i := 0 to |others|
        invariant st.runs.Keys == old(st.runs).Keys
        invariant SupersedeFrom(State(), run, p, others[i..], now) == SupersedeFrom(old(State()), run, p, others, now)
      {
        assert others[i..][1..] == others[i + 1..];
        var other := others[i];
        if other == run.id || other !in plans || plans[other].runGroup != p.runGroup {
          continue;
        }
        if other !in st.runs {
          return false;
        }
        if st.runs[other].status.Completed? {
          continue;
        }
        ok := CancelRun(other, Because(ActorSupersededByRun), now);
        if !ok {
          return;
        }
      }
      ok := true;
    }

    method Approve(runID: int, actor: string, now: int) returns (ok: bool)
      modifies st`runs, st`jobs, st`queue, st`events
      ensures Outcome(State(), ok) == Steps.Approve(old(State()), runID, actor, now)
    {
      hide PutJob;
      if actor == "" || runID !in st.runs {
        return false;
      }
      SaveRun(st.runs[runID].(approved := true));
      var jobs := st.ListJobsForRun(runID);
      ListedJobsExist(st.jobs, st.nextJob, runID);
      ghost var put := State();
      for i := 0 to |jobs|
        invariant Listed(jobs)
        invariant ApproveFrom(State(), jobs, i) == ApproveFrom(put, jobs, 0)
      {
        if jobs[i].awaitingApproval {
          SaveJob(jobs[i].(awaitingApproval := false, status := Queued));
        }
      }
      Emit(Event(RunStarted, runID, 0, 0, now, 0));
      ok := true;
    }

    method KeepPlan(runID: int, p: Plan)
      modifies this`plans
      ensures State() == old(State()).(plans := old(State()).plans[runID := p])
    {
      plans := plans[runID := p];
    }

    method RegisterPlan(runID: int, p: Plan) returns (ok: bool)
      modifies this`plans
      ensures Outcome(State(), ok) == Steps.RegisterPlan(old(State()), runID, p)
    {
      ok := |p.jobs| > 0;
      if ok {
        plans := plans[runID := p];
      }
    }

    // -------------------------------------------------------------- Dispatch

    /** Rows are claimed until one is a job that has not concluded, MAX_SKIPPED of them at
        most; ids lists the claims. The last one is the job that was handed out, if any. */
    method Acquire(runner: string, labels: seq<string>, now: int, built: bool, budgets: map<int, int>)
      returns (handedOut: bool, ghost ids: seq<int>)
      modifies this`stepTimeouts, st`jobs, st`queue, st`events
      ensures |ids| <= MAX_SKIPPED
      ensures State() == Rounds(opts, old(State()), runner, labels, ids, now, built, budgets)
      ensures handedOut ==> ids != [] && Steps.Acquire(opts, Rounds(opts, old(State()), runner, labels, ids[..|ids| - 1], now, built, budgets),
                                                       runner, labels, ids[|ids| - 1], now, built, budgets).ok
      ensures ids == [] ==> runner == "" || forall id :: !Eligible(old(State()), id, labels, now)
    {
      hide Eligible, Steps.Dequeue, Steps.Dispatch, Steps.ReleaseLease, Rounds;
      ids := [];
      NoRound(opts, State(), runner, labels, now, built, budgets);
      if runner == "" {
        return false, [];
      }
      for i := 0 to MAX_SKIPPED
        invariant |ids| == i
        invariant State() == Rounds(opts, old(State()), runner, labels, ids, now, built, budgets)
      {
        ghost var before := State();
        var claimed := Claim(runner, labels, now);
        if claimed.None? {
          return false, ids;
        }
        var j := claimed.value;
        OneMoreRound(opts, old(State()), runner, labels, ids, j.id, now, built, budgets);
        ids := ids + [j.id];
        if j.status.Completed? || j.conclusion != NoConclusion {
          var withdrawn := Withdraw(runner, j);
          if !withdrawn {
            return false, ids;
          }
          continue;
        }
        handedOut := Dispatch(runner, j, now, built, budgets);
        return;
      }
      handedOut := false;
    }

    method Claim(runner: string, labels: seq<string>, now: int) returns (claimed: Option<Job>)
      modifies st`jobs, st`queue
      ensures claimed.None? ==> State() == old(State()) && forall id :: !Eligible(old(State()), id, labels, now)
      ensures claimed.Some? ==>
        && Eligible(old(State()), claimed.value.id, labels, now)
        && State() == Steps.Dequeue(old(State()), runner, claimed.value.id, now, opts.leaseTTL)
        && claimed.value.id in st.jobs && claimed.value == st.jobs[claimed.value.id]
        && Leases(State(), runner, claimed.value.id)
    {
      hide LabelsSatisfied;
      ghost var rows, before := st.Rows(), State();
      assert forall id :: Eligible(rows, id, labels, now) <==> Eligible(before, id, labels, now);
      claimed := st.Dequeue(runner, labels, now, opts.leaseTTL);
      if claimed.Some? {
        ghost var id :| Eligible(rows, id, labels, now) && claimed.value == st.jobs[id]
                        && st.Rows() == Steps.Dequeue(rows, runner, id, now, opts.leaseTTL);
        assert Eligible(before, id, labels, now);
      }
    }

    /** The claim on a job that had already concluded is taken back. */
    method Withdraw(runner: string, j: Job) returns (withdrawn: bool)
      requires Leases(State(), runner, j.id)
      modifies st`jobs, st`queue
      ensures withdrawn <==> WithdrawalReason(j).Valid()
      ensures State() == if withdrawn then Steps.ReleaseLease(old(State()), j.id) else old(State())
    {
      var reason := Because(ActorShutdown);
      if j.cancel.Some? {
        reason := j.cancel.value;
      }
      withdrawn := st.ReleaseLease(runner, j.id, reason);
    }

    method Dispatch(runner: string, j: Job, now: int, built: bool, budgets: map<int, int>) returns (ok: bool)
      requires j.id in st.jobs && st.jobs[j.id] == j
      modifies this`stepTimeouts, st`jobs, st`queue, st`events
      ensures Outcome(State(), ok) == Steps.Dispatch(opts, old(State()), runner, j.id, now, built, budgets)
    {
      hide Steps.ComputeNeeds, Find, Steps.HandOut, JobsBelow;
      if j.runID !in st.runs {
        return false;
      }
      var pj := PlannedFor(j);
      if pj.None? {
        return false;
      }
      var jobs := st.ListJobsForRun(j.runID);
      var needs := ComputeNeeds(pj.value, jobs, st.runs[j.runID].cancel.Some?);
      if needs.NeedsError? || !built {
        return false;
      }
      HandOut(runner, j, now, budgets);
      ok := true;
    }

    method RememberStepTimeouts(id: int, budgets: map<int, int>)
      modifies this`stepTimeouts
      ensures State() == Steps.RememberStepTimeouts(old(State()), id, budgets)
    {
      if budgets != map[] {
        stepTimeouts := stepTimeouts[id := budgets];
      }
    }

    method HandOut(runner: string, j: Job, now: int, budgets: map<int, int>)
      requires j.id in st.jobs && st.jobs[j.id] == j && j.runID in st.runs
      modifies this`stepTimeouts, st`jobs, st`queue, st`events
      ensures State() == Steps.HandOut(opts, old(State()), runner, j.id, now, budgets)
    {
      StateIs();
      KeepsItsId(opts, j, runner, now);
      hide State, PutJob, JobEvent, Steps.Emit, Steps.RememberStepTimeouts, HandedTo;
      if st.runs[j.runID].forkPR {
        Emit(JobEvent(Restricted, j, now));
      }
      RememberStepTimeouts(j.id, budgets);
      var running := HandedTo(opts, j, runner, now);
      SaveJob(running);
      Emit(JobEvent(Dispatched, running, now));
    }

    method Heartbeat(runner: string, id: int, now: int, ttl: int) returns (held: bool)
      modifies st`jobs, st`queue
      ensures Outcome(State(), held) == Steps.Heartbeat(old(State()), runner, id, now, ttl)
    {
      held := st.Heartbeat(runner, id, now, ttl);
    }

    method ReleaseJob(runner: string, id: int, reason: CancelReason, now: int) returns (ok: bool)
      modifies st`jobs, st`queue, st`events
      ensures Outcome(State(), ok) == Steps.ReleaseJob(old(State()), runner, id, reason, now)
    {
      if !reason.Valid() || id !in st.jobs {
        return false;
      }
      var j := st.jobs[id];
      ok := st.ReleaseLease(runner, id, reason);
      if ok {
        Emit(JobEvent(Released, j, now));
      }
    }

    // ------------------------------------------------------------ Completion

    method JobCompletedAt(id: int, res: Result, now: int) returns (ok: bool)
      modifies this`stepTimeouts, st`jobs, st`queue, st`events
      ensures Outcome(State(), ok) == Steps.JobCompletedAt(old(State()), id, res, now)
    {
      hide Steps.FinishAttempt;
      if id !in st.jobs {
        return false;
      }
      var j := st.jobs[id];
      // Reported before: the job is over.
      if j.status.Completed? {
        return true;
      }
      var pj := PlannedFor(j);
      if pj.None? {
        return false;
      }
      var job;
      job, ok := FinishAttempt(pj, j, res, now, true);
    }

    method Report(runner: string, id: int, attempt: int, res: Result, now: int) returns (ok: bool)
      modifies this`stepTimeouts, st`jobs, st`queue, st`events
      ensures Outcome(State(), ok) == Steps.Report(old(State()), runner, id, attempt, res, now)
    {
      hide Steps.JobCompletedAt;
      var holds := HoldsJob(runner, id, attempt);
      if !holds {
        return false;
      }
      if res.conclusion == Cancelled && res.cancel.None? {
        return false;
      }
      if res.cancel.Some? && !res.cancel.value.Valid() {
        return false;
      }
      ok := JobCompletedAt(id, res, now);
    }

    method HoldsJob(runner: string, id: int, attempt: int) returns (holds: bool)
      ensures holds <==> Steps.HoldsJob(State(), runner, id, attempt)
    {
      if runner == "" || id !in st.jobs {
        return false;
      }
      if st.jobs[id].runnerID != runner {
        return false;
      }
      if attempt != 0 && st.jobs[id].attempt != attempt {
        return false;
      }
      holds := true;
    }

    method SetupCompleted(runner: string, id: int, attempt: int, at: int) returns (ok: bool)
      modifies st`jobs, st`queue, st`events
      ensures Outcome(State(), ok) == Steps.SetupCompleted(old(State()), runner, id, attempt, at)
    {
      var holds := HoldsJob(runner, id, attempt);
      if !holds {
        return false;
      }
      if st.jobs[id].setupCompletedAt.Some? {
        return true;
      }
      var j := st.jobs[id].(setupCompletedAt := Some(at));
      SaveJob(j);
      Emit(JobEvent(SetupDone, j, at));
      ok := true;
    }

    // ----------------------------------------------------------------- Rerun

    method Rerun(runID: int, actor: string, sel: Selection, now: int) returns (ok: bool)
      modifies this`plans, this`stepTimeouts, st`runs, st`jobs, st`queue, st`events
      ensures Outcome(State(), ok) == Steps.Rerun(old(State()), runID, actor, sel, now)
    {
      StateIs();
      hide State, ResetFrom, Steps.ExpandDependents, PutRun, Steps.Emit, SelectedKeys, JobsBelow;
      if actor == "" || runID !in st.runs || runID !in plans {
        return false;
      }
      var run, p := st.runs[runID], plans[runID];
      var jobs := st.ListJobsForRun(runID);
      ListedJobsExist(st.jobs, st.nextJob, runID);
      var keys := ChosenKeys(jobs, sel);
      if keys == {} {
        return false;
      }
      keys := ExpandDependents(p.jobs, keys);
      ok := ResetJobs(p, jobs, keys, now);
      if !ok {
        return;
      }
      SaveRun(Reopened(run));
      KeepPlan(runID, p);
      Emit(Event(RerunAsked, runID, 0, 0, now, 0));
    }

    static method ChosenKeys(jobs: seq<Job>, sel: Selection) returns (keys: set<string>)
      ensures keys == SelectedKeys(jobs, sel)
    {
      keys := {};
      for i := 0 to |jobs|
        invariant keys == SelectedKeys(jobs[..i], sel)
      {
        assert jobs[..i + 1] == jobs[..i] + [jobs[i]];
        if Selected(sel, jobs[i]) {
          keys := keys + {jobs[i].key};
        }
      }
      assert jobs[..|jobs|] == jobs;
    }

    /** Adds the dependents of what is in the set until none is missing. */
    static method ExpandDependents(jobs: seq<PlannedJob>, chosen: set<string>) returns (keys: set<string>)
      ensures keys == Steps.ExpandDependents(jobs, chosen)
    {
      keys := chosen;
      var changed := true;
      while changed
        invariant Steps.ExpandDependents(jobs, keys) == Steps.ExpandDependents(jobs, chosen)
        invariant !changed ==> ExpandPass(jobs, keys) == keys
        decreases PlanKeys(jobs) - keys, changed
      {
        ghost var before := keys;
        keys, changed := ExpandOnce(jobs, keys);
        if changed {
          GrowthIsBounded(jobs, before);
        }
      }
    }

    static method ExpandOnce(jobs: seq<PlannedJob>, chosen: set<string>) returns (keys: set<string>, changed: bool)
      ensures keys == ExpandPass(jobs, chosen)
      ensures changed <==> keys != chosen
    {
      keys, changed := chosen, false;
      for i := 0 to |jobs|
        invariant ExpandPass(jobs[i..], keys) == ExpandPass(jobs, chosen)
        invariant chosen <= keys && (changed <==> keys != chosen)
      {
        assert jobs[i..][1..] == jobs[i + 1..];
        if jobs[i].key in keys {
          assert keys + {jobs[i].key} == keys;
          continue;
        }
        var needs := jobs[i].needs;
        for k := 0 to |needs|
          invariant forall m :: 0 <= m < k ==> needs[m] !in keys
        {
          if needs[k] in keys {
            assert NeedsOneOf(jobs[i], keys);
            keys := keys + {jobs[i].key};
            changed := true;
            break;
          }
        }
      }
    }

    method ResetJobs(p: Plan, jobs: seq<Job>, keys: set<string>, now: int) returns (ok: bool)
      requires Listed(jobs)
      modifies this`stepTimeouts, st`jobs, st`queue, st`events
      ensures Outcome(State(), ok) == ResetFrom(old(State()), p, jobs, keys, 0, now)
    {
      hide State, ResetJob, PutJob, Find;
      for i := 0 to |jobs|
        invariant Listed(jobs)
        invariant ResetFrom(State(), p, jobs, keys, i, now) == ResetFrom(old(State()), p, jobs, keys, 0, now)
      {
        if jobs[i].key !in keys {
          continue;
        }
        var pj := Find(p.jobs, jobs[i].key, jobs[i].matrixKey);
        if pj.None? {
          return false;
        }
        var j := ResetJob(jobs[i]);
        ResetKeepsId(jobs[i]);
        SaveJob(j);
        ForgetStepTimeouts(j.id);
        Emit(JobEvent(RerunAsked, j, now));
      }
      ok := true;
    }

    ghost predicate Listed(jobs: seq<Job>)
      reads st
    {
      forall k :: 0 <= k < |jobs| ==> jobs[k].id in st.jobs
    }

    /** The queue table refers to the job table. */
    ghost predicate QueueRowsHaveJobs()
      reads st
    {
      forall id :: id in st.queue ==> id in st.jobs && 0 <= id < st.nextJob
    }
  }

  /** The state after claims of the given rows, one after the other. */
  ghost function Rounds(opts: Options, w: World, runner: string, labels: seq<string>, ids: seq<int>, now: int,
                        built: bool, budgets: map<int, int>): World
    decreases |ids|
  {
    if ids == [] then w
    else
      Steps.Acquire(opts, Rounds(opts, w, runner, labels, ids[..|ids| - 1], now, built, budgets),
                    runner, labels, ids[|ids| - 1], now, built, budgets).w
  }

  lemma NoRound(opts: Options, w: World, runner: string, labels: seq<string>, now: int, built: bool, budgets: map<int, int>)
    ensures Rounds(opts, w, runner, labels, [], now, built, budgets) == w
  {
  }

  lemma OneMoreRound(opts: Options, w: World, runner: string, labels: seq<string>, ids: seq<int>, id: int, now: int,
                     built: bool, budgets: map<int, int>)
    ensures (ids + [id])[..|ids|] == ids
    ensures Rounds(opts, w, runner, labels, ids + [id], now, built, budgets)
         == Steps.Acquire(opts, Rounds(opts, w, runner, labels, ids, now, built, budgets), runner, labels, id, now, built, budgets).w
  {
    assert (ids + [id])[..|ids|] == ids;
  }

  lemma GrowthIsBounded(jobs: seq<PlannedJob>, keys: set<string>)
    requires ExpandPass(jobs, keys) != keys
    ensures PlanKeys(jobs) - ExpandPass(jobs, keys) < PlanKeys(jobs) - keys
  {
    var k :| k in ExpandPass(jobs, keys) && k !in keys;
    assert k in PlanKeys(jobs) - keys && k !in PlanKeys(jobs) - ExpandPass(jobs, keys);
  }

  lemma KeepsItsId(opts: Options, j: Job, runner: string, now: int)
    ensures HandedTo(opts, j, runner, now).id == j.id
  {
  }

  lemma NewJobTakesAnyId(id: int, run: Run, pj: PlannedJob, held: bool)
    ensures NewJob(0, run, pj, held).(id := id) == NewJob(id, run, pj, held)
    ensures NewJob(id, run, pj, held).id == id
  {
  }

  lemma ResetKeepsId(j: Job)
    ensures ResetJob(j).id == j.id
  {
  }

  lemma {:induction false} ListedJobsExist(jobs: map<int, Job>, n: int, r: int)
    requires forall id :: id in jobs ==> jobs[id].id == id
    ensures forall k :: 0 <= k < |JobsBelow(jobs, n, r)| ==> JobsBelow(jobs, n, r)[k].id in jobs
    decreases n
  {
    if n > 0 {
      ListedJobsExist(jobs, n - 1, r);
    }
  }

  lemma StopJobRefused(w: World, j: Job, reason: CancelReason, conclusion: Conclusion, fault: FailureClass, now: int)
    requires !Steps.StopJob(w, None, j, reason, conclusion, fault, now, false).ok
    ensures Steps.StopJob(w, None, j, reason, conclusion, fault, now, false).w == w
  {
  }

  lemma ConclusionsAtTheEnds(jobs: seq<Job>)
    ensures Conclusions(jobs[0..]) == Conclusions(jobs) && Conclusions(jobs[|jobs|..]) == []
  {
    assert jobs[0..] == jobs;
  }

  lemma ConclusionsFrom(jobs: seq<Job>, i: nat, before: seq<Conclusion>)
    requires i < |jobs|
    ensures before + Conclusions(jobs[i..])
         == (if jobs[i].status.Completed? then before + [jobs[i].conclusion] else before) + Conclusions(jobs[i + 1..])
  {
    var rest := jobs[i..];
    assert rest[0] == jobs[i] && rest[1..] == jobs[i + 1..];
    assert Conclusions(rest) == (if rest[0].status.Completed? then [rest[0].conclusion] else []) + Conclusions(rest[1..]);
  }

  lemma HoldersFrom(live: seq<Job>, i: nat, id: int, before: seq<Job>)
    requires i < |live|
    ensures before + HoldersOf(live[i..], id)
         == (if live[i].id != id && Holds(live[i]) then before + [live[i]] else before) + HoldersOf(live[i + 1..], id)
  {
    var rest := live[i..];
    assert rest[0] == live[i] && rest[1..] == live[i + 1..];
    assert HoldersOf(rest, id) == (if rest[0].id != id && Holds(rest[0]) then [rest[0]] else []) + HoldersOf(rest[1..], id);
  }

  lemma {:induction false} HoldersExist(jobs: JobRows, n: int, group: string)
    ensures forall h :: h in LiveBelow(jobs, n, group) ==> h.id in jobs
    decreases n
  {
    if n > 0 {
      HoldersExist(jobs, n - 1, group);
    }
  }

  lemma TimeoutRefused(opts: Options, w: World, j: Job, now: int)
    requires !Steps.EnforceJobTimeout(opts, w, j, now).ok
    ensures Steps.EnforceJobTimeout(opts, w, j, now).w == w
  {
    hide Delay, Retries;
  }

  lemma {:induction false} ReapedExist(w: World, n: int, now: int)
    requires forall id :: id in w.jobs ==> w.jobs[id].id == id
    ensures forall j :: j in ReapedBelow(w, n, now) ==> j.id in w.jobs
    decreases n
  {
    if n > 0 {
      ReapedExist(w, n - 1, now);
    }
  }

  lemma {:induction false} ReapedIgnoresPlans(rows: World, w: World, n: int, now: int)
    requires rows.jobs == w.jobs && rows.queue == w.queue
    ensures ReapedBelow(rows, n, now) == ReapedBelow(w, n, now)
    decreases n
  {
    if n > 0 {
      ReapedIgnoresPlans(rows, w, n - 1, now);
    }
  }

  lemma DroppingIgnoresPlans(rows: World, w: World, now: int)
    requires rows == w.(plans := map[], stepTimeouts := map[], origin := map[])
    ensures DropExpiredLeases(w, now)
         == DropExpiredLeases(rows, now).(plans := w.plans, stepTimeouts := w.stepTimeouts, origin := w.origin)
  {
  }

  lemma DroppingKeepsKeys(w: World, now: int)
    ensures DropExpiredLeases(w, now).jobs.Keys == w.jobs.Keys
  {
  }

  lemma NextAttemptKeepsId(j: Job, now: int)
    ensures NextAttempt(j, now).id == j.id
  {
  }
}
