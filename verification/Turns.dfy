/** What holds of everything a tick puts on the queue or skips, and of the order in which the runs
    of one workflow-level group get their turn. Rows only move on during a tick, so that what was
    true when a job was let go is still true when the tick is over. */
module Turns {
  import opened Model
  import opened Entities
  import opened Steps
  import opened Invariants
  import opened Moves
  import opened Attempts
  import opened Sweeps
  import opened Admissions
  import opened EntryPoints
  import opened Unchanged
  import opened Deciding
  import opened Safety

  // ---------------------------------------------------------------- Moving on

  /** Nothing that is over, decided or dropped comes back, and nothing new comes in. */
  ghost predicate Onward(w: World, w': World) {
    && w'.jobs.Keys == w.jobs.Keys && w'.nextJob == w.nextJob && w'.origin == w.origin
    && w'.runs.Keys == w.runs.Keys && w.events <= w'.events
    && (forall id :: id in w.jobs ==>
         && SameIdentity(w.jobs[id], w'.jobs[id])
         && w'.jobs[id].awaitingApproval == w.jobs[id].awaitingApproval
         && (w.jobs[id].status.Completed? ==> w'.jobs[id] == w.jobs[id])
         && (!Pending(w.jobs[id]) ==> !Pending(w'.jobs[id])))
    && (forall r :: r in w.runs ==>
         && w'.runs[r].createdAt == w.runs[r].createdAt && (w.runs[r].status.Completed? ==> w'.runs[r].status.Completed?))
    && (forall r :: r in w'.plans ==> r in w.plans && w'.plans[r] == w.plans[r])
    && (forall r :: r in w.plans && r !in w'.plans ==> r in w.runs && w'.runs[r].status.Completed?)
  }

  lemma OnwardReflexive(w: World)
    ensures Onward(w, w)
  {
  }

  lemma OnwardTransitive(a: World, b: World, c: World)
    requires Onward(a, b) && Onward(b, c)
    ensures Onward(a, c)
  {
  }

  predicate Decision(kind: EventKind) {
    kind.JobQueued? || kind.JobSkipped?
  }

  /** On the way, and no decision to queue or to skip a job is logged. */
  ghost predicate Calm(w: World, w': World) {
    Onward(w, w') && forall i :: |w.events| <= i < |w'.events| ==> !Decision(w'.events[i].kind)
  }

  lemma CalmReflexive(w: World)
    ensures Calm(w, w)
  {
  }

  lemma CalmTransitive(a: World, b: World, c: World)
    requires Calm(a, b) && Calm(b, c)
    ensures Calm(a, c)
  {
    OnwardTransitive(a, b, c);
    forall i | |a.events| <= i < |c.events| ensures !Decision(c.events[i].kind) {
      if i < |b.events| {
        assert c.events[i] == b.events[i];
      }
    }
  }

  /** One move of an unfinished job is on the way. */
  lemma MoveIsOnward(w: World, w': World, j: Job)
    requires Updates(w, w', j) && !w.jobs[j.id].status.Completed? && w.events <= w'.events
    requires j.awaitingApproval == w.jobs[j.id].awaitingApproval && (!Pending(w.jobs[j.id]) ==> !Pending(j))
    ensures Onward(w, w')
  {
  }

  lemma StopLogsOnce(w: World, pj: Option<PlannedJob>, j: Job, reason: CancelReason, conclusion: Conclusion,
                     fault: FailureClass, now: int, allowRetry: bool)
    requires conclusion != Skipped
    ensures var f := StopJob(w, pj, j, reason, conclusion, fault, now, allowRetry);
      && w.events <= f.w.events && |f.w.events| <= |w.events| + 1
      && (forall i :: |w.events| <= i < |f.w.events| ==> f.w.events[i].kind == JobCancelled || f.w.events[i].kind == Retried)
      && f.job.awaitingApproval == j.awaitingApproval && (f.ok ==> !Pending(f.job))
  {
    hide Conclude, RequeueForRetry, Retry.Retries;
    ConcludingLogsOnce(w, j, Imposed(conclusion, fault, reason), now);
    if pj.Some? {
      RetryingLogsOnce(w, pj.value, j, now);
    }
  }

  lemma ConcludingLogsOnce(w: World, j: Job, res: Result, now: int)
    requires res.cancel.Some? && res.conclusion != Skipped
    ensures var f := Conclude(w, j, res, now);
      && f.ok && f.job.awaitingApproval == j.awaitingApproval && !Pending(f.job)
      && f.w.events == w.events + [Event(JobCancelled, j.runID, j.id, j.attempt, now, 0)]
  {
  }

  lemma RetryingLogsOnce(w: World, pj: PlannedJob, j: Job, now: int)
    ensures var f := RequeueForRetry(w, pj, j, now);
      && f.ok && f.job.awaitingApproval == j.awaitingApproval && !Pending(f.job)
      && |f.w.events| == |w.events| + 1 && w.events <= f.w.events && f.w.events[|w.events|].kind == Retried
  {
    hide Retry.Delay;
  }

  lemma StopIsCalm(w: World, j: Job, reason: CancelReason, conclusion: Conclusion, fault: FailureClass, now: int)
    requires Inv(w) && InStep(w, j) && !j.status.Completed? && conclusion != Skipped
    requires reason.Valid() && Imposed(conclusion, fault, reason).Valid()
    ensures Calm(w, StopJob(w, None, j, reason, conclusion, fault, now, false).w)
  {
    hide Inv, StopJob, Updates, Onward;
    StopKeepsInv(w, j, reason, conclusion, fault, now);
    StopLogsOnce(w, None, j, reason, conclusion, fault, now, false);
    var f := StopJob(w, None, j, reason, conclusion, fault, now, false);
    MoveIsOnward(w, f.w, f.job);
  }

  lemma {:induction false} StoppingIsCalm(w: World, jobs: seq<Job>, i: nat, reason: CancelReason, conclusion: Conclusion,
                                          fault: FailureClass, now: int, r: int)
    requires Inv(w) && Exact(w, jobs, r) && i <= |jobs| && conclusion != Skipped
    requires reason.Valid() && Imposed(conclusion, fault, reason).Valid()
    ensures Calm(w, StopFrom(w, jobs, i, reason, conclusion, fault, now).0)
    decreases |jobs| - i
  {
    hide Inv, StopJob, Snapshot, Updates, Calm;
    CalmReflexive(w);
    if i < |jobs| {
      assert InStep(w, jobs[i]);
      if jobs[i].status.Completed? {
        StoppingIsCalm(w, jobs, i + 1, reason, conclusion, fault, now, r);
      } else {
        StopKeepsInv(w, jobs[i], reason, conclusion, fault, now);
        StopIsCalm(w, jobs[i], reason, conclusion, fault, now);
        var f := StopJob(w, None, jobs[i], reason, conclusion, fault, now, false);
        InvHasStructure(w);
        SnapshotMoves(w, f.w, jobs, i, f.job, r);
        StoppingIsCalm(f.w, jobs[i := f.job], i + 1, reason, conclusion, fault, now, r);
        CalmTransitive(w, f.w, StopFrom(f.w, jobs[i := f.job], i + 1, reason, conclusion, fault, now).0);
      }
    }
  }

  lemma ClosingIsCalm(w: World, run: Run, jobs: seq<Job>, now: int)
    requires run.id in w.runs && run.createdAt == w.runs[run.id].createdAt
    ensures Calm(w, FinalizeIfComplete(w, run, jobs, now).w)
  {
    hide Aggregate, Conclusions;
    var w' := FinalizeIfComplete(w, run, jobs, now).w;
    if w' != w {
      assert w'.events == w.events + [Event(RunCompleted, run.id, 0, 0, now, 0)];
      assert w'.jobs == w.jobs && w'.origin == w.origin && w'.nextJob == w.nextJob && w'.plans == w.plans - {run.id};
      ClosedIsOnward(w, w', w'.runs[run.id]);
    }
  }

  lemma ClosedIsOnward(w: World, w': World, done: Run)
    requires done.id in w.runs && done.createdAt == w.runs[done.id].createdAt && done.status.Completed?
    requires w'.runs == w.runs[done.id := done] && w'.plans == w.plans - {done.id} && w.events <= w'.events
    requires w'.jobs == w.jobs && w'.origin == w.origin && w'.nextJob == w.nextJob
    ensures Onward(w, w')
  {
  }

  lemma RunTimeoutIsCalm(opts: Options, w: World, run: Run, jobs: seq<Job>, now: int)
    requires Inv(w) && run.id in w.runs && run == w.runs[run.id] && !run.status.Completed? && Exact(w, jobs, run.id)
    ensures Calm(w, EnforceRunTimeout(opts, w, run, jobs, now).w)
  {
    hide Inv, Snapshot, RunOverdue, Calm, StopFrom, FinalizeIfComplete;
    CalmReflexive(w);
    if RunOverdue(opts, run, now) {
      var reason := Because(ActorTimeout);
      StoppingIsCalm(w, jobs, 0, reason, TimedOut, ClassUser, now, run.id);
      StopFromKeepsInv(w, jobs, 0, reason, TimedOut, ClassUser, now, run.id);
      var s := StopFrom(w, jobs, 0, reason, TimedOut, ClassUser, now);
      ClosingIsCalm(s.0, run.(cancel := Some(reason)), s.1, now);
      CalmTransitive(w, s.0, FinalizeIfComplete(s.0, run.(cancel := Some(reason)), s.1, now).w);
    }
  }

  lemma JobTimeoutIsCalm(opts: Options, w: World, j: Job, now: int)
    requires Inv(w) && InStep(w, j)
    ensures Calm(w, EnforceJobTimeout(opts, w, j, now).w)
  {
    hide Inv, Updates, SomeStepOverdue, JobBudget, Find, Onward, StopJob;
    CalmReflexive(w);
    TimeoutKeepsInv(opts, w, j, now);
    EnforceSameId(opts, w, j, now);
    var pj := if j.runID in w.plans then Find(w.plans[j.runID].jobs, j.key, j.matrixKey) else None;
    StopLogsOnce(w, pj, j, Because(ActorTimeout), InfraFailure, ClassInfra, now, true);
    StopLogsOnce(w, None, j, Because(ActorTimeout), TimedOut, ClassUser, now, false);
    var f := EnforceJobTimeout(opts, w, j, now);
    if f.w != w {
      assert Updates(w, f.w, f.job) && f.job.id == j.id;
      EnforcedIsDecided(opts, w, j, now);
      MoveIsOnward(w, f.w, f.job);
    }
  }

  lemma EnforcedIsDecided(opts: Options, w: World, j: Job, now: int)
    ensures var f := EnforceJobTimeout(opts, w, j, now);
      f.w != w ==> !Pending(f.job) && !j.status.Completed? && f.job.awaitingApproval == j.awaitingApproval
  {
    hide SomeStepOverdue, JobBudget, Find, StopJob;
    var pj := if j.runID in w.plans then Find(w.plans[j.runID].jobs, j.key, j.matrixKey) else None;
    StopLogsOnce(w, pj, j, Because(ActorTimeout), InfraFailure, ClassInfra, now, true);
    StopLogsOnce(w, None, j, Because(ActorTimeout), TimedOut, ClassUser, now, false);
    StopWorks(w, pj, j, now);
  }

  lemma StopWorks(w: World, pj: Option<PlannedJob>, j: Job, now: int)
    ensures pj.Some? ==> StopJob(w, pj, j, Because(ActorTimeout), InfraFailure, ClassInfra, now, true).ok
    ensures StopJob(w, None, j, Because(ActorTimeout), TimedOut, ClassUser, now, false).ok
  {
    hide Conclude, RequeueForRetry, Retry.Retries;
    RequeueWorks(w, pj, j, now);
  }

  lemma RequeueWorks(w: World, pj: Option<PlannedJob>, j: Job, now: int)
    ensures pj.Some? ==> RequeueForRetry(w, pj.value, j, now).ok
    ensures forall res :: Conclude(w, j, res, now).ok
  {
  }

  lemma {:induction false} TimeoutsAreCalm(opts: Options, w: World, jobs: seq<Job>, i: nat, now: int, r: int)
    requires Inv(w) && Exact(w, jobs, r)
    ensures Calm(w, TimeoutsFrom(opts, w, jobs, i, now).w)
    decreases |jobs| - i
  {
    hide Inv, EnforceJobTimeout, Snapshot, Updates, Calm;
    CalmReflexive(w);
    if i < |jobs| {
      assert InStep(w, jobs[i]);
      TimeoutKeepsInv(opts, w, jobs[i], now);
      JobTimeoutIsCalm(opts, w, jobs[i], now);
      var f := EnforceJobTimeout(opts, w, jobs[i], now);
      if f.ok {
        if f.w == w && f.job == jobs[i] {
          assert jobs[i := f.job] == jobs;
        } else {
          InvHasStructure(w);
          EnforceSameId(opts, w, jobs[i], now);
          SnapshotMoves(w, f.w, jobs, i, f.job, r);
        }
        TimeoutsAreCalm(opts, f.w, jobs[i := f.job], i + 1, now, r);
        CalmTransitive(w, f.w, TimeoutsFrom(opts, f.w, jobs[i := f.job], i + 1, now).w);
      }
    }
  }

  lemma {:induction false} CancelLegsIsCalm(w: World, jobs: seq<Job>, key: string, k: nat, now: int, r: int)
    requires Inv(w) && Exact(w, jobs, r)
    ensures Calm(w, CancelLegsFrom(w, jobs, key, k, now).w)
    decreases |jobs| - k
  {
    hide Inv, StopJob, Snapshot, Updates, Calm;
    CalmReflexive(w);
    if k < |jobs| {
      if jobs[k].key != key || jobs[k].status.Completed? {
        CancelLegsIsCalm(w, jobs, key, k + 1, now, r);
      } else {
        assert InStep(w, jobs[k]);
        StopKeepsInv(w, jobs[k], Because(ActorDependencyFailed), Cancelled, ClassNone, now);
        StopIsCalm(w, jobs[k], Because(ActorDependencyFailed), Cancelled, ClassNone, now);
        var f := StopJob(w, None, jobs[k], Because(ActorDependencyFailed), Cancelled, ClassNone, now, false);
        InvHasStructure(w);
        SnapshotMoves(w, f.w, jobs, k, f.job, r);
        CancelLegsIsCalm(f.w, jobs[k := f.job], key, k + 1, now, r);
        CalmTransitive(w, f.w, CancelLegsFrom(f.w, jobs[k := f.job], key, k + 1, now).w);
      }
    }
  }

  lemma {:induction false} FailFastIsCalm(w: World, p: Plan, jobs: seq<Job>, keys: seq<string>, now: int, r: int)
    requires Inv(w) && Exact(w, jobs, r)
    ensures Calm(w, FailFastFrom(w, p, jobs, keys, now).w)
    decreases |keys|
  {
    hide Inv, Snapshot, FailsFast, Calm, CancelLegsFrom;
    CalmReflexive(w);
    if keys != [] {
      if FailsFast(p, jobs, keys[0]) {
        CancelLegsKeepsInv(w, jobs, keys[0], 0, now, r);
        CancelLegsIsCalm(w, jobs, keys[0], 0, now, r);
        var s := CancelLegsFrom(w, jobs, keys[0], 0, now);
        FailFastIsCalm(s.w, p, s.jobs, keys[1..], now, r);
        CalmTransitive(w, s.w, FailFastFrom(s.w, p, s.jobs, keys[1..], now).w);
      } else {
        FailFastIsCalm(w, p, jobs, keys[1..], now, r);
      }
    }
  }

  // ------------------------------------------------------------------ Reaping

  lemma ReapOneIsCalm(w: World, id: int, now: int)
    requires Inv(w) && id in w.queue && id in w.jobs && w.queue[id].leased
    ensures Calm(w, ReapOne(w, id, now))
  {
    hide Inv, RetryBound;
    JobFacts(w, id);
  }

  lemma {:induction false} ReapingIsCalm(w: World, ids: seq<int>, now: int)
    requires Inv(w) && LeasedIds(w, ids, now)
    ensures Calm(w, ReapAll(w, ids, now))
    decreases |ids|
  {
    hide Inv, Calm;
    CalmReflexive(w);
    if ids != [] {
      ReapOneKeepsInv(w, ids[0], now);
      ReapOneIsCalm(w, ids[0], now);
      ReapingIsCalm(ReapOne(w, ids[0], now), ids[1..], now);
      CalmTransitive(w, ReapOne(w, ids[0], now), ReapAll(ReapOne(w, ids[0], now), ids[1..], now));
    }
  }

  lemma ReapIsCalm(w: World, now: int)
    requires Inv(w)
    ensures Calm(w, ReapExpiredLeases(w, now))
  {
    hide Inv, Calm, ReapExpiredLeases, ReapAll;
    ReapKeepsInv(w, now);
    InvHasStructure(w);
    var ids := ExpiredBelow(w, w.nextJob, now);
    ExpiredBelowIs(w, w.nextJob, now);
    forall k | 0 <= k < |ids| ensures ids[k] in w.queue && ids[k] in w.jobs && Expired(w.queue[ids[k]], now) {
      assert ids[k] in ids;
    }
    ReapingIsCalm(w, ids, now);
  }

  // ------------------------------------------- What decisions go on being true

  /** Run o was created before run r, or at the same moment with a smaller number. */
  predicate CreatedBefore(w: World, o: int, r: int)
    requires o in w.runs && r in w.runs
  {
    w.runs[o].createdAt < w.runs[r].createdAt || (w.runs[o].createdAt == w.runs[r].createdAt && o < r)
  }

  /** Another unfinished run of the same workflow-level group is being driven, and it is older. */
  ghost predicate HasElder(w: World, r: int, p: Plan)
    requires r in w.runs
  {
    exists o :: o in w.plans && o in w.runs && o != r && w.plans[o].runGroup == p.runGroup
      && !w.runs[o].status.Completed? && CreatedBefore(w, o, r)
  }

  /** A run in a workflow-level group that does not cancel in progress waits for its elders. */
  ghost predicate InTurn(w: World, r: int, p: Plan)
    requires r in w.runs
  {
    p.runGroup == "" || p.runCancelInProgress || !HasElder(w, r, p)
  }

  /** What a decision about a job said of its needs and its if: is so. */
  ghost predicate Justified(opts: Options, w: World, e: Event, pj: PlannedJob, told: NeedsState) {
    && e.jobID in w.jobs && w.jobs[e.jobID].runID in w.origin && w.jobs[e.jobID].runID in w.runs
    && PlannedAs(w, w.jobs[e.jobID], pj)
    && var r := w.jobs[e.jobID].runID; var jobs := JobsOf(w, r);
      && NeedsDone(jobs, pj.needs) && NeedsTell(jobs, pj.needs, told)
      && (if e.kind == JobQueued then MayRun(opts, w.origin[r], pj, jobs, told) && InTurn(w, r, w.origin[r])
          else MayNotRun(opts, w.origin[r], pj, jobs, told))
  }

  ghost predicate Promised(opts: Options, w: World, e: Event) {
    exists pj, told :: Justified(opts, w, e, pj, told)
  }

  /** The legs of the needs are the same rows in both lists. */
  ghost predicate SameLegs(a: seq<Job>, b: seq<Job>, needs: seq<string>) {
    |a| == |b| && forall k :: 0 <= k < |a| ==> a[k].key == b[k].key && (a[k].key in needs ==> a[k] == b[k])
  }

  lemma SameLegTellsTheSame(a: seq<Job>, b: seq<Job>, needs: seq<string>, n: string)
    requires SameLegs(a, b, needs) && n in needs
    ensures SomeFailed(a, n) <==> SomeFailed(b, n)
    ensures SomeCancelled(a, n) <==> SomeCancelled(b, n)
    ensures SomeRan(a, n) <==> SomeRan(b, n)
    ensures LegsDone(a, n) <==> LegsDone(b, n)
    ensures (exists k :: 0 <= k < |a| && a[k].key == n) <==> (exists k :: 0 <= k < |b| && b[k].key == n)
  {
    hide FailedRow;
    forall k | 0 <= k < |a| && a[k].key == n ensures b[k] == a[k] {
    }
    forall k | 0 <= k < |b| && b[k].key == n ensures b[k] == a[k] {
    }
  }

  lemma SameLegSetsTheSame(a: seq<Job>, b: seq<Job>, needs: seq<string>, n: string, outputs: map<string, string>)
    requires SameLegs(a, b, needs) && n in needs && OutputsTell(a, n, outputs)
    ensures OutputsTell(b, n, outputs)
  {
    forall name, k: nat ensures LastToSet(a, n, name, k) <==> LastToSet(b, n, name, k) {
      SameLast(a, b, needs, n, name, k);
    }
    forall name, k: nat | LastToSet(b, n, name, k) ensures name in outputs && outputs[name] == b[k].outputs[name] {
      assert a[k].key == n;
    }
  }

  lemma SameLast(a: seq<Job>, b: seq<Job>, needs: seq<string>, n: string, name: string, k: nat)
    requires SameLegs(a, b, needs) && n in needs
    ensures LastToSet(a, n, name, k) <==> LastToSet(b, n, name, k)
  {
    forall m | 0 <= m < |a| ensures a[m].key == b[m].key && (a[m].key == n ==> a[m] == b[m]) {
    }
  }

  /** What needs tell is a matter of their legs. */
  lemma SameLegsTellTheSame(a: seq<Job>, b: seq<Job>, needs: seq<string>, told: NeedsState)
    requires SameLegs(a, b, needs)
    ensures NeedsDone(a, needs) ==> NeedsDone(b, needs)
    ensures NeedsTell(a, needs, told) ==> NeedsTell(b, needs, told)
    ensures forall n :: n in needs ==> (MetBy(a, n) <==> MetBy(b, n))
  {
    hide SomeFailed, SomeCancelled, SomeRan, LegsDone, OutputsTell;
    forall n | n in needs
      ensures (SomeFailed(a, n) <==> SomeFailed(b, n)) && (SomeCancelled(a, n) <==> SomeCancelled(b, n))
      ensures (SomeRan(a, n) <==> SomeRan(b, n)) && (LegsDone(a, n) <==> LegsDone(b, n))
      ensures (exists k :: 0 <= k < |a| && a[k].key == n) <==> (exists k :: 0 <= k < |b| && b[k].key == n)
    {
      SameLegTellsTheSame(a, b, needs, n);
    }
    if NeedsTell(a, needs, told) {
      forall n | n in needs ensures EntryTells(b, n, told.context[n]) {
        assert EntryTells(a, n, told.context[n]);
        SameLegSetsTheSame(a, b, needs, n, told.context[n].outputs);
      }
    }
  }

  /** Finished legs are listed as they were. */
  lemma FinishedLegsStay(w: World, w': World, r: int, needs: seq<string>)
    requires Onward(w, w') && NeedsDone(JobsOf(w, r), needs)
    ensures SameLegs(JobsOf(w, r), JobsOf(w', r), needs)
  {
    hide JobsBelow, RosterBelow;
    RosterStays(w.jobs, w'.jobs, w.nextJob, r);
    RosterListsTheJobs(w.jobs, w.nextJob, r);
    RosterListsTheJobs(w'.jobs, w.nextJob, r);
    var a, b, ids := JobsOf(w, r), JobsOf(w', r), RosterBelow(w.jobs, w.nextJob, r);
    assert ids == RosterBelow(w'.jobs, w'.nextJob, r);
    assert |a| == |ids| == |b|;
    forall k | 0 <= k < |a| ensures a[k].key == b[k].key && (a[k].key in needs ==> a[k] == b[k]) {
      var id := ids[k];
      assert id in w.jobs && a[k] == w.jobs[id];
      assert id in w'.jobs && b[k] == w'.jobs[id];
      assert SameIdentity(w.jobs[id], w'.jobs[id]);
      if a[k].key in needs {
        assert LegsDone(a, a[k].key);
      }
    }
  }

  lemma ElderStays(w: World, w': World, r: int, p: Plan)
    requires Onward(w, w') && r in w.runs && HasElder(w', r, p)
    ensures HasElder(w, r, p)
  {
    var o :| o in w'.plans && o in w'.runs && o != r && w'.plans[o].runGroup == p.runGroup
      && !w'.runs[o].status.Completed? && CreatedBefore(w', o, r);
    assert CreatedBefore(w, o, r);
  }

  lemma PromisesAreKept(opts: Options, w: World, w': World, e: Event)
    requires Onward(w, w') && Promised(opts, w, e)
    ensures Promised(opts, w', e)
  {
    hide NeedsTell, NeedsDone, JobsBelow, InTurn, MetBy;
    var pj, told :| Justified(opts, w, e, pj, told);
    var r := w.jobs[e.jobID].runID;
    FinishedLegsStay(w, w', r, pj.needs);
    SameLegsTellTheSame(JobsOf(w, r), JobsOf(w', r), pj.needs, told);
    if e.kind == JobQueued {
      TurnStays(w, w', r, w.origin[r]);
    }
    assert Justified(opts, w', e, pj, told);
  }

  lemma TurnStays(w: World, w': World, r: int, p: Plan)
    requires Onward(w, w') && r in w.runs && InTurn(w, r, p)
    ensures InTurn(w', r, p)
  {
    hide HasElder;
    if HasElder(w', r, p) {
      ElderStays(w, w', r, p);
    }
  }

  /** Every decision logged on the way was justified, and still is. */
  ghost predicate Spread(opts: Options, w: World, w': World) {
    && Onward(w, w')
    && forall i :: |w.events| <= i < |w'.events| && Decision(w'.events[i].kind) ==> Promised(opts, w', w'.events[i])
  }

  lemma CalmSpreads(opts: Options, w: World, w': World)
    requires Calm(w, w')
    ensures Spread(opts, w, w')
  {
  }

  lemma SpreadReflexive(opts: Options, w: World)
    ensures Spread(opts, w, w)
  {
  }

  lemma SpreadTransitive(opts: Options, a: World, b: World, c: World)
    requires Spread(opts, a, b) && Spread(opts, b, c)
    ensures Spread(opts, a, c)
  {
    hide Onward, Promised;
    OnwardTransitive(a, b, c);
    OnwardGrows(b, c);
    forall i | |a.events| <= i < |c.events| && Decision(c.events[i].kind) ensures Promised(opts, c, c.events[i]) {
      if i < |b.events| {
        assert c.events[i] == b.events[i];
        PromisesAreKept(opts, b, c, b.events[i]);
      }
    }
  }

  lemma OnwardGrows(w: World, w': World)
    requires Onward(w, w')
    ensures w.events <= w'.events
  {
  }

  // ------------------------------------------------------------ The admission

  /** Copies of finished legs are what the store holds. */
  lemma SnapshotTellsTheSame(w: World, jobs: seq<Job>, r: int, needs: seq<string>)
    requires Structure(w) && Snapshot(w, jobs, r) && NeedsDone(jobs, needs)
    ensures SameLegs(jobs, JobsOf(w, r), needs)
  {
    hide JobsBelow, RosterBelow;
    RosterListsTheJobs(w.jobs, w.nextJob, r);
    var b, ids := JobsOf(w, r), RosterBelow(w.jobs, w.nextJob, r);
    forall k | 0 <= k < |jobs| ensures jobs[k].key == b[k].key && (jobs[k].key in needs ==> jobs[k] == b[k]) {
      var id := ids[k];
      assert id in w.jobs && b[k] == w.jobs[id] && jobs[k].id == id;
      assert InStep(w, jobs[k]) || Overtaken(w, jobs[k]);
      if jobs[k].key in needs {
        assert LegsDone(jobs, jobs[k].key);
      }
    }
  }

  ghost predicate Turn(a: Admission, run: Run, p: Plan) {
    Pass(a, run, p) && run.cancel.None? && run.id in a.w.runs && InTurn(a.w, run.id, p)
  }

  lemma DecisionIsJustified(opts: Options, run: Run, p: Plan, i: nat, a: Admission, e: Event, pj: PlannedJob, told: NeedsState)
    requires Turn(a, run, p) && i < |a.jobs| && InStep(a.w, a.jobs[i]) && a.jobs[i].runID == run.id && e.jobID == a.jobs[i].id
    requires Find(p.jobs, a.jobs[i].key, a.jobs[i].matrixKey) == Some(pj)
    requires NeedsDone(a.jobs, pj.needs) && NeedsTell(a.jobs, pj.needs, told)
    requires if e.kind == JobQueued then MayRun(opts, p, pj, a.jobs, told) else MayNotRun(opts, p, pj, a.jobs, told)
    ensures Promised(opts, a.w, e)
  {
    hide Inv, Structure, Snapshot, SlotsCounted, NeedsTell, NeedsDone, InTurn, MetBy, Find, JobsBelow;
    InvHasStructure(a.w);
    SnapshotTellsTheSame(a.w, a.jobs, run.id, pj.needs);
    SameLegsTellTheSame(a.jobs, JobsOf(a.w, run.id), pj.needs, told);
    assert Justified(opts, a.w, e, pj, told);
  }

  lemma SkippingSpreads(opts: Options, w: World, w': World, j: Job, now: int)
    requires InStep(w, j) && Pending(j) && SameRuns(w, w') && w'.nextJob == w.nextJob
    requires w'.jobs == w.jobs[j.id := SkippedRow(j, now)]
    requires w'.events == w.events + [Event(JobSkipped, j.runID, j.id, j.attempt, now, 0)]
    requires Promised(opts, w, Event(JobSkipped, j.runID, j.id, j.attempt, now, 0))
    ensures Spread(opts, w, w')
  {
    hide Promised;
    assert Onward(w, w');
    PromisesAreKept(opts, w, w', Event(JobSkipped, j.runID, j.id, j.attempt, now, 0));
  }

  lemma LettingSpreads(opts: Options, a: Admission, a': Admission, j: Job, now: int, i: nat)
    requires i < |a.jobs| && InStep(a.w, j) && Pending(j) && SameRuns(a.w, a'.w) && Let(a, a', j, now, i)
    requires Promised(opts, a.w, Event(JobQueued, j.runID, j.id, j.attempt, now, 0))
    ensures Spread(opts, a.w, a'.w)
  {
    hide Promised;
    LetIsOnward(a, a', j, now, i);
    hide Onward;
    PromisesAreKept(opts, a.w, a'.w, Event(JobQueued, j.runID, j.id, j.attempt, now, 0));
  }

  lemma LetIsOnward(a: Admission, a': Admission, j: Job, now: int, i: nat)
    requires i < |a.jobs| && InStep(a.w, j) && Pending(j) && SameRuns(a.w, a'.w) && Let(a, a', j, now, i)
    ensures Onward(a.w, a'.w)
  {
    forall id | id in a.w.jobs
      ensures SameIdentity(a.w.jobs[id], a'.w.jobs[id]) && (a.w.jobs[id].status.Completed? ==> a'.w.jobs[id] == a.w.jobs[id])
      ensures a'.w.jobs[id].awaitingApproval == a.w.jobs[id].awaitingApproval
      ensures !Pending(a.w.jobs[id]) ==> !Pending(a'.w.jobs[id])
    {
      if id != j.id && id in Evicted(a.w, j) {
        assert TakenOver(a.w.jobs[id], a'.w.jobs[id], now);
      }
    }
  }

  lemma ParkingSpreads(opts: Options, a: Admission, a': Admission, j: Job, now: int, i: nat)
    requires i < |a.jobs| && InStep(a.w, j) && Pending(j) && SameRuns(a.w, a'.w) && Parked(a, a', j, now, i)
    ensures Spread(opts, a.w, a'.w)
  {
    hide Promised;
  }

  lemma AdmitOneSpreads(opts: Options, run: Run, p: Plan, i: nat, a: Admission, now: int)
    requires Turn(a, run, p) && i < |a.jobs|
    ensures Spread(opts, a.w, AdmitOne(opts, run, p, i, a, now).w)
  {
    hide Inv, Snapshot, SlotsCounted, AdmitOne, NeedsTell, NeedsDone, InTurn, MayRun, MayNotRun, Find, Spread, SameRuns, Let,
      Parked, SlotLeft, GroupOpen, ComputeNeeds;
    SpreadReflexive(opts, a.w);
    UndecidedJobsAreLeftAlone(opts, run, p, i, a, now);
    AdmitOneSameRuns(opts, run, p, i, a, now);
    var j, a' := a.jobs[i], AdmitOne(opts, run, p, i, a, now);
    var found := Find(p.jobs, j.key, j.matrixKey);
    if Pending(j) && found.Some? {
      var pj := found.value;
      if NeedsDone(a.jobs, pj.needs) {
        NeedsAreTold(pj, a.jobs);
        var told := ComputeNeeds(pj, a.jobs, false).state;
        PendingIsNotQueued(a, run, p, i);
        SkippedExactlyWhenToldNo(opts, run, p, i, a, now, pj, told);
        QueuedExactlyWhenToldYes(opts, run, p, i, a, now, pj, told);
        if MayNotRun(opts, p, pj, a.jobs, told) {
          var e := Event(JobSkipped, j.runID, j.id, j.attempt, now, 0);
          DecisionIsJustified(opts, run, p, i, a, e, pj, told);
          SkippingSpreads(opts, a.w, a'.w, j, now);
        } else if MayRun(opts, p, pj, a.jobs, told) {
          if SlotLeft(a, j, pj) && GroupOpen(a, j, pj) {
            var e := Event(JobQueued, j.runID, j.id, j.attempt, now, 0);
            DecisionIsJustified(opts, run, p, i, a, e, pj, told);
            LettingSpreads(opts, a, a', j, now, i);
          } else if SlotLeft(a, j, pj) {
            ParkingSpreads(opts, a, a', j, now, i);
          }
        } else {
          EvalFails(opts, p, pj, a.jobs, told);
        }
      }
    }
  }

  lemma EvalFails(opts: Options, p: Plan, pj: PlannedJob, jobs: seq<Job>, told: NeedsState)
    requires !MayRun(opts, p, pj, jobs, told) && !MayNotRun(opts, p, pj, jobs, told)
    ensures pj.cond != "" && opts.eval(p, pj, told).None?
  {
    hide NeedsMet;
    if opts.eval(p, pj, told).Some? {
      assert opts.eval(p, pj, told).value || opts.eval(p, pj, told) == Some(false);
    }
  }

  lemma TurnGoesOn(opts: Options, run: Run, p: Plan, i: nat, a: Admission, now: int)
    requires Turn(a, run, p) && i < |a.jobs|
    ensures Turn(AdmitOne(opts, run, p, i, a, now), run, p)
  {
    hide Pass, AdmitOne;
    AdmitOneKeepsThePass(opts, run, p, i, a, now);
    AdmitOneSameRuns(opts, run, p, i, a, now);
  }

  lemma {:induction false} AdmissionSpreads(opts: Options, run: Run, p: Plan, i: nat, a: Admission, now: int)
    requires Turn(a, run, p)
    ensures Spread(opts, a.w, AdmitFrom(opts, run, p, i, a, now).w)
    decreases |a.jobs| - i
  {
    hide Turn, AdmitOne, Spread;
    SpreadReflexive(opts, a.w);
    if i < |a.jobs| {
      AdmitOneSpreads(opts, run, p, i, a, now);
      TurnGoesOn(opts, run, p, i, a, now);
      var next := AdmitOne(opts, run, p, i, a, now);
      if next.ok {
        AdmissionSpreads(opts, run, p, i + 1, next, now);
        SpreadTransitive(opts, a.w, next.w, AdmitFrom(opts, run, p, i + 1, next, now).w);
      }
    }
  }

  // ------------------------------------------------------- The order of the runs

  lemma {:induction false} BlockedMeans(w: World, run: Run, p: Plan, others: seq<int>)
    requires run.id in w.runs && w.runs[run.id] == run && (forall o :: o in w.plans ==> o in w.runs)
    ensures BlockedFrom(w, run, p, others).Some?
    ensures BlockedFrom(w, run, p, others).value <==>
      exists o :: o in others && o in w.plans && o != run.id && w.plans[o].runGroup == p.runGroup
        && !w.runs[o].status.Completed? && CreatedBefore(w, o, run.id)
    decreases |others|
  {
    if others != [] {
      assert others == [others[0]] + others[1..];
      BlockedMeans(w, run, p, others[1..]);
    }
  }

  /** A run is held up by its workflow-level group exactly when it is not its turn. */
  lemma WaitsExactlyForItsElders(w: World, r: int, p: Plan)
    requires Structure(w) && r in w.runs
    ensures RunGroupBlocked(w, w.runs[r], p) == Some(!InTurn(w, r, p))
  {
    hide TrackedBelow;
    TrackedAreRuns(w);
    TrackedAreThePlans(w.plans, w.nextRun);
    PlansOf(w);
    BlockedMeans(w, w.runs[r], p, TrackedRuns(w));
    if HasElder(w, r, p) {
      var o :| o in w.plans && o in w.runs && o != r && w.plans[o].runGroup == p.runGroup
        && !w.runs[o].status.Completed? && CreatedBefore(w, o, r);
      assert o in TrackedRuns(w);
    }
  }

  lemma AdmitReadySpreads(opts: Options, w: World, run: Run, p: Plan, jobs: seq<Job>, now: int)
    requires Inv(w) && Exact(w, jobs, run.id) && run.id in w.runs && run == w.runs[run.id] && run.cancel.None?
    requires run.id in w.origin && p == w.origin[run.id]
    ensures Spread(opts, w, AdmitReadyJobs(opts, w, run, p, jobs, now).w)
    ensures !InTurn(w, run.id, p) ==> AdmitReadyJobs(opts, w, run, p, jobs, now).w == w
  {
    hide Inv, Structure, Snapshot, SlotsCounted, InTurn, AdmitFrom, RunGroupBlocked, CountInFlight, Spread;
    InvHasStructure(w);
    SpreadReflexive(opts, w);
    WaitsExactlyForItsElders(w, run.id, p);
    if InTurn(w, run.id, p) {
      SlotsAreCountedAtTheStart(w, jobs, run.id);
      AdmissionSpreads(opts, run, p, 0, Admission(w, jobs, CountInFlight(jobs), {}, true), now);
    }
  }

  lemma TickRunSpreads(opts: Options, w: World, r: int, now: int)
    requires Inv(w)
    ensures Spread(opts, w, TickRun(opts, w, r, now).w)
  {
    hide Inv, Structure, Snapshot, Spread, Calm, EnforceRunTimeout, TimeoutsFrom, FailFastFrom, AdmitReadyJobs, FinalizeIfComplete,
      VerdictHonest, KeysOf, JobsOf;
    SpreadReflexive(opts, w);
    if r in w.runs {
      RunFacts(w, r);
      if w.runs[r].status.Completed? {
        ForgettingSpreads(opts, w, r);
      }
      InvHasStructure(w);
      PlansOf(w);
      if !w.runs[r].status.Completed? && r in w.plans {
        ListingIsExact(w, r);
        RunTimeoutKeepsInv(opts, w, w.runs[r], JobsOf(w, r), now);
        RunTimeoutIsCalm(opts, w, w.runs[r], JobsOf(w, r), now);
        CalmSpreads(opts, w, EnforceRunTimeout(opts, w, w.runs[r], JobsOf(w, r), now).w);
        RestOfTickRunSpreads(opts, w, w.runs[r], w.plans[r], JobsOf(w, r), now);
      }
    }
  }

  lemma ForgettingSpreads(opts: Options, w: World, r: int)
    requires r in w.runs && w.runs[r].status.Completed?
    ensures Spread(opts, w, ForgetPlan(w, r))
  {
    hide Promised;
  }

  lemma RestOfTickRunSpreads(opts: Options, w: World, run: Run, p: Plan, jobs: seq<Job>, now: int)
    requires Inv(w) && run.id in w.runs && run == w.runs[run.id] && !run.status.Completed? && Exact(w, jobs, run.id)
    requires run.id in w.origin && p == w.origin[run.id]
    ensures var t := TimeoutsFrom(opts, w, jobs, 0, now);
      var f := FailFastFrom(t.w, p, t.jobs, KeysOf(t.jobs), now);
      var a := AdmitReadyJobs(opts, f.w, run, p, f.jobs, now);
      && Spread(opts, w, t.w)
      && (t.ok ==> Spread(opts, w, a.w) && Spread(opts, w, FinalizeIfComplete(a.w, run, a.jobs, now).w))
  {
    hide Inv, Snapshot, Spread, Calm, VerdictHonest, TimeoutsFrom, FailFastFrom, AdmitReadyJobs, FinalizeIfComplete;
    TimeoutsKeepInv(opts, w, jobs, 0, now, run.id);
    TimeoutsAreCalm(opts, w, jobs, 0, now, run.id);
    var t := TimeoutsFrom(opts, w, jobs, 0, now);
    CalmSpreads(opts, w, t.w);
    if t.ok {
      FailFastKeepsInv(t.w, p, t.jobs, KeysOf(t.jobs), now, run.id);
      FailFastIsCalm(t.w, p, t.jobs, KeysOf(t.jobs), now, run.id);
      var f := FailFastFrom(t.w, p, t.jobs, KeysOf(t.jobs), now);
      CalmSpreads(opts, t.w, f.w);
      SpreadTransitive(opts, w, t.w, f.w);
      NotCancelled(w, run.id);
      AdmitReadySpreads(opts, f.w, run, p, f.jobs, now);
      AdmissionSameRuns(opts, f.w, run, p, f.jobs, now);
      var a := AdmitReadyJobs(opts, f.w, run, p, f.jobs, now);
      SpreadTransitive(opts, w, f.w, a.w);
      ClosingIsCalm(a.w, run, a.jobs, now);
      CalmSpreads(opts, a.w, FinalizeIfComplete(a.w, run, a.jobs, now).w);
      SpreadTransitive(opts, w, a.w, FinalizeIfComplete(a.w, run, a.jobs, now).w);
    }
  }

  lemma {:induction false} TickRunsSpread(opts: Options, w: World, ids: seq<int>, now: int)
    requires Inv(w)
    ensures Spread(opts, w, TickRuns(opts, w, ids, now).w)
    decreases |ids|
  {
    hide Inv, TickRun, Spread;
    SpreadReflexive(opts, w);
    if ids != [] {
      var t := TickRun(opts, w, ids[0], now);
      TickRunSpreads(opts, w, ids[0], now);
      TickRunKeepsInv(opts, w, ids[0], now);
      TickRunsSpread(opts, t.w, ids[1..], now);
      SpreadTransitive(opts, w, t.w, TickRuns(opts, t.w, ids[1..], now).w);
    }
  }

  lemma TickSpreads(opts: Options, w: World, now: int)
    requires Inv(w)
    ensures Spread(opts, w, Tick(opts, w, now).w)
  {
    hide Inv, TickRuns, Spread, Calm, TrackedBelow, ReapExpiredLeases;
    SpreadReflexive(opts, w);
    if now != 0 {
      var reaped := ReapExpiredLeases(w, now);
      ReapKeepsInv(w, now);
      ReapIsCalm(w, now);
      CalmSpreads(opts, w, reaped);
      TickRunsSpread(opts, reaped, TrackedRuns(reaped), now);
      SpreadTransitive(opts, w, reaped, TickRuns(opts, reaped, TrackedRuns(reaped), now).w);
    }
  }

  // ------------------------------------------------------------- The theorems

  /** What the listed legs say of a need is what the invariant says of it. */
  lemma MetMeansMet(w: World, r: int, needs: seq<string>, n: string)
    requires Structure(w) && NeedsDone(JobsOf(w, r), needs) && n in needs
    ensures MetBy(JobsOf(w, r), n) <==> NeedMet(w, r, n)
  {
    hide JobsBelow, Gating;
    var jobs := JobsOf(w, r);
    ListingIsExact(w, r);
    SnapshotFacts(w, jobs, r);
    assert LegsDone(jobs, n);
    forall id | IsLeg(w, id, r, n) ensures exists k :: 0 <= k < |jobs| && jobs[k] == w.jobs[id] && jobs[k].key == n {
      var k :| 0 <= k < |jobs| && jobs[k].id == id;
      assert InStep(w, jobs[k]);
    }
    forall k | 0 <= k < |jobs| && jobs[k].key == n ensures IsLeg(w, jobs[k].id, r, n) && w.jobs[jobs[k].id] == jobs[k] {
      assert InStep(w, jobs[k]);
    }
    forall j: Job ensures (Gating(j).IsFailure() <==> FailedRow(j)) && (Gating(j) == Skipped <==> j.conclusion == Skipped) {
      GatingTells(j);
    }
    if MetBy(jobs, n) {
      ListMetIsMet(w, r, jobs, n);
    }
    if NeedMet(w, r, n) {
      var id :| IsLeg(w, id, r, n) && Gating(w.jobs[id]) != Skipped;
      var k :| 0 <= k < |jobs| && jobs[k] == w.jobs[id] && jobs[k].key == n;
    }
  }

  lemma ListMetIsMet(w: World, r: int, jobs: seq<Job>, n: string)
    requires MetBy(jobs, n) && LegsDone(jobs, n)
    requires forall id :: IsLeg(w, id, r, n) ==> exists k :: 0 <= k < |jobs| && jobs[k] == w.jobs[id] && jobs[k].key == n
    requires forall k :: 0 <= k < |jobs| && jobs[k].key == n ==> IsLeg(w, jobs[k].id, r, n) && w.jobs[jobs[k].id] == jobs[k]
    requires forall j: Job :: (Gating(j).IsFailure() <==> FailedRow(j)) && (Gating(j) == Skipped <==> j.conclusion == Skipped)
    ensures NeedMet(w, r, n)
  {
    hide Gating, FailedRow;
    forall id | IsLeg(w, id, r, n)
      ensures w.jobs[id].status.Completed? && !Gating(w.jobs[id]).IsFailure() && w.jobs[id].conclusion != Cancelled
    {
      var k :| 0 <= k < |jobs| && jobs[k] == w.jobs[id] && jobs[k].key == n;
    }
    var k :| 0 <= k < |jobs| && jobs[k].key == n && jobs[k].conclusion != Skipped;
    assert IsLeg(w, jobs[k].id, r, n) && Gating(w.jobs[jobs[k].id]) != Skipped;
  }

  lemma DecisionsWereJustified(opts: Options, w: World, now: int, i: nat) returns (pj: PlannedJob, told: NeedsState)
    requires Inv(w) && |w.events| <= i < |Tick(opts, w, now).w.events| && Decision(Tick(opts, w, now).w.events[i].kind)
    ensures Justified(opts, Tick(opts, w, now).w, Tick(opts, w, now).w.events[i], pj, told)
    ensures var w' := Tick(opts, w, now).w; var r := w'.jobs[w'.events[i].jobID].runID;
      && Inv(w')
      && forall n :: n in pj.needs ==> (MetBy(JobsOf(w', r), n) <==> NeedMet(w', r, n))
  {
    hide Inv, Tick, MetBy, NeedMet, NeedsDone, NeedsTell, MayRun, MayNotRun, InTurn, JobsOf;
    TickSpreads(opts, w, now);
    TickKeepsInv(opts, w, now);
    var w' := Tick(opts, w, now).w;
    InvHasStructure(w');
    assert Promised(opts, w', w'.events[i]);
    pj, told :| Justified(opts, w', w'.events[i], pj, told);
    forall n | n in pj.needs ensures MetBy(JobsOf(w', w'.jobs[w'.events[i].jobID].runID), n)
                                <==> NeedMet(w', w'.jobs[w'.events[i].jobID].runID, n) {
      MetMeansMet(w', w'.jobs[w'.events[i].jobID].runID, pj.needs, n);
    }
  }

  /** Whatever a tick puts on the queue has finished needs. Its if:, if it has one, evaluates to
      true over what they came to; and unless the if: names a status function, every need was
      met. No unfinished run of its workflow-level group is older than its own. */
  lemma NothingIsQueuedOutOfTurn(opts: Options, w: World, now: int, i: nat) returns (pj: PlannedJob, told: NeedsState)
    requires Reachable(opts, w)
    requires |w.events| <= i < |Tick(opts, w, now).w.events| && Tick(opts, w, now).w.events[i].kind == JobQueued
    ensures var w' := Tick(opts, w, now).w; var id := w'.events[i].jobID;
      && id in w'.jobs && w'.jobs[id].runID in w'.origin && w'.jobs[id].runID in w'.runs
      && var r := w'.jobs[id].runID; var p := w'.origin[r];
        && Find(p.jobs, w'.jobs[id].key, w'.jobs[id].matrixKey) == Some(pj)
        && NeedsDone(JobsOf(w', r), pj.needs) && NeedsTell(JobsOf(w', r), pj.needs, told)
        && (pj.cond == "" || opts.eval(p, pj, told) == Some(true))
        && ((pj.cond != "" && pj.namesStatus) || forall n :: n in pj.needs ==> NeedMet(w', r, n))
        && (p.runGroup != "" && !p.runCancelInProgress ==>
             forall o :: o in w'.plans && o in w'.runs && o != r && w'.plans[o].runGroup == p.runGroup && !w'.runs[o].status.Completed?
               ==> w'.runs[r].createdAt < w'.runs[o].createdAt || (w'.runs[r].createdAt == w'.runs[o].createdAt && r < o))
  {
    hide Reachable, Inv, Tick, MetBy, NeedMet, NeedsDone, NeedsTell, JobsOf, Find;
    ReachableIsSafe(opts, w);
    pj, told := DecisionsWereJustified(opts, w, now, i);
  }

  /** Whatever a tick skips has finished needs and was told no: by its if:, or, if that names no
      status function, by a need that was not met. */
  lemma NothingIsSkippedUnasked(opts: Options, w: World, now: int, i: nat) returns (pj: PlannedJob, told: NeedsState)
    requires Reachable(opts, w)
    requires |w.events| <= i < |Tick(opts, w, now).w.events| && Tick(opts, w, now).w.events[i].kind == JobSkipped
    ensures var w' := Tick(opts, w, now).w; var id := w'.events[i].jobID;
      && id in w'.jobs && w'.jobs[id].runID in w'.origin
      && var r := w'.jobs[id].runID; var p := w'.origin[r];
        && Find(p.jobs, w'.jobs[id].key, w'.jobs[id].matrixKey) == Some(pj)
        && NeedsDone(JobsOf(w', r), pj.needs) && NeedsTell(JobsOf(w', r), pj.needs, told)
        && ((pj.cond != "" && opts.eval(p, pj, told) == Some(false))
            || (!(pj.cond != "" && pj.namesStatus) && exists n :: n in pj.needs && !NeedMet(w', r, n)))
  {
    hide Reachable, Inv, Tick, MetBy, NeedMet, NeedsDone, NeedsTell, JobsOf, Find, InTurn;
    ReachableIsSafe(opts, w);
    pj, told := DecisionsWereJustified(opts, w, now, i);
  }

  // ----------------------------------------------------------- Getting a turn

  lemma AdmitOneLooksAtOne(opts: Options, run: Run, p: Plan, i: nat, a: Admission, now: int, m: nat)
    requires i < |a.jobs| && m < |a.jobs| && m != i
    ensures AdmitOne(opts, run, p, i, a, now).jobs[m] == a.jobs[m]
    ensures !Pending(a.jobs[i]) ==> AdmitOne(opts, run, p, i, a, now) == a
    ensures AdmitOne(opts, run, p, i, a, now).jobs[i].key == a.jobs[i].key
  {
    hide FinishAttempt, ComputeNeeds, ShouldRun, Find, DisplaceAll, HoldersOf, LiveBelow, AdmitToGroup, AdmitToQueue;
    var found := Find(p.jobs, a.jobs[i].key, a.jobs[i].matrixKey);
    if found.Some? {
      SkipShape(a.w, found.value, a.jobs[i], now);
      GroupKeepsKey(a.w, a.jobs[i], found.value, a.taken, now);
      var g := AdmitToGroup(a.w, a.jobs[i], found.value, a.taken, now);
      QueuedKeepsId(g.w, g.job, now);
    }
  }

  lemma GroupKeepsKey(w: World, j: Job, pj: PlannedJob, taken: set<string>, now: int)
    ensures AdmitToGroup(w, j, pj, taken, now).job.key == j.key
  {
    hide DisplaceAll, HoldersOf, LiveBelow;
  }

  lemma DoneStaysDone(jobs: seq<Job>, jobs': seq<Job>, i: nat, needs: seq<string>)
    requires NeedsDone(jobs, needs) && i < |jobs| == |jobs'| && jobs'[i].key == jobs[i].key
    requires forall m :: 0 <= m < |jobs| && m != i ==> jobs'[m] == jobs[m]
    requires jobs[i].status.Completed? ==> jobs'[i] == jobs[i]
    ensures NeedsDone(jobs', needs)
  {
    forall k | 0 <= k < |jobs| && jobs[k].key in needs ensures jobs'[k] == jobs[k] {
      assert LegsDone(jobs, jobs[k].key);
    }
    assert SameLegs(jobs, jobs', needs);
    SameLegsTellTheSame(jobs, jobs', needs, NoNeeds);
  }

  /** The m-th job of the list is pending, has nothing to wait for, and is in no group. */
  ghost predicate Due(a: Admission, p: Plan, m: nat, pj: PlannedJob) {
    && m < |a.jobs| && Pending(a.jobs[m]) && a.jobs[m].group == "" && pj.maxParallel <= 0
    && Find(p.jobs, a.jobs[m].key, a.jobs[m].matrixKey) == Some(pj) && NeedsDone(a.jobs, pj.needs)
  }

  lemma DueIsDecided(opts: Options, run: Run, p: Plan, m: nat, a: Admission, now: int, pj: PlannedJob)
    requires Turn(a, run, p) && Due(a, p, m, pj) && AdmitOne(opts, run, p, m, a, now).ok
    ensures var a' := AdmitOne(opts, run, p, m, a, now); var id := a.jobs[m].id;
      id in a'.w.jobs && !Pending(a'.w.jobs[id])
  {
    hide Inv, Snapshot, SlotsCounted, AdmitOne, NeedsTell, NeedsDone, InTurn, MayRun, MayNotRun, Find, ComputeNeeds;
    var j := a.jobs[m];
    NeedsAreTold(pj, a.jobs);
    var told := ComputeNeeds(pj, a.jobs, false).state;
    PendingIsNotQueued(a, run, p, m);
    SkippedExactlyWhenToldNo(opts, run, p, m, a, now, pj, told);
    QueuedExactlyWhenToldYes(opts, run, p, m, a, now, pj, told);
    UndecidedJobsAreLeftAlone(opts, run, p, m, a, now);
    if !MayRun(opts, p, pj, a.jobs, told) && !MayNotRun(opts, p, pj, a.jobs, told) {
      EvalFails(opts, p, pj, a.jobs, told);
    }
  }

  lemma {:induction false} DueGetsItsTurn(opts: Options, run: Run, p: Plan, i: nat, a: Admission, now: int, m: nat,
                                          pj: PlannedJob)
    requires Turn(a, run, p) && i <= m && Due(a, p, m, pj) && AdmitFrom(opts, run, p, i, a, now).ok
    ensures var w' := AdmitFrom(opts, run, p, i, a, now).w; var id := a.jobs[m].id; id in w'.jobs && !Pending(w'.jobs[id])
    decreases |a.jobs| - i
  {
    hide Turn, AdmitOne, Find, NeedsDone, Onward, Pending;
    var next := AdmitOne(opts, run, p, i, a, now);
    TurnGoesOn(opts, run, p, i, a, now);
    if i == m {
      DueIsDecided(opts, run, p, m, a, now, pj);
      AdmissionSpreads(opts, run, p, i + 1, next, now);
      DecidedStays(next.w, AdmitFrom(opts, run, p, i + 1, next, now).w, a.jobs[m].id);
    } else {
      StillDue(opts, run, p, i, a, now, m, pj);
      DueGetsItsTurn(opts, run, p, i + 1, next, now, m, pj);
    }
  }

  lemma StillDue(opts: Options, run: Run, p: Plan, i: nat, a: Admission, now: int, m: nat, pj: PlannedJob)
    requires i < m && Due(a, p, m, pj)
    ensures Due(AdmitOne(opts, run, p, i, a, now), p, m, pj) && AdmitOne(opts, run, p, i, a, now).jobs[m] == a.jobs[m]
  {
    hide AdmitOne, Find, NeedsDone;
    var next := AdmitOne(opts, run, p, i, a, now);
    forall k | 0 <= k < |a.jobs| && k != i ensures next.jobs[k] == a.jobs[k] {
      AdmitOneLooksAtOne(opts, run, p, i, a, now, k);
    }
    AdmitOneLooksAtOne(opts, run, p, i, a, now, m);
    DoneStaysDone(a.jobs, next.jobs, i, pj.needs);
  }

  lemma DecidedStays(w: World, w': World, id: int)
    requires Onward(w, w') && id in w.jobs && !Pending(w.jobs[id])
    ensures id in w'.jobs && !Pending(w'.jobs[id])
  {
  }

  /** If the job is still pending, its run is driven and in turn, its needs are done, and neither
      a slot nor a group is in its way. */
  ghost predicate Standing(w: World, id: int, pj: PlannedJob) {
    && id in w.jobs
    && (Pending(w.jobs[id]) ==>
         var j := w.jobs[id]; var r := j.runID;
         && r in w.runs && r in w.plans && PlannedAs(w, j, pj) && NeedsDone(JobsOf(w, r), pj.needs)
         && InTurn(w, r, w.plans[r]) && j.group == "" && pj.maxParallel <= 0)
  }

  lemma StillStanding(w: World, w': World, id: int, pj: PlannedJob)
    requires Inv(w') && Onward(w, w') && Standing(w, id, pj)
    ensures Standing(w', id, pj)
  {
    hide Inv, NeedsDone, JobsBelow, InTurn;
    if Pending(w'.jobs[id]) {
      var r := w.jobs[id].runID;
      RunFacts(w', r);
      FinishedLegsStay(w, w', r, pj.needs);
      SameLegsTellTheSame(JobsOf(w, r), JobsOf(w', r), pj.needs, NoNeeds);
      TurnStays(w, w', r, w.plans[r]);
    }
  }

  lemma AdmissionDecides(opts: Options, w: World, run: Run, p: Plan, jobs: seq<Job>, now: int, id: int, pj: PlannedJob)
    requires Inv(w) && Exact(w, jobs, run.id) && run.id in w.runs && run == w.runs[run.id] && run.cancel.None?
    requires run.id in w.plans && p == w.plans[run.id] && Standing(w, id, pj) && id in w.jobs && w.jobs[id].runID == run.id
    requires AdmitReadyJobs(opts, w, run, p, jobs, now).ok
    ensures var w' := AdmitReadyJobs(opts, w, run, p, jobs, now).w; id in w'.jobs && !Pending(w'.jobs[id])
  {
    hide Inv, Structure, Snapshot, SlotsCounted, InTurn, AdmitFrom, RunGroupBlocked, CountInFlight, NeedsDone, Find, Onward,
      Pending, JobsBelow;
    InvHasStructure(w);
    PlansOf(w);
    AdmitReadySpreads(opts, w, run, p, jobs, now);
    if Pending(w.jobs[id]) {
      WaitsExactlyForItsElders(w, run.id, p);
      SlotsAreCountedAtTheStart(w, jobs, run.id);
      ExactIsTheListing(w, jobs, run.id);
      var m := PlaceInTheList(w, jobs, run.id, id);
      var a := Admission(w, jobs, CountInFlight(jobs), {}, true);
      assert Due(a, p, m, pj);
      DueGetsItsTurn(opts, run, p, 0, a, now, m, pj);
    } else {
      DecidedStays(w, AdmitReadyJobs(opts, w, run, p, jobs, now).w, id);
    }
  }

  lemma PlaceInTheList(w: World, jobs: seq<Job>, r: int, id: int) returns (m: nat)
    requires Structure(w) && Exact(w, jobs, r) && id in w.jobs && w.jobs[id].runID == r
    ensures m < |jobs| && jobs[m] == w.jobs[id] && jobs[m].id == id
  {
    SnapshotFacts(w, jobs, r);
    m :| 0 <= m < |jobs| && jobs[m].id == id;
    assert InStep(w, jobs[m]);
  }

  lemma TickRunDecides(opts: Options, w: World, r: int, now: int, id: int, pj: PlannedJob)
    requires Inv(w) && Standing(w, id, pj) && id in w.jobs && w.jobs[id].runID == r && TickRun(opts, w, r, now).ok
    ensures var w' := TickRun(opts, w, r, now).w; id in w'.jobs && !Pending(w'.jobs[id])
  {
    hide Inv, Structure, Snapshot, Onward, EnforceRunTimeout, TimeoutsFrom, FailFastFrom, AdmitReadyJobs, FinalizeIfComplete,
      KeysOf, JobsOf, Standing, Pending;
    TickRunSpreads(opts, w, r, now);
    if Pending(w.jobs[id]) {
      StandingFacts(w, id, pj);
      InvHasStructure(w);
      PlansOf(w);
      RunFacts(w, r);
      if w.runs[r].status.Completed? {
        FinishedRunsHaveNothingPending(w, id);
        assert false;
      }
      ListingIsExact(w, r);
      RunTimeoutKeepsInv(opts, w, w.runs[r], JobsOf(w, r), now);
      var s := EnforceRunTimeout(opts, w, w.runs[r], JobsOf(w, r), now);
      if s.run.status.Completed? {
        OverdueRunsHaveNothingPending(opts, w, w.runs[r], JobsOf(w, r), now, id);
      } else {
        RestOfTickRunDecides(opts, w, w.runs[r], w.plans[r], JobsOf(w, r), now, id, pj);
      }
    } else {
      DecidedStays(w, TickRun(opts, w, r, now).w, id);
    }
  }

  lemma StandingFacts(w: World, id: int, pj: PlannedJob)
    requires Standing(w, id, pj) && Pending(w.jobs[id])
    ensures w.jobs[id].runID in w.runs && w.jobs[id].runID in w.plans
  {
    hide InTurn, NeedsDone, JobsBelow;
  }

  lemma FinishedRunsHaveNothingPending(w: World, id: int)
    requires Inv(w) && id in w.jobs && w.jobs[id].runID in w.runs && w.runs[w.jobs[id].runID].status.Completed?
    ensures !Pending(w.jobs[id])
  {
    hide Inv;
    RunFacts(w, w.jobs[id].runID);
  }

  lemma OverdueRunsHaveNothingPending(opts: Options, w: World, run: Run, jobs: seq<Job>, now: int, id: int)
    requires Inv(w) && run.id in w.runs && run == w.runs[run.id] && !run.status.Completed? && Exact(w, jobs, run.id)
    requires id in w.jobs && w.jobs[id].runID == run.id && EnforceRunTimeout(opts, w, run, jobs, now).run.status.Completed?
    ensures var w' := EnforceRunTimeout(opts, w, run, jobs, now).w; id in w'.jobs && !Pending(w'.jobs[id])
  {
    hide Inv, Structure, Snapshot, Onward, StopFrom, RunOverdue, Calm;
    var reason := Because(ActorTimeout);
    StopFromKeepsInv(w, jobs, 0, reason, TimedOut, ClassUser, now, run.id);
    StoppingIsCalm(w, jobs, 0, reason, TimedOut, ClassUser, now, run.id);
    var s := StopFrom(w, jobs, 0, reason, TimedOut, ClassUser, now);
    StaysOfTheRun(w, s.0, id);
    InvHasStructure(s.0);
    var m := PlaceInTheList(s.0, s.1, run.id, id);
    assert s.1[m].status.Completed?;
  }

  lemma StaysOfTheRun(w: World, w': World, id: int)
    requires Calm(w, w') && id in w.jobs
    ensures id in w'.jobs && w'.jobs[id].runID == w.jobs[id].runID
  {
  }

  lemma RestOfTickRunDecides(opts: Options, w: World, run: Run, p: Plan, jobs: seq<Job>, now: int, id: int, pj: PlannedJob)
    requires Inv(w) && run.id in w.runs && run == w.runs[run.id] && !run.status.Completed? && Exact(w, jobs, run.id)
    requires run.id in w.plans && p == w.plans[run.id] && Standing(w, id, pj) && id in w.jobs && w.jobs[id].runID == run.id
    requires var t := TimeoutsFrom(opts, w, jobs, 0, now);
      t.ok && var f := FailFastFrom(t.w, p, t.jobs, KeysOf(t.jobs), now); AdmitReadyJobs(opts, f.w, run, p, f.jobs, now).ok
    ensures var t := TimeoutsFrom(opts, w, jobs, 0, now);
      var f := FailFastFrom(t.w, p, t.jobs, KeysOf(t.jobs), now);
      var a := AdmitReadyJobs(opts, f.w, run, p, f.jobs, now);
      var w' := FinalizeIfComplete(a.w, run, a.jobs, now).w; id in w'.jobs && !Pending(w'.jobs[id])
  {
    hide Inv, Snapshot, Onward, Calm, VerdictHonest, TimeoutsFrom, FailFastFrom, AdmitReadyJobs, FinalizeIfComplete, Standing,
      Pending, Spread;
    TimeoutsKeepInv(opts, w, jobs, 0, now, run.id);
    TimeoutsAreCalm(opts, w, jobs, 0, now, run.id);
    var t := TimeoutsFrom(opts, w, jobs, 0, now);
    FailFastKeepsInv(t.w, p, t.jobs, KeysOf(t.jobs), now, run.id);
    FailFastIsCalm(t.w, p, t.jobs, KeysOf(t.jobs), now, run.id);
    var f := FailFastFrom(t.w, p, t.jobs, KeysOf(t.jobs), now);
    CalmTransitive(w, t.w, f.w);
    CalmIsOnward(w, f.w);
    StaysOfTheRun(w, f.w, id);
    StillStanding(w, f.w, id, pj);
    NotCancelled(w, run.id);
    AdmissionDecides(opts, f.w, run, p, f.jobs, now, id, pj);
    AdmissionSameRuns(opts, f.w, run, p, f.jobs, now);
    var a := AdmitReadyJobs(opts, f.w, run, p, f.jobs, now);
    ClosingIsCalm(a.w, run, a.jobs, now);
    CalmIsOnward(a.w, FinalizeIfComplete(a.w, run, a.jobs, now).w);
    DecidedStays(a.w, FinalizeIfComplete(a.w, run, a.jobs, now).w, id);
  }

  lemma CalmIsOnward(w: World, w': World)
    requires Calm(w, w')
    ensures Onward(w, w')
  {
  }

  lemma SpreadIsOnward(opts: Options, w: World, w': World)
    requires Spread(opts, w, w')
    ensures Onward(w, w')
  {
  }

  lemma StandingFromTheStart(w: World, id: int, pj: PlannedJob)
    requires Standing(w, id, pj)
    ensures id in w.jobs && (Pending(w.jobs[id]) ==> w.jobs[id].runID in w.plans)
  {
    hide InTurn, NeedsDone, JobsBelow;
  }

  lemma {:induction false} TickRunsDecide(opts: Options, w: World, ids: seq<int>, now: int, id: int, pj: PlannedJob)
    requires Inv(w) && Standing(w, id, pj) && TickRuns(opts, w, ids, now).ok
    requires id in w.jobs && (Pending(w.jobs[id]) ==> w.jobs[id].runID in ids)
    ensures var w' := TickRuns(opts, w, ids, now).w; id in w'.jobs && !Pending(w'.jobs[id])
    decreases |ids|
  {
    hide Inv, TickRun, Onward, Standing, Pending, Promised;
    if ids != [] {
      var t := TickRun(opts, w, ids[0], now);
      TickRunKeepsInv(opts, w, ids[0], now);
      TickRunSpreads(opts, w, ids[0], now);
      OnwardKeepsRuns(w, t.w, id);
      TickRunsSpread(opts, t.w, ids[1..], now);
      if w.jobs[id].runID == ids[0] {
        TickRunDecides(opts, w, ids[0], now, id, pj);
        DecidedStays(t.w, TickRuns(opts, t.w, ids[1..], now).w, id);
      } else {
        if !Pending(w.jobs[id]) {
          DecidedStays(w, t.w, id);
        }
        StillStanding(w, t.w, id, pj);
        TickRunsDecide(opts, t.w, ids[1..], now, id, pj);
      }
    }
  }

  lemma OnwardKeepsRuns(w: World, w': World, id: int)
    requires Onward(w, w') && id in w.jobs
    ensures id in w'.jobs && w'.jobs[id].runID == w.jobs[id].runID
  {
  }

  lemma StillHeld(w: World, w': World, id: int)
    requires Onward(w, w') && id in w.jobs
    ensures id in w'.jobs && w'.jobs[id].awaitingApproval == w.jobs[id].awaitingApproval
  {
  }

  /** The oldest unfinished run of a workflow-level group is never held up by it, nor is any run
      without one: a tick that runs through decides every job of such a run that is pending,
      whose needs are done, and which no slot and no group of its own can keep waiting. */
  lemma RunsInTurnAreNotHeldUp(opts: Options, w: World, now: int, id: int, pj: PlannedJob)
    requires Inv(w) && now != 0 && Tick(opts, w, now).ok
    requires id in w.jobs && !w.jobs[id].status.Completed? && w.jobs[id].queuedAt.None? && !w.jobs[id].awaitingApproval
    requires var r := w.jobs[id].runID;
      && r in w.runs && r in w.plans && PlannedAs(w, w.jobs[id], pj) && NeedsDone(JobsOf(w, r), pj.needs)
      && (w.plans[r].runGroup == "" || w.plans[r].runCancelInProgress
          || forall o :: o in w.plans && o in w.runs && o != r && w.plans[o].runGroup == w.plans[r].runGroup
               && !w.runs[o].status.Completed?
               ==> w.runs[r].createdAt < w.runs[o].createdAt || (w.runs[r].createdAt == w.runs[o].createdAt && r < o))
    requires w.jobs[id].group == "" && pj.maxParallel <= 0
    ensures var w' := Tick(opts, w, now).w;
      && id in w'.jobs && (w'.jobs[id].status.Completed? || w'.jobs[id].queuedAt.Some?)
  {
    hide Inv, TickRuns, TrackedBelow, ReapExpiredLeases, Onward, Calm, NeedsDone, JobsOf, PlannedAs;
    assert Standing(w, id, pj);
    var reaped := ReapExpiredLeases(w, now);
    ReapKeepsInv(w, now);
    ReapIsCalm(w, now);
    CalmIsOnward(w, reaped);
    StillStanding(w, reaped, id, pj);
    StandingFromTheStart(reaped, id, pj);
    InvHasStructure(reaped);
    TrackedAreRuns(reaped);
    TrackedAreThePlans(reaped.plans, reaped.nextRun);
    hide Standing;
    TickRunsDecide(opts, reaped, TrackedRuns(reaped), now, id, pj);
    TickSpreads(opts, w, now);
    SpreadIsOnward(opts, w, Tick(opts, w, now).w);
    StillHeld(w, Tick(opts, w, now).w, id);
  }
}
