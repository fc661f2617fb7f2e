/** One tick leaves every run it does not finish quiet, so a second tick at the same instant
    finds nothing to do. A job only ever gets calmer within a tick: it may be queued or end,
    but nothing that was looked at and left alone becomes due because of what came later. */
module Settled {
  import opened Model
  import opened Retry
  import opened Entities
  import opened Steps
  import opened Invariants
  import opened Moves
  import opened Attempts
  import opened Sweeps
  import opened Admissions
  import opened EntryPoints
  import opened Settling

  // ----------------------------------------------------------------- Timeouts

  /** Step rows stay and step budgets are only ever dropped. */
  ghost predicate Shrinks(w: World, w': World) {
    && w'.steps == w.steps
    && forall id :: id in w'.stepTimeouts ==> id in w.stepTimeouts && w'.stepTimeouts[id] == w.stepTimeouts[id]
  }

  lemma ConcludeShrinks(w: World, j: Job, res: Result, now: int)
    ensures Shrinks(w, Conclude(w, j, res, now).w)
  {
  }

  lemma RetryShrinks(w: World, pj: PlannedJob, j: Job, now: int)
    ensures Shrinks(w, RequeueForRetry(w, pj, j, now).w) && RequeueForRetry(w, pj, j, now).job.status.Queued?
  {
    hide Delay;
  }

  lemma NotedShrinks(w: World, j: Job, res: Result, now: int)
    ensures Noted(w, j, res, now).steps == w.steps && Noted(w, j, res, now).stepTimeouts == w.stepTimeouts
  {
  }

  lemma FinishShrinks(w: World, pj: Option<PlannedJob>, j: Job, res: Result, now: int, allowRetry: bool)
    requires res.Valid() && (allowRetry ==> pj.Some?)
    ensures var f := FinishAttempt(w, pj, j, res, now, allowRetry); f.ok && Shrinks(w, f.w) && !f.job.status.InProgress?
  {
    hide Retries, RequeueForRetry, Noted, WithOutputs;
    var noted, job := Noted(w, j, res, now), WithOutputs(j, res);
    NotedShrinks(w, j, res, now);
    ConcludeShrinks(noted, job, res, now);
    if pj.Some? {
      RetryShrinks(noted, pj.value, job, now);
      RetrySucceeds(noted, pj.value, job, now);
    }
  }

  lemma RetrySucceeds(w: World, pj: PlannedJob, j: Job, now: int)
    ensures RequeueForRetry(w, pj, j, now).ok
  {
    hide Delay;
  }

  lemma BudgetsShrink(opts: Options, w: World, w': World, j: Job, now: int)
    requires WithinBudget(opts, w, j, now) && Shrinks(w, w')
    ensures WithinBudget(opts, w', j, now)
  {
  }

  lemma TimeoutSettles(opts: Options, w: World, j: Job, now: int)
    requires EnforceJobTimeout(opts, w, j, now).ok
    ensures var f := EnforceJobTimeout(opts, w, j, now); Shrinks(w, f.w) && WithinBudget(opts, f.w, f.job, now)
  {
    hide FinishAttempt, SomeStepOverdue, Find, JobBudget;
    var pj := if j.runID in w.plans then Find(w.plans[j.runID].jobs, j.key, j.matrixKey) else None;
    var setup, timed := Imposed(InfraFailure, ClassInfra, Because(ActorTimeout)), Imposed(TimedOut, ClassUser, Because(ActorTimeout));
    if pj.Some? {
      FinishShrinks(w, pj, j, setup, now, true);
    }
    FinishShrinks(w, None, j, timed, now, false);
  }

  lemma {:induction false} TimeoutsSettle(opts: Options, w: World, jobs: seq<Job>, i: nat, now: int)
    requires i <= |jobs| && TimeoutsFrom(opts, w, jobs, i, now).ok
    requires forall k :: 0 <= k < i ==> WithinBudget(opts, w, jobs[k], now)
    ensures var s := TimeoutsFrom(opts, w, jobs, i, now);
      forall k :: 0 <= k < |jobs| ==> WithinBudget(opts, s.w, s.jobs[k], now)
    decreases |jobs| - i
  {
    hide EnforceJobTimeout, WithinBudget, Shrinks;
    if i < |jobs| {
      var f := EnforceJobTimeout(opts, w, jobs[i], now);
      TimeoutSettles(opts, w, jobs[i], now);
      var jobs' := jobs[i := f.job];
      forall k | 0 <= k < i + 1 ensures WithinBudget(opts, f.w, jobs'[k], now) {
        if k < i {
          BudgetsShrink(opts, w, f.w, jobs[k], now);
        }
      }
      TimeoutsSettle(opts, f.w, jobs', i + 1, now);
    }
  }

  // ---------------------------------------------------------------- Fail-fast

  /** Same job, and either the same row or one that has ended without failing, been
      skipped or been queued since. */
  ghost predicate Calmer(j: Job, j': Job) {
    && SameIdentity(j, j')
    && (j' == j || (!j.status.Completed? && !j'.status.InProgress? && !(j'.status.Completed? && j'.conclusion.IsFailure())))
  }

  ghost predicate AllCalmer(jobs: seq<Job>, jobs': seq<Job>) {
    |jobs'| == |jobs| && forall k :: 0 <= k < |jobs| ==> Calmer(jobs[k], jobs'[k])
  }

  lemma AllCalmerTransitive(a: seq<Job>, b: seq<Job>, c: seq<Job>)
    requires AllCalmer(a, b) && AllCalmer(b, c)
    ensures AllCalmer(a, c)
  {
    forall k | 0 <= k < |a| ensures Calmer(a[k], c[k]) {
      assert Calmer(a[k], b[k]) && Calmer(b[k], c[k]);
    }
  }

  lemma {:induction false} LegsAgree(jobs: seq<Job>, jobs': seq<Job>, key: string)
    requires |jobs'| == |jobs|
    requires forall k :: 0 <= k < |jobs| ==> jobs'[k].key == jobs[k].key && (jobs[k].key == key ==> jobs'[k] == jobs[k])
    ensures LegsOf(jobs', key) == LegsOf(jobs, key)
    decreases |jobs|
  {
    if jobs != [] {
      LegsAgree(jobs[1..], jobs'[1..], key);
    }
  }

  lemma StopEnds(w: World, j: Job, now: int)
    ensures var f := StopJob(w, None, j, Because(ActorDependencyFailed), Cancelled, ClassNone, now, false);
      f.ok && Shrinks(w, f.w) && SameIdentity(j, f.job) && f.job.status.Completed? && f.job.conclusion == Cancelled
  {
    hide FinishAttempt;
    var res := Imposed(Cancelled, ClassNone, Because(ActorDependencyFailed));
    FinishShrinks(w, None, j, res, now, false);
    FinishConcludes(w, None, j, res, now);
  }

  lemma FinishConcludes(w: World, pj: Option<PlannedJob>, j: Job, res: Result, now: int)
    requires res.Valid()
    ensures FinishAttempt(w, pj, j, res, now, false).job == Concluded(WithOutputs(j, res), res, now)
  {
  }

  /** The legs of the key have ended and nothing else has changed. */
  ghost predicate LegsCancelled(jobs: seq<Job>, jobs': seq<Job>, key: string, from: nat) {
    && AllCalmer(jobs, jobs')
    && (forall k :: 0 <= k < |jobs| && (jobs[k].key != key || k < from) ==> jobs'[k] == jobs[k])
    && (forall k :: from <= k < |jobs| && jobs[k].key == key ==> jobs'[k].status.Completed?)
  }

  lemma {:induction false} CancelLegsSettles(w: World, jobs: seq<Job>, key: string, k: nat, now: int)
    ensures var s := CancelLegsFrom(w, jobs, key, k, now); Shrinks(w, s.w) && LegsCancelled(jobs, s.jobs, key, k)
    decreases |jobs| - k
  {
    hide StopJob;
    if k < |jobs| {
      if jobs[k].key != key || jobs[k].status.Completed? {
        CancelLegsSettles(w, jobs, key, k + 1, now);
      } else {
        StopEnds(w, jobs[k], now);
        var f := StopJob(w, None, jobs[k], Because(ActorDependencyFailed), Cancelled, ClassNone, now, false);
        CancelLegsSettles(f.w, jobs[k := f.job], key, k + 1, now);
        var s := CancelLegsFrom(f.w, jobs[k := f.job], key, k + 1, now);
        CancelledOne(jobs, jobs[k := f.job], s.jobs, key, k);
      }
    }
  }

  lemma CancelledOne(jobs: seq<Job>, mid: seq<Job>, jobs': seq<Job>, key: string, k: nat)
    requires k < |jobs| && |mid| == |jobs| && mid == jobs[k := mid[k]] && jobs[k].key == key
    requires Calmer(jobs[k], mid[k]) && mid[k].status.Completed? && LegsCancelled(mid, jobs', key, k + 1)
    ensures LegsCancelled(jobs, jobs', key, k)
  {
    assert AllCalmer(jobs, mid);
    AllCalmerTransitive(jobs, mid, jobs');
    assert jobs'[k] == mid[k];
  }

  lemma SettledLegsStay(p: Plan, jobs: seq<Job>, jobs': seq<Job>, key: string, other: string)
    requires LegsCancelled(jobs, jobs', key, 0) && (other == key || LegsSettled(p, jobs, other))
    ensures LegsSettled(p, jobs', other)
  {
    hide FailsFast;
    assert forall k :: 0 <= k < |jobs| ==> Calmer(jobs[k], jobs'[k]);
    if other != key {
      LegsAgree(jobs, jobs', other);
      FailsFastDependsOnLegs(p, jobs, jobs', other);
    }
  }

  lemma FailsFastDependsOnLegs(p: Plan, jobs: seq<Job>, jobs': seq<Job>, key: string)
    requires LegsOf(jobs', key) == LegsOf(jobs, key)
    ensures FailsFast(p, jobs', key) == FailsFast(p, jobs, key)
  {
  }

  lemma {:induction false} FailFastSettles(w: World, p: Plan, jobs: seq<Job>, keys: seq<string>, done: set<string>, now: int)
    requires forall key :: key in done ==> LegsSettled(p, jobs, key)
    ensures var s := FailFastFrom(w, p, jobs, keys, now);
      && Shrinks(w, s.w) && AllCalmer(jobs, s.jobs)
      && forall key :: key in done || key in keys ==> LegsSettled(p, s.jobs, key)
    decreases |keys|
  {
    hide CancelLegsFrom, FailsFast, LegsSettled, AllCalmer;
    AllCalmerReflexive(jobs);
    if keys != [] {
      var key := keys[0];
      assert keys == [key] + keys[1..];
      if FailsFast(p, jobs, key) {
        CancelLegsSettles(w, jobs, key, 0, now);
        var s := CancelLegsFrom(w, jobs, key, 0, now);
        forall other | other in done + {key} ensures LegsSettled(p, s.jobs, other) {
          SettledLegsStay(p, jobs, s.jobs, key, other);
        }
        FailFastSettles(s.w, p, s.jobs, keys[1..], done + {key}, now);
        AllCalmerTransitive(jobs, s.jobs, FailFastFrom(s.w, p, s.jobs, keys[1..], now).jobs);
      } else {
        NotFailingFastIsSettled(p, jobs, key);
        FailFastSettles(w, p, jobs, keys[1..], done + {key}, now);
      }
    }
  }

  lemma AllCalmerReflexive(jobs: seq<Job>)
    ensures AllCalmer(jobs, jobs)
  {
  }

  lemma NotFailingFastIsSettled(p: Plan, jobs: seq<Job>, key: string)
    requires !FailsFast(p, jobs, key)
    ensures LegsSettled(p, jobs, key)
  {
  }

  lemma {:induction false} CalmerLegs(jobs: seq<Job>, jobs': seq<Job>, key: string)
    requires AllCalmer(jobs, jobs')
    ensures AllCalmer(LegsOf(jobs, key), LegsOf(jobs', key))
    decreases |jobs|
  {
    if jobs != [] {
      assert Calmer(jobs[0], jobs'[0]);
      forall k | 0 <= k < |jobs[1..]| ensures Calmer(jobs[1..][k], jobs'[1..][k]) {
        assert Calmer(jobs[k + 1], jobs'[k + 1]);
      }
      CalmerLegs(jobs[1..], jobs'[1..], key);
    }
  }

  /** Skipping and queueing make no leg fail, so they unsettle nothing. */
  lemma CalmerKeepsSettled(p: Plan, jobs: seq<Job>, jobs': seq<Job>, key: string)
    requires AllCalmer(jobs, jobs') && LegsSettled(p, jobs, key)
    ensures LegsSettled(p, jobs', key)
  {
    if FailsFast(p, jobs', key) {
      CalmerLegs(jobs, jobs', key);
      var legs, legs' := LegsOf(jobs, key), LegsOf(jobs', key);
      assert Calmer(legs[0], legs'[0]);
      var l' :| l' in legs' && FailedLeg(l');
      var k :| 0 <= k < |legs'| && legs'[k] == l';
      assert Calmer(legs[k], legs'[k]);
      assert legs[k] in legs && FailedLeg(legs[k]);
      assert FailsFast(p, jobs, key);
      forall m | 0 <= m < |jobs'| && jobs'[m].key == key ensures jobs'[m].status.Completed? {
        assert Calmer(jobs[m], jobs'[m]);
      }
    }
  }

  lemma UnlistedKeysAreSettled(p: Plan, jobs: seq<Job>, key: string)
    requires key !in KeysOf(jobs)
    ensures LegsSettled(p, jobs, key)
  {
    assert forall l :: l in LegsOf(jobs, key) ==> l in jobs && l.key == key;
  }

  // ---------------------------------------------------------------- Admission

  lemma {:induction false} NeedsAgree(needs: seq<string>, jobs: seq<Job>, jobs': seq<Job>, st: NeedsState)
    requires forall n :: n in needs ==> LegsOf(jobs', n) == LegsOf(jobs, n)
    ensures NeedsFrom(needs, jobs', st) == NeedsFrom(needs, jobs, st)
    decreases |needs|
  {
    if needs != [] {
      assert needs[0] in needs && forall n :: n in needs[1..] ==> n in needs;
      NeedsAgree(needs[1..], jobs, jobs', AddNeed(st, needs[0], LegsOf(jobs, needs[0])));
    }
  }

  ghost predicate NeedsAsPlanned(p: Plan, jobs: seq<Job>) {
    forall k :: 0 <= k < |jobs| ==>
      var found := Find(p.jobs, jobs[k].key, jobs[k].matrixKey);
      found.Some? ==> found.value.needs == jobs[k].needs
  }

  /** A later job's fate is no concern of an earlier one's needs, nor its own. */
  lemma NeedsUnmoved(p: Plan, jobs: seq<Job>, m: nat, i: nat, j: Job, runCancelled: bool)
    requires m <= i < |jobs| && ListedInOrder(jobs) && NeedsAsPlanned(p, jobs) && SameIdentity(jobs[i], j)
    ensures var found := Find(p.jobs, jobs[m].key, jobs[m].matrixKey);
      found.Some? ==> ComputeNeeds(found.value, jobs[i := j], runCancelled) == ComputeNeeds(found.value, jobs, runCancelled)
  {
    hide NeedsFrom;
    var jobs' := jobs[i := j];
    var found := Find(p.jobs, jobs[m].key, jobs[m].matrixKey);
    if found.Some? {
      forall n | n in found.value.needs ensures LegsOf(jobs', n) == LegsOf(jobs, n) {
        assert n in jobs[m].needs;
        assert jobs[i].key != n;
        LegsAgree(jobs, jobs', n);
      }
      NeedsAgree(found.value.needs, jobs, jobs', NoNeeds);
    }
  }

  /** Slots only fill up and holders stay, so what is stuck stays stuck. */
  lemma StuckStays(opts: Options, run: Run, p: Plan, a: Admission, m: nat, i: nat, next: Admission)
    requires m < i < |a.jobs| && ListedInOrder(a.jobs) && NeedsAsPlanned(p, a.jobs)
    requires |next.jobs| == |a.jobs| && next.jobs == a.jobs[i := next.jobs[i]] && SameIdentity(a.jobs[i], next.jobs[i])
    requires Stuck(opts, run, p, a.w, a.jobs, a.inFlight, a.jobs[m])
    requires forall key :: Count(a.inFlight, key) <= Count(next.inFlight, key)
    requires GroupIsHeld(a.w, a.jobs[m]) ==> GroupIsHeld(next.w, a.jobs[m])
    ensures Stuck(opts, run, p, next.w, next.jobs, next.inFlight, next.jobs[m])
  {
    hide ComputeNeeds, ShouldRun, GroupIsHeld, ListedInOrder, NeedsAsPlanned;
    NeedsUnmoved(p, a.jobs, m, i, next.jobs[i], run.cancel.Some?);
  }

  lemma FailingStays(opts: Options, run: Run, p: Plan, jobs: seq<Job>, m: nat, i: nat, j: Job)
    requires m <= i < |jobs| && ListedInOrder(jobs) && NeedsAsPlanned(p, jobs) && SameIdentity(jobs[i], j)
    ensures Failing(opts, run, p, jobs[i := j], jobs[m]) == Failing(opts, run, p, jobs, jobs[m])
  {
    hide ComputeNeeds, ShouldRun, ListedInOrder, NeedsAsPlanned;
    NeedsUnmoved(p, jobs, m, i, j, run.cancel.Some?);
  }

  function Slot(j: Job, key: string): int {
    if InFlight(j) && j.key == key then 1 else 0
  }

  lemma {:induction false} CountingAfterOneChange(jobs: seq<Job>, i: nat, j: Job, key: string)
    requires i < |jobs|
    ensures Count(CountInFlight(jobs[i := j]), key) == Count(CountInFlight(jobs), key) - Slot(jobs[i], key) + Slot(j, key)
    decreases |jobs|
  {
    var last := |jobs| - 1;
    if i < last {
      assert jobs[i := j][..last] == jobs[..last][i := j];
      CountingAfterOneChange(jobs[..last], i, j, key);
    } else {
      assert jobs[i := j][..last] == jobs[..last];
    }
  }

  /** The slots counted are exactly those in use. */
  ghost predicate ExactSlots(a: Admission) {
    forall key :: Count(a.inFlight, key) == Count(CountInFlight(a.jobs), key)
  }

  predicate Cancelling(p: Plan, j: Job) {
    var found := Find(p.jobs, j.key, j.matrixKey);
    found.Some? && found.value.cancelInProgress
  }

  /** Groups taken in this pass are held; the others a pending job would cancel for are
      free; and no pending job runs. */
  ghost predicate GroupsTidy(p: Plan, a: Admission) {
    && (forall k :: 0 <= k < |a.jobs| && Pending(a.jobs[k]) && a.jobs[k].group in a.taken ==> GroupIsHeld(a.w, a.jobs[k]))
    && (forall k :: 0 <= k < |a.jobs| && Pending(a.jobs[k]) && a.jobs[k].group !in a.taken && Cancelling(p, a.jobs[k])
         ==> !GroupIsHeld(a.w, a.jobs[k]))
    && (forall k :: 0 <= k < |a.jobs| && Pending(a.jobs[k]) ==> !a.jobs[k].status.InProgress?)
    && "" !in a.taken
  }

  /** The world and the list after one job has been looked at. */
  ghost predicate OneMoved(i: nat, a: Admission, next: Admission) {
    && i < |a.jobs| && |next.jobs| == |a.jobs| && next.jobs == a.jobs[i := next.jobs[i]]
    && Calmer(a.jobs[i], next.jobs[i])
    && next.w.jobs == a.w.jobs[a.jobs[i].id := next.jobs[i]] && next.w.nextJob == a.w.nextJob
    && Shrinks(a.w, next.w)
    && next.inFlight == (if InFlight(next.jobs[i]) && !InFlight(a.jobs[i])
                         then a.inFlight[a.jobs[i].key := Count(a.inFlight, a.jobs[i].key) + 1] else a.inFlight)
    && (InFlight(a.jobs[i]) ==> InFlight(next.jobs[i]))
    && (Holds(a.jobs[i]) ==> next.jobs[i] == a.jobs[i])
  }

  /** What a look at the i-th job leaves: an error and nothing else, or a job that is
      decided or stuck. */
  ghost predicate Looked(opts: Options, run: Run, p: Plan, i: nat, a: Admission, next: Admission) {
    && OneMoved(i, a, next)
    && OnlyRun(a.w, next.w, run.id)
    && (Pending(a.jobs[i]) && Failing(opts, run, p, a.jobs, a.jobs[i]) ==> next == a.(ok := false))
    && (next.ok <==> !(Pending(a.jobs[i]) && Failing(opts, run, p, a.jobs, a.jobs[i])))
    && (next.ok && Pending(next.jobs[i]) ==> Stuck(opts, run, p, next.w, next.jobs, next.inFlight, next.jobs[i]))
    && (next.ok ==> GroupsTidy(p, next))
  }

  lemma HeldStays(i: nat, a: Admission, next: Admission, j: Job)
    requires OneMoved(i, a, next) && InStep(a.w, a.jobs[i]) && GroupIsHeld(a.w, j)
    ensures GroupIsHeld(next.w, j)
  {
    hide Shrinks;
    var h :| h in a.w.jobs && h != j.id && a.w.jobs[h].group == j.group && Holds(a.w.jobs[h]);
    assert h in next.w.jobs && next.w.jobs[h] == a.w.jobs[h];
  }

  /** What a move of a pending job may do to the groups. */
  ghost predicate TakesItsGroup(p: Plan, i: nat, a: Admission, next: Admission)
    requires i < |a.jobs| && |next.jobs| == |a.jobs|
  {
    var g := a.jobs[i].group;
    && next.taken == (if Holds(next.jobs[i]) && g != "" then a.taken + {g} else a.taken)
    && (Pending(next.jobs[i]) ==>
         !next.jobs[i].status.InProgress? && (g in a.taken || !Cancelling(p, a.jobs[i]) || !GroupIsHeld(a.w, a.jobs[i])))
  }

  lemma GroupsStayTidy(p: Plan, i: nat, a: Admission, next: Admission)
    requires GroupsTidy(p, a) && OneMoved(i, a, next) && TakesItsGroup(p, i, a, next)
    requires Pending(a.jobs[i]) && (forall k :: 0 <= k < |a.jobs| ==> InStep(a.w, a.jobs[k])) && DistinctIds(a.jobs)
    ensures GroupsTidy(p, next)
  {
    hide Shrinks, Find;
    var g, id := a.jobs[i].group, a.jobs[i].id;
    assert !Holds(a.jobs[i]);
    forall k | 0 <= k < |next.jobs| && Pending(next.jobs[k])
      ensures next.jobs[k].group in next.taken ==> GroupIsHeld(next.w, next.jobs[k])
      ensures next.jobs[k].group !in next.taken && Cancelling(p, next.jobs[k]) ==> !GroupIsHeld(next.w, next.jobs[k])
      ensures !next.jobs[k].status.InProgress?
    {
      assert Pending(a.jobs[k]) && next.jobs[k].id == a.jobs[k].id && next.jobs[k].group == a.jobs[k].group;
      PendingGroupStays(p, i, a, next, k);
    }
  }

  lemma PendingGroupStays(p: Plan, i: nat, a: Admission, next: Admission, k: nat)
    requires GroupsTidy(p, a) && OneMoved(i, a, next) && TakesItsGroup(p, i, a, next)
    requires Pending(a.jobs[i]) && (forall k :: 0 <= k < |a.jobs| ==> InStep(a.w, a.jobs[k])) && DistinctIds(a.jobs)
    requires k < |a.jobs| && Pending(next.jobs[k]) && Pending(a.jobs[k])
    ensures next.jobs[k].group in next.taken ==> GroupIsHeld(next.w, next.jobs[k])
    ensures next.jobs[k].group !in next.taken && Cancelling(p, next.jobs[k]) ==> !GroupIsHeld(next.w, next.jobs[k])
  {
    hide Shrinks, Find;
    var j := next.jobs[k];
    if j.group in next.taken {
      if j.group in a.taken {
        HeldStays(i, a, next, a.jobs[k]);
      } else {
        assert k != i && a.jobs[k].id != a.jobs[i].id;
        assert Holds(next.w.jobs[a.jobs[i].id]) && next.w.jobs[a.jobs[i].id].group == j.group;
      }
    }
  }

  /** A pass whose list mirrors the store. */
  ghost predicate ExactPass(a: Admission, run: Run, p: Plan) {
    && a.ok && Pass(a, run, p) && Exact(a.w, a.jobs, run.id)
    && ListedInOrder(a.jobs) && NeedsAsPlanned(p, a.jobs) && GroupsTidy(p, a)
  }

  lemma ExactFacts(a: Admission, run: Run, p: Plan, i: nat)
    requires ExactPass(a, run, p) && i < |a.jobs|
    ensures Inv(a.w) && Structure(a.w) && InStep(a.w, a.jobs[i]) && Own(a.w, a.jobs[i], run.id) && DistinctIds(a.jobs)
    ensures RowsAgree(a.jobs[i], a.w.queue)
    ensures forall k :: 0 <= k < |a.jobs| ==> InStep(a.w, a.jobs[k])
  {
    hide Inv, Structure, RetryBound, RowsAgree, Snapshot, SlotsCounted;
    InvHasStructure(a.w);
    SnapshotFacts(a.w, a.jobs, run.id);
    JobFacts(a.w, a.jobs[i].id);
  }

  lemma NothingMoves(i: nat, a: Admission, next: Admission)
    requires i < |a.jobs| && InStep(a.w, a.jobs[i]) && next == a.(ok := next.ok)
    ensures OneMoved(i, a, next)
  {
    assert a.jobs[i := a.jobs[i]] == a.jobs;
  }

  lemma LookedInVain(opts: Options, run: Run, p: Plan, i: nat, a: Admission, next: Admission)
    requires ExactPass(a, run, p) && i < |a.jobs| && next == a.(ok := next.ok)
    requires next.ok <==> !(Pending(a.jobs[i]) && Failing(opts, run, p, a.jobs, a.jobs[i]))
    requires next.ok && Pending(a.jobs[i]) ==> Stuck(opts, run, p, a.w, a.jobs, a.inFlight, a.jobs[i])
    ensures Looked(opts, run, p, i, a, next)
  {
    hide Stuck, OneMoved, Failing, OnlyRun, Pass, Exact, ListedInOrder, NeedsAsPlanned, InStep, Own;
    ExactFacts(a, run, p, i);
    OnlyRunReflexive(a.w, run.id);
    NothingMoves(i, a, next);
  }

  lemma LookedAndSkipped(opts: Options, run: Run, p: Plan, pj: PlannedJob, i: nat, a: Admission, now: int)
    requires ExactPass(a, run, p) && i < |a.jobs| && Pending(a.jobs[i]) && !Failing(opts, run, p, a.jobs, a.jobs[i])
    ensures var f := FinishAttempt(a.w, Some(pj), a.jobs[i], SkipResult, now, false);
      Looked(opts, run, p, i, a, a.(w := f.w, jobs := a.jobs[i := f.job]))
  {
    hide Stuck, Failing, FinishAttempt, Inv, Structure, Pass, Exact, OnlyRun, ListedInOrder, NeedsAsPlanned, GroupsTidy, Shrinks,
      RowsAgree;
    ExactFacts(a, run, p, i);
    var j := a.jobs[i];
    var f := FinishAttempt(a.w, Some(pj), j, SkipResult, now, false);
    FinishShrinks(a.w, Some(pj), j, SkipResult, now, false);
    FinishConcludes(a.w, Some(pj), j, SkipResult, now);
    FinishAttemptKeepsInv(a.w, Some(pj), j, SkipResult, now, false);
    FinishTouches(a.w, Some(pj), j, SkipResult, now, false, run.id);
    var next := a.(w := f.w, jobs := a.jobs[i := f.job]);
    PendingIsIdle(p, a, i);
    assert OneMoved(i, a, next);
    GroupsStayTidy(p, i, a, next);
  }

  lemma PendingIsIdle(p: Plan, a: Admission, i: nat)
    requires GroupsTidy(p, a) && i < |a.jobs| && Pending(a.jobs[i])
    ensures !a.jobs[i].status.InProgress? && !Holds(a.jobs[i])
  {
  }

  lemma QueueIsAnUpdate(w: World, j: Job, now: int)
    requires InStep(w, j) && j.id !in w.queue
    ensures var f := AdmitToQueue(w, j, now);
      Updates(w, f.w, f.job) && f.job == j.(status := Queued, queuedAt := Some(now)) && Shrinks(w, f.w)
  {
    var queued := j.(status := Queued, queuedAt := Some(now));
    assert AdmitToQueue(w, j, now).w.jobs == w.jobs[j.id := queued];
  }

  lemma LookedAndQueued(opts: Options, run: Run, p: Plan, i: nat, a: Admission, now: int)
    requires ExactPass(a, run, p) && i < |a.jobs| && Pending(a.jobs[i]) && !Failing(opts, run, p, a.jobs, a.jobs[i])
    requires a.jobs[i].group == "" || a.jobs[i].group !in a.taken
    ensures var f := AdmitToQueue(a.w, a.jobs[i], now); var j := a.jobs[i];
      var taken := if j.group == "" then a.taken else a.taken + {j.group};
      Looked(opts, run, p, i, a, Admission(f.w, a.jobs[i := f.job], a.inFlight[j.key := Count(a.inFlight, j.key) + 1], taken, true))
  {
    hide Stuck, Failing, AdmitToQueue, Inv, Structure, Pass, Exact, OnlyRun, ListedInOrder, NeedsAsPlanned, GroupsTidy, Shrinks;
    ExactFacts(a, run, p, i);
    var j := a.jobs[i];
    var f := AdmitToQueue(a.w, j, now);
    QueueIsAnUpdate(a.w, j, now);
    QueueTouches(a.w, j, now, run.id);
    var taken := if j.group == "" then a.taken else a.taken + {j.group};
    var next := Admission(f.w, a.jobs[i := f.job], a.inFlight[j.key := Count(a.inFlight, j.key) + 1], taken, true);
    PendingIsIdle(p, a, i);
    assert OneMoved(i, a, next);
    GroupsStayTidy(p, i, a, next);
  }

  lemma LookedAndHeld(opts: Options, run: Run, p: Plan, i: nat, a: Admission, now: int)
    requires ExactPass(a, run, p) && i < |a.jobs| && Pending(a.jobs[i]) && Wanted(opts, run, p, a.jobs, a.jobs[i])
    requires GroupIsHeld(a.w, a.jobs[i]) && (a.jobs[i].group in a.taken || !Cancelling(p, a.jobs[i]))
    ensures var f := HoldForGroup(a.w, a.jobs[i], now);
      Looked(opts, run, p, i, a, a.(w := f.w, jobs := a.jobs[i := f.job]))
  {
    hide Inv, Structure, Pass, Exact, OnlyRun, ListedInOrder, NeedsAsPlanned, GroupsTidy, Shrinks, ComputeNeeds, ShouldRun,
      GroupIsHeld, Find, RowsAgree;
    ExactFacts(a, run, p, i);
    var j := a.jobs[i];
    var f := HoldForGroup(a.w, j, now);
    HoldKeepsInv(a.w, j, now);
    HoldTouches(a.w, j, now, run.id);
    HoldShrinks(a.w, j, now);
    var next := a.(w := f.w, jobs := a.jobs[i := f.job]);
    PendingIsIdle(p, a, i);
    assert OneMoved(i, a, next);
    GroupsStayTidy(p, i, a, next);
    HeldStays(i, a, next, j);
    assert GroupIsHeld(next.w, f.job) by { HeldAlike(next.w, j, f.job); }
    NeedsUnmoved(p, a.jobs, i, i, f.job, run.cancel.Some?);
  }

  lemma HeldAlike(w: World, j: Job, k: Job)
    requires GroupIsHeld(w, j) && j.id == k.id && j.group == k.group
    ensures GroupIsHeld(w, k)
  {
  }

  lemma HoldShrinks(w: World, j: Job, now: int)
    ensures var f := HoldForGroup(w, j, now);
      Shrinks(w, f.w) && f.job == j.(status := Waiting)
  {
  }

  /** In an exact pass a job is decided, or waits for good reason, and displaces nobody. */
  lemma PlaceLooks(opts: Options, run: Run, p: Plan, pj: PlannedJob, i: nat, a: Admission, now: int)
    requires ExactPass(a, run, p) && i < |a.jobs| && Pending(a.jobs[i]) && Wanted(opts, run, p, a.jobs, a.jobs[i])
    requires Find(p.jobs, a.jobs[i].key, a.jobs[i].matrixKey) == Some(pj)
    ensures Looked(opts, run, p, i, a, Place(i, pj, a, now))
  {
    hide Inv, Structure, Pass, Exact, ListedInOrder, NeedsAsPlanned, Looked, ComputeNeeds, ShouldRun, AdmitToQueue, HoldForGroup,
      LiveBelow, HoldersOf, GroupIsHeld, InStep, Own, RowsAgree;
    var j := a.jobs[i];
    ExactFacts(a, run, p, i);
    HeldMeansHolders(a.w, j);
    if SlotsFull(pj, a.inFlight, j) {
      LookedInVain(opts, run, p, i, a, a);
    } else if j.group == "" || (j.group !in a.taken && !GroupIsHeld(a.w, j)) {
      assert AdmitToGroup(a.w, j, pj, a.taken, now).w == a.w;
      LookedAndQueued(opts, run, p, i, a, now);
    } else {
      assert GroupIsHeld(a.w, j);
      LookedAndHeld(opts, run, p, i, a, now);
      assert !AdmitToGroup(a.w, j, pj, a.taken, now).admitted;
    }
  }

  lemma AdmitOneLooks(opts: Options, run: Run, p: Plan, i: nat, a: Admission, now: int)
    requires ExactPass(a, run, p) && i < |a.jobs|
    ensures Looked(opts, run, p, i, a, AdmitOne(opts, run, p, i, a, now))
  {
    hide FinishAttempt, Place, ComputeNeeds, ShouldRun, Find, Looked, Pass, Exact, ListedInOrder, NeedsAsPlanned, GroupsTidy;
    var j := a.jobs[i];
    var next := AdmitOne(opts, run, p, i, a, now);
    var found := Find(p.jobs, j.key, j.matrixKey);
    if Pending(j) && found.Some? && Wanted(opts, run, p, a.jobs, j) {
      PlaceLooks(opts, run, p, found.value, i, a, now);
    } else if next == a.(ok := next.ok) && (next.ok <==> !(Pending(j) && Failing(opts, run, p, a.jobs, j)))
      && (next.ok && Pending(j) ==> Stuck(opts, run, p, a.w, a.jobs, a.inFlight, j)) {
      LookedInVain(opts, run, p, i, a, next);
    } else {
      LookedAndSkipped(opts, run, p, found.value, i, a, now);
    }
  }

  /** An exact pass stays exact, and what it left pending stays stuck. */
  lemma OneLook(opts: Options, run: Run, p: Plan, i: nat, a: Admission, next: Admission)
    requires ExactPass(a, run, p) && Looked(opts, run, p, i, a, next) && next.ok && Pass(next, run, p)
    requires ExactSlots(a)
    requires forall k :: 0 <= k < i && Pending(a.jobs[k]) ==> Stuck(opts, run, p, a.w, a.jobs, a.inFlight, a.jobs[k])
    ensures ExactPass(next, run, p) && ExactSlots(next) && AllCalmer(a.jobs, next.jobs)
    ensures forall k :: 0 <= k <= i && Pending(next.jobs[k]) ==>
      Stuck(opts, run, p, next.w, next.jobs, next.inFlight, next.jobs[k])
  {
    hide Stuck, CountInFlight, Shrinks, Inv, Structure, Pass, OnlyRun, GroupIsHeld, Failing, GroupsTidy, RowsAgree;
    ExactFacts(a, run, p, i);
    var j := next.jobs[i];
    SlotsAfterOneLook(i, a, next);
    forall k | 0 <= k < |next.jobs| ensures Calmer(a.jobs[k], next.jobs[k]) {
    }
    forall k | 0 <= k < i && Pending(next.jobs[k])
      ensures Stuck(opts, run, p, next.w, next.jobs, next.inFlight, next.jobs[k])
    {
      if GroupIsHeld(a.w, a.jobs[k]) {
        HeldStays(i, a, next, a.jobs[k]);
      }
      StuckStays(opts, run, p, a, k, i, next);
    }
    ExactAfterOneLook(a, run, i, next);
  }

  lemma SlotsAfterOneLook(i: nat, a: Admission, next: Admission)
    requires OneMoved(i, a, next) && ExactSlots(a)
    ensures ExactSlots(next) && forall key :: Count(a.inFlight, key) <= Count(next.inFlight, key)
  {
    hide CountInFlight, Shrinks;
    forall key ensures Count(next.inFlight, key) == Count(CountInFlight(next.jobs), key) && Count(a.inFlight, key) <= Count(next.inFlight, key) {
      CountingAfterOneChange(a.jobs, i, next.jobs[i], key);
    }
  }

  lemma ExactAfterOneLook(a: Admission, run: Run, i: nat, next: Admission)
    requires OneMoved(i, a, next) && Exact(a.w, a.jobs, run.id) && DistinctIds(a.jobs)
    ensures Exact(next.w, next.jobs, run.id)
  {
    hide Shrinks;
    RosterStays(a.w.jobs, next.w.jobs, a.w.nextJob, run.id);
    forall k | 0 <= k < |next.jobs| ensures InStep(next.w, next.jobs[k]) && next.jobs[k].id == a.jobs[k].id {
      assert InStep(a.w, a.jobs[k]);
      if k != i {
        assert a.jobs[k].id != a.jobs[i].id;
      }
    }
  }

  // ------------------------------------------------------------ The whole pass

  /** What a pass from the i-th job on leaves. */
  ghost predicate PassDone(opts: Options, run: Run, p: Plan, a: Admission, r: Admission) {
    && Exact(r.w, r.jobs, run.id) && OnlyRun(a.w, r.w, run.id) && Shrinks(a.w, r.w) && AllCalmer(a.jobs, r.jobs) && ExactSlots(r)
    && (var stop := FirstFailing(opts, run, p, r.jobs, 0);
        && (r.ok <==> stop == |r.jobs|)
        && forall k :: 0 <= k < stop && Pending(r.jobs[k]) ==> Stuck(opts, run, p, r.w, r.jobs, r.inFlight, r.jobs[k]))
  }

  lemma StuckIsNotFailing(opts: Options, run: Run, p: Plan, w: World, jobs: seq<Job>, inFlight: map<string, int>, j: Job)
    requires Stuck(opts, run, p, w, jobs, inFlight, j)
    ensures !Failing(opts, run, p, jobs, j)
  {
  }

  /** The pass stops at s: everything before is stuck or decided. */
  lemma StopsAt(opts: Options, run: Run, p: Plan, a: Admission, s: nat)
    requires s <= |a.jobs| && (s < |a.jobs| ==> Pending(a.jobs[s]) && Failing(opts, run, p, a.jobs, a.jobs[s]))
    requires forall k :: 0 <= k < s && Pending(a.jobs[k]) ==> Stuck(opts, run, p, a.w, a.jobs, a.inFlight, a.jobs[k])
    ensures FirstFailing(opts, run, p, a.jobs, 0) == s
  {
    hide Stuck, Failing;
    var n := FirstFailing(opts, run, p, a.jobs, 0);
    if n < s {
      StuckIsNotFailing(opts, run, p, a.w, a.jobs, a.inFlight, a.jobs[n]);
    }
  }

  lemma {:induction false} AdmissionSettles(opts: Options, run: Run, p: Plan, i: nat, a: Admission, now: int)
    requires ExactPass(a, run, p) && ExactSlots(a) && i <= |a.jobs|
    requires forall k :: 0 <= k < i && Pending(a.jobs[k]) ==> Stuck(opts, run, p, a.w, a.jobs, a.inFlight, a.jobs[k])
    ensures PassDone(opts, run, p, a, AdmitFrom(opts, run, p, i, a, now))
    decreases |a.jobs| - i
  {
    hide AdmitOne, Stuck, Failing, ExactSlots, Shrinks, OnlyRun, AllCalmer, Pass, Exact, GroupsTidy, ListedInOrder, NeedsAsPlanned;
    AllCalmerReflexive(a.jobs);
    OnlyRunReflexive(a.w, run.id);
    ShrinksReflexive(a.w);
    if i < |a.jobs| {
      var next := AdmitOne(opts, run, p, i, a, now);
      AdmitOneLooks(opts, run, p, i, a, now);
      if next.ok {
        AdmitOneKeepsThePass(opts, run, p, i, a, now);
        OneLook(opts, run, p, i, a, next);
        AdmissionSettles(opts, run, p, i + 1, next, now);
        PassGoesOn(opts, run, p, a, next, AdmitFrom(opts, run, p, i + 1, next, now));
      } else {
        StopsAt(opts, run, p, a, i);
        assert AdmitFrom(opts, run, p, i, a, now) == a.(ok := false);
        ExactSlotsOfTheSame(a, a.(ok := false));
      }
    } else {
      StopsAt(opts, run, p, a, i);
    }
  }

  lemma ExactSlotsOfTheSame(a: Admission, b: Admission)
    requires ExactSlots(a) && b == a.(ok := b.ok)
    ensures ExactSlots(b)
  {
  }

  lemma ShrinksReflexive(w: World)
    ensures Shrinks(w, w)
  {
  }

  lemma PassGoesOn(opts: Options, run: Run, p: Plan, a: Admission, next: Admission, r: Admission)
    requires PassDone(opts, run, p, next, r)
    requires OnlyRun(a.w, next.w, run.id) && Shrinks(a.w, next.w) && AllCalmer(a.jobs, next.jobs)
    ensures PassDone(opts, run, p, a, r)
  {
    hide Exact, OnlyRun, ExactSlots, Stuck, Failing, FirstFailing, Calmer;
    OnlyRunTransitive(a.w, next.w, r.w, run.id);
    AllCalmerTransitive(a.jobs, next.jobs, r.jobs);
  }
}
