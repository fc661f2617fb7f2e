/** Re-running: the set of jobs reset is the least one closed under dependents, and
    the invariant survives exactly when no queue row is left behind. */
module Reruns {
  import opened Model
  import opened Retry
  import opened Entities
  import opened Steps
  import opened Invariants
  import opened Moves
  import opened Attempts
  import opened Sweeps
  import opened Admissions
  import opened EntryPoints

  // --------------------------------------------------------------- The closure

  ghost predicate ClosedUnderDependents(jobs: seq<PlannedJob>, keys: set<string>) {
    forall pj :: pj in jobs && NeedsOneOf(pj, keys) ==> pj.key in keys
  }

  lemma {:induction false} PassAddsAllDependents(jobs: seq<PlannedJob>, keys: set<string>)
    requires ExpandPass(jobs, keys) == keys
    ensures ClosedUnderDependents(jobs, keys)
    decreases |jobs|
  {
    if jobs != [] {
      if NeedsOneOf(jobs[0], keys) {
        assert jobs[0].key in ExpandPass(jobs[1..], keys + {jobs[0].key});
        assert keys + {jobs[0].key} == keys;
      }
      PassAddsAllDependents(jobs[1..], keys);
    }
  }

  lemma {:induction false} PassStaysWithin(jobs: seq<PlannedJob>, keys: set<string>, bound: set<string>)
    requires keys <= bound && ClosedUnderDependents(jobs, bound)
    ensures ExpandPass(jobs, keys) <= bound
    decreases |jobs|
  {
    if jobs != [] {
      assert ClosedUnderDependents(jobs[1..], bound);
      if NeedsOneOf(jobs[0], keys) {
        assert NeedsOneOf(jobs[0], bound);
        PassStaysWithin(jobs[1..], keys + {jobs[0].key}, bound);
      } else {
        PassStaysWithin(jobs[1..], keys, bound);
      }
    }
  }

  /** expandDependents computes the least set that holds the chosen jobs and,
      with any job, its dependents. */
  lemma {:induction false} ExpandDependentsIsTheLeastClosure(jobs: seq<PlannedJob>, keys: set<string>)
    ensures keys <= ExpandDependents(jobs, keys)
    ensures ClosedUnderDependents(jobs, ExpandDependents(jobs, keys))
    ensures forall bound :: keys <= bound && ClosedUnderDependents(jobs, bound) ==> ExpandDependents(jobs, keys) <= bound
    decreases PlanKeys(jobs) - keys
  {
    var next := ExpandPass(jobs, keys);
    if next == keys {
      PassAddsAllDependents(jobs, keys);
    } else {
      var k :| k in next && k !in keys;
      assert k in PlanKeys(jobs) - keys && k !in PlanKeys(jobs) - next;
      ExpandDependentsIsTheLeastClosure(jobs, next);
      forall bound | keys <= bound && ClosedUnderDependents(jobs, bound)
        ensures ExpandDependents(jobs, keys) <= bound
      {
        PassStaysWithin(jobs, keys, bound);
      }
    }
  }

  // ------------------------------------------------------------- Resetting jobs

  /** The invariant, with nothing said of the verdict of run r. */
  ghost predicate InvBut(w: World, r: int) {
    && Structure(w) && NoJobLost(w) && GroupsExclusive(w) && SlotsRespected(w) && NoEarlyStart(w)
    && (forall k :: k in w.runs && k != r ==> VerdictHonest(w, k))
    && RetriesBounded(w) && RetriesTimed(w) && History(w)
  }

  /** Nothing in flight depends on the keys, and no job with one of them is queued. */
  ghost predicate Detached(w: World, r: int, keys: set<string>) {
    && (forall id :: id in w.jobs && w.jobs[id].runID == r && w.jobs[id].key in keys ==> id !in w.queue)
    && (forall id, n :: id in w.jobs && w.jobs[id].runID == r && InFlight(w.jobs[id]) && n in w.jobs[id].needs
         ==> n !in keys)
  }

  ghost function Reset(w: World, j: Job, now: int): World {
    Emit(ForgetStepTimeouts(PutJob(w, ResetJob(j)), j.id), JobEvent(RerunAsked, ResetJob(j), now))
  }

  lemma ResetKeepsNeeds(w: World, j: Job, r: int, keys: set<string>, now: int)
    requires NoEarlyStart(w) && InStep(w, j) && j.runID == r && j.key in keys && Detached(w, r, keys)
    ensures NoEarlyStart(Reset(w, j, now))
  {
    var w' := Reset(w, j, now);
    forall id, n | id in w'.jobs && InFlight(w'.jobs[id]) && n in w'.jobs[id].needs && Gated(w', w'.jobs[id])
      ensures NeedMet(w', w'.jobs[id].runID, n)
    {
      var pj :| PlannedAs(w', w'.jobs[id], pj) && Plain(pj);
      assert id != j.id && PlannedAs(w, w.jobs[id], pj);
      assert NeedMet(w, w.jobs[id].runID, n);
      assert !IsLeg(w, j.id, w.jobs[id].runID, n);
      forall l | IsLeg(w', l, w.jobs[id].runID, n) ensures IsLeg(w, l, w.jobs[id].runID, n) && w'.jobs[l] == w.jobs[l] {
      }
      var l :| IsLeg(w, l, w.jobs[id].runID, n) && Gating(w.jobs[l]) != Skipped;
      assert IsLeg(w', l, w.jobs[id].runID, n) && Gating(w'.jobs[l]) != Skipped;
    }
  }

  lemma ResetKeepsVerdicts(w: World, j: Job, r: int, now: int)
    requires InStep(w, j) && j.runID == r
    requires forall k :: k in w.runs && k != r ==> VerdictHonest(w, k)
    ensures forall k :: k in w.runs && k != r ==> VerdictHonest(Reset(w, j, now), k)
  {
    var w' := Reset(w, j, now);
    forall k | k in w.runs && k != r ensures VerdictHonest(w', k) {
      assert VerdictHonest(w, k);
      JobsBelowDependsOnTheRun(w.jobs, w'.jobs, w.nextJob, k);
    }
  }

  lemma ResetIsAMove(w: World, j: Job, now: int)
    requires RowsFit(w) && InStep(w, j) && RowsAgree(j, w.queue) && j.id !in w.queue
    ensures var w' := Reset(w, j, now);
      && Updates(w, w', ResetJob(j))
      && RowsAgree(ResetJob(j), w'.queue)
      && LogMove(w, w', ResetJob(j), Some(JobEvent(RerunAsked, ResetJob(j), now)))
  {
  }

  lemma ResetRetries(w: World, j: Job)
    requires Structure(w) && InStep(w, j)
    ensures RetryBound(w, ResetJob(j))
  {
    forall pj | PlannedAs(w, ResetJob(j), pj) ensures pj.retry.attempts >= 1 {
      assert PlannedAs(w, j, pj) && pj in w.origin[j.runID].jobs;
    }
  }

  lemma InvButFacts(w: World, r: int, id: int)
    requires InvBut(w, r) && id in w.jobs
    ensures RowsFit(w) && RowsAgree(w.jobs[id], w.queue)
  {
  }

  lemma ResetKeepsInv(w: World, j: Job, r: int, keys: set<string>, now: int)
    requires InvBut(w, r) && InStep(w, j) && j.runID == r && j.key in keys && Detached(w, r, keys)
    ensures InvBut(Reset(w, j, now), r)
  {
    hide Structure, NoJobLost, GroupsExclusive, SlotsRespected, NoEarlyStart, RetriesBounded, RetriesTimed, History, Detached,
      VerdictHonest, RowsAgree, RetryBound, DispatchStep, EndingStep, BackoffStep, RetryStep;
    var w' := Reset(w, j, now);
    var k := ResetJob(j);
    InvButFacts(w, r, j.id);
    NotQueued(w, j, r, keys);
    ResetIsAMove(w, j, now);
    StructureMoves(w, w', k);
    RowsMove(w, w', k);
    GroupsMove(w, w', k);
    SlotsMove(w, w', k);
    ResetKeepsNeeds(w, j, r, keys, now);
    ResetKeepsVerdicts(w, j, r, now);
    ResetRetries(w, j);
    RetriesMove(w, w', k);
    RetriesTimedMove(w, w', k, Some(JobEvent(RerunAsked, k, now)));
    HistoryMoves(w, w', k, Some(JobEvent(RerunAsked, k, now)));
  }

  lemma NotQueued(w: World, j: Job, r: int, keys: set<string>)
    requires Detached(w, r, keys) && InStep(w, j) && j.runID == r && j.key in keys
    ensures j.id !in w.queue
  {
  }

  lemma ResetKeepsDetached(w: World, j: Job, r: int, keys: set<string>, now: int)
    requires Detached(w, r, keys) && InStep(w, j)
    ensures Detached(Reset(w, j, now), r, keys)
  {
  }

  lemma {:induction false} ResetFromKeepsInv(w: World, p: Plan, jobs: seq<Job>, keys: set<string>, i: nat, now: int, r: int)
    requires InvBut(w, r) && Detached(w, r, keys) && DistinctIds(jobs) && r in w.origin && p == w.origin[r]
    requires forall k :: i <= k < |jobs| ==> InStep(w, jobs[k]) && jobs[k].runID == r
    ensures var s := ResetFrom(w, p, jobs, keys, i, now);
      s.ok && InvBut(s.w, r) && s.w.runs == w.runs && s.w.origin == w.origin && s.w.plans == w.plans
    decreases |jobs| - i
  {
    hide InvBut, Detached, Find;
    if i < |jobs| {
      if jobs[i].key !in keys {
        ResetFromKeepsInv(w, p, jobs, keys, i + 1, now, r);
      } else {
        ResetKeepsInv(w, jobs[i], r, keys, now);
        ResetKeepsDetached(w, jobs[i], r, keys, now);
        FoundInThePlan(w, jobs[i], r);
        var w' := Reset(w, jobs[i], now);
        forall k | i + 1 <= k < |jobs| ensures InStep(w', jobs[k]) {
          assert jobs[i].id != jobs[k].id;
        }
        ResetFromKeepsInv(w', p, jobs, keys, i + 1, now, r);
      }
    }
  }

  lemma FoundInThePlan(w: World, j: Job, r: int)
    requires InvBut(w, r) && InStep(w, j) && j.runID == r && r in w.origin
    ensures Find(w.origin[r].jobs, j.key, j.matrixKey).Some?
  {
    hide NoJobLost, GroupsExclusive, SlotsRespected, NoEarlyStart, RetriesBounded, RetriesTimed, History;
    var pj :| PlannedAs(w, w.jobs[j.id], pj) && w.jobs[j.id].needs == pj.needs;
  }

  /** With the guard, what is reset is cut off from everything in flight. */
  lemma GuardMeansDetached(w: World, r: int, sel: Selection)
    requires Structure(w) && NoJobLost(w) && r in w.plans && RerunGuard(w, r, sel)
    ensures Detached(w, r, RerunKeys(w, r, sel))
  {
    hide JobsBelow, ExpandDependents;
    var keys := RerunKeys(w, r, sel);
    ExpandDependentsIsTheLeastClosure(w.plans[r].jobs, SelectedKeys(JobsOf(w, r), sel));
    forall id, n | id in w.jobs && w.jobs[id].runID == r && InFlight(w.jobs[id]) && n in w.jobs[id].needs
      ensures n !in keys
    {
      var pj :| PlannedAs(w, w.jobs[id], pj) && w.jobs[id].needs == pj.needs;
      assert pj in w.plans[r].jobs && pj.key == w.jobs[id].key;
      assert RowsAgree(w.jobs[id], w.queue) && w.jobs[id].id == id;
      assert id in w.queue;
      assert n in keys ==> NeedsOneOf(pj, keys);
    }
  }

  lemma InvIsInvBut(w: World, r: int)
    requires Inv(w)
    ensures InvBut(w, r)
  {
    hide Structure, NoJobLost, GroupsExclusive, SlotsRespected, NoEarlyStart, RetriesBounded, RetriesTimed, History;
  }

  /** A run that goes on again has no verdict to be wrong about. */
  lemma ReopenedKeepsInv(w: World, w': World, again: Run)
    requires InvBut(w, again.id) && again.id in w.runs && !again.status.Completed? && again.cancel.None?
    requires w' == PutRun(w, again)
    ensures Inv(w')
  {
    hide NoJobLost, GroupsExclusive, SlotsRespected, NoEarlyStart, RetriesBounded, RetriesTimed, History;
    StructureDependsOnRunIds(w, w');
    RunsDoNotMatterToRows(w, w');
    RetriesTimedStays(w, w');
    HistoryDependsOnRows(w, w');
    forall k | k in w'.runs ensures VerdictHonest(w', k) {
      if k != again.id {
        assert VerdictHonest(w, k);
      }
    }
  }

  lemma RerunKeepsInv(w: World, r: int, actor: string, sel: Selection, now: int)
    requires Inv(w) && RerunGuard(w, r, sel)
    ensures Inv(Rerun(w, r, actor, sel, now).w)
  {
    hide Inv, InvBut, Detached, ResetFrom, RerunKeys, SelectedKeys, Snapshot, Structure, NoJobLost, RerunGuard, VerdictHonest;
    if actor != "" && r in w.runs && r in w.plans && SelectedKeys(JobsOf(w, r), sel) != {} {
      var run, p, jobs, keys := w.runs[r], w.plans[r], JobsOf(w, r), RerunKeys(w, r, sel);
      InvParts(w);
      PlansOf(w);
      RunFacts(w, r);
      InvIsInvBut(w, r);
      GuardMeansDetached(w, r, sel);
      ListingIsExact(w, r);
      SnapshotFacts(w, jobs, r);
      ExactAreInStep(w, jobs, r);
      ResetFromKeepsInv(w, p, jobs, keys, 0, now, r);
      var s := ResetFrom(w, p, jobs, keys, 0, now);
      var again := run.(attempt := run.attempt + 1, status := InProgress, conclusion := NoConclusion, cancel := None,
                        completedAt := None);
      var put := PutRun(s.w, again);
      ReopenedKeepsInv(s.w, put, again);
      assert put.plans[r := p] == put.plans;
      NeutralEventKeepsInv(put, Event(RerunAsked, r, 0, 0, now, 0));
    }
  }

  lemma ExactAreInStep(w: World, jobs: seq<Job>, r: int)
    requires Exact(w, jobs, r)
    ensures forall k :: 0 <= k < |jobs| ==> InStep(w, jobs[k])
  {
  }

  // ---------------------------------------------------- The guard is necessary

  lemma {:induction false} ResetFromResets(w: World, p: Plan, jobs: seq<Job>, keys: set<string>, i: nat, now: int, m: nat)
    requires DistinctIds(jobs) && i <= m < |jobs| && jobs[m].key in keys
    requires ResetFrom(w, p, jobs, keys, i, now).ok
    ensures var w' := ResetFrom(w, p, jobs, keys, i, now).w;
      jobs[m].id in w'.jobs && w'.jobs[jobs[m].id] == ResetJob(jobs[m]) && w'.queue == w.queue
    decreases |jobs| - i
  {
    if i < m {
      ResetFromResets(if jobs[i].key in keys then Reset(w, jobs[i], now) else w, p, jobs, keys, i + 1, now, m);
    } else {
      ResetFromFrame(Reset(w, jobs[i], now), p, jobs, keys, i + 1, now, jobs[m].id);
    }
  }

  lemma {:induction false} ResetFromFrame(w: World, p: Plan, jobs: seq<Job>, keys: set<string>, i: nat, now: int, id: int)
    requires id in w.jobs && forall k :: i <= k < |jobs| ==> jobs[k].id != id
    ensures var w' := ResetFrom(w, p, jobs, keys, i, now).w;
      id in w'.jobs && w'.jobs[id] == w.jobs[id] && w'.queue == w.queue
    decreases |jobs| - i
  {
    if i < |jobs| && (jobs[i].key !in keys || Find(p.jobs, jobs[i].key, jobs[i].matrixKey).Some?) {
      ResetFromFrame(if jobs[i].key in keys then Reset(w, jobs[i], now) else w, p, jobs, keys, i + 1, now, id);
    }
  }

  /** Re-running is safe exactly when no job it resets still has a queue row: such a
      row would survive the reset, and outlive the attempt it was made for. */
  lemma RerunIsSafeExactlyWhenNothingResetIsQueued(w: World, r: int, actor: string, sel: Selection, now: int)
    requires Inv(w) && Rerun(w, r, actor, sel, now).ok
    ensures Inv(Rerun(w, r, actor, sel, now).w) <==> RerunGuard(w, r, sel)
  {
    hide Inv, ResetFrom, RerunKeys, SelectedKeys, Snapshot, Structure, NoJobLost;
    if RerunGuard(w, r, sel) {
      RerunKeepsInv(w, r, actor, sel, now);
    } else {
      var p, jobs, keys := w.plans[r], JobsOf(w, r), RerunKeys(w, r, sel);
      var id :| id in w.jobs && w.jobs[id].runID == r && w.jobs[id].key in keys && id in w.queue;
      InvParts(w);
      ListingIsExact(w, r);
      SnapshotFacts(w, jobs, r);
      ExactAreInStep(w, jobs, r);
      var m :| 0 <= m < |jobs| && jobs[m].id == id;
      assert jobs[m] == w.jobs[id];
      ResetFromResets(w, p, jobs, keys, 0, now, m);
      var after := Rerun(w, r, actor, sel, now).w;
      assert id in after.jobs && after.jobs[id] == ResetJob(jobs[m]) && id in after.queue;
      if Inv(after) {
        JobFacts(after, id);
        assert false;
      }
    }
  }
}
