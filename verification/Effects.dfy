/** What the entry points do to the rows, said of the rows: whom a cancellation, a new run of a
    group, an approval, a rerun, a claim and the loss of a runner reach, what becomes of those,
    and that everybody else is left as they were. */
module Effects {
  import opened Model
  import opened Entities
  import opened Steps
  import opened Invariants
  import opened Moves
  import opened Attempts
  import opened Sweeps
  import opened Admissions
  import opened EntryPoints
  import opened RunEntry
  import opened Reruns
  import opened Unchanged

  // ------------------------------------------------------------- Cancellation

  /** The row of a job that is stopped before it is done. */
  function Stopped(j: Job, conclusion: Conclusion, fault: FailureClass, reason: CancelReason, now: int): Job {
    j.(status := Completed, conclusion := conclusion, fault := fault, cancel := Some(reason), completedAt := Some(now),
       runnerID := "", leaseExpiresAt := None)
  }

  /** These jobs are stopped, off the queue, and their steps are timed no more; all other rows
      stay. */
  ghost predicate JobsStopped(w: World, w': World, ids: set<int>, conclusion: Conclusion, fault: FailureClass,
                              reason: CancelReason, now: int)
  {
    && w'.jobs.Keys == w.jobs.Keys && w'.nextJob == w.nextJob && w'.origin == w.origin && w'.queue == w.queue - ids
    && w'.stepTimeouts == w.stepTimeouts - ids
    && forall id :: id in w.jobs ==>
      w'.jobs[id] == if id in ids then Stopped(w.jobs[id], conclusion, fault, reason, now) else w.jobs[id]
  }

  lemma NothingStopped(w: World, conclusion: Conclusion, fault: FailureClass, reason: CancelReason, now: int)
    ensures JobsStopped(w, w, {}, conclusion, fault, reason, now)
  {
    assert w.queue - {} == w.queue && w.stepTimeouts - {} == w.stepTimeouts;
  }

  lemma StoppedInTwoParts(a: World, b: World, c: World, ids: set<int>, more: set<int>, conclusion: Conclusion,
                          fault: FailureClass, reason: CancelReason, now: int)
    requires JobsStopped(a, b, ids, conclusion, fault, reason, now) && JobsStopped(b, c, more, conclusion, fault, reason, now)
    requires ids !! more
    ensures JobsStopped(a, c, ids + more, conclusion, fault, reason, now)
  {
    hide Stopped;
    assert (a.queue - ids) - more == a.queue - (ids + more);
    assert (a.stepTimeouts - ids) - more == a.stepTimeouts - (ids + more);
  }

  lemma StopShape(w: World, j: Job, reason: CancelReason, conclusion: Conclusion, fault: FailureClass, now: int)
    requires Imposed(conclusion, fault, reason).Valid() && reason.Valid() && InStep(w, j)
    ensures var f := StopJob(w, None, j, reason, conclusion, fault, now, false);
      && f.ok && f.job == Stopped(j, conclusion, fault, reason, now) && f.job.id == j.id && f.job.status.Completed?
      && JobsStopped(w, f.w, {j.id}, conclusion, fault, reason, now)
      && f.w.runs == w.runs && f.w.plans == w.plans && f.w.jobs == w.jobs[j.id := f.job]
  {
  }

  /** The jobs of the list from i on that are not done. */
  function OpenFrom(jobs: seq<Job>, i: nat): (ids: set<int>) {
    set k | i <= k < |jobs| && !jobs[k].status.Completed? :: jobs[k].id
  }

  lemma OneOpenLess(jobs: seq<Job>, i: nat, j: Job)
    requires i < |jobs| && DistinctIds(jobs) && !jobs[i].status.Completed? && j.status.Completed? && j.id == jobs[i].id
    ensures OpenFrom(jobs, i) == {j.id} + OpenFrom(jobs[i := j], i + 1) && j.id !in OpenFrom(jobs[i := j], i + 1)
    ensures DistinctIds(jobs[i := j])
  {
    var rest := jobs[i := j];
    assert forall k :: i < k < |jobs| ==> rest[k] == jobs[k];
  }

  lemma {:induction false} StoppingTheTail(w: World, jobs: seq<Job>, i: nat, conclusion: Conclusion, fault: FailureClass,
                                           reason: CancelReason, now: int)
    requires Imposed(conclusion, fault, reason).Valid() && reason.Valid() && i <= |jobs| && DistinctIds(jobs)
    requires forall k :: i <= k < |jobs| ==> InStep(w, jobs[k])
    ensures var w' := StopFrom(w, jobs, i, reason, conclusion, fault, now).0;
      && JobsStopped(w, w', OpenFrom(jobs, i), conclusion, fault, reason, now)
      && w'.runs == w.runs && w'.plans == w.plans
    decreases |jobs| - i
  {
    hide StopJob, Stopped, JobsStopped, OpenFrom;
    if i == |jobs| {
      NoneOpen(jobs);
      NothingStopped(w, conclusion, fault, reason, now);
    } else if jobs[i].status.Completed? {
      NotOpen(jobs, i);
      StoppingTheTail(w, jobs, i + 1, conclusion, fault, reason, now);
    } else {
      StopShape(w, jobs[i], reason, conclusion, fault, now);
      var f := StopJob(w, None, jobs[i], reason, conclusion, fault, now, false);
      var rest := jobs[i := f.job];
      OneOpenLess(jobs, i, f.job);
      forall k | i + 1 <= k < |rest| ensures InStep(f.w, rest[k]) {
        assert jobs[k].id != jobs[i].id;
      }
      StoppingTheTail(f.w, rest, i + 1, conclusion, fault, reason, now);
      StoppedInTwoParts(w, f.w, StopFrom(f.w, rest, i + 1, reason, conclusion, fault, now).0, {f.job.id}, OpenFrom(rest, i + 1),
                        conclusion, fault, reason, now);
    }
  }

  lemma NoneOpen(jobs: seq<Job>)
    ensures OpenFrom(jobs, |jobs|) == {}
  {
  }

  lemma NotOpen(jobs: seq<Job>, i: nat)
    requires i < |jobs| && jobs[i].status.Completed?
    ensures OpenFrom(jobs, i) == OpenFrom(jobs, i + 1)
  {
  }

  /** The unfinished jobs of a run. */
  ghost function Unfinished(w: World, r: int): set<int> {
    set id | id in w.jobs && w.jobs[id].runID == r && !w.jobs[id].status.Completed?
  }

  lemma OpenAreUnfinished(w: World, jobs: seq<Job>, r: int)
    requires Structure(w) && Exact(w, jobs, r)
    ensures OpenFrom(jobs, 0) == Unfinished(w, r) && DistinctIds(jobs) && forall k :: 0 <= k < |jobs| ==> InStep(w, jobs[k])
  {
    hide Structure;
    SnapshotFacts(w, jobs, r);
    forall id | id in Unfinished(w, r) ensures id in OpenFrom(jobs, 0) {
      var k :| 0 <= k < |jobs| && jobs[k].id == id;
      assert InStep(w, jobs[k]);
    }
    forall id | id in OpenFrom(jobs, 0) ensures id in Unfinished(w, r) {
      var k :| 0 <= k < |jobs| && !jobs[k].status.Completed? && jobs[k].id == id;
      assert InStep(w, jobs[k]);
    }
  }

  /** The run is over, and says why. */
  ghost predicate RunClosed(w: World, w': World, r: int, reason: CancelReason, now: int)
    requires r in w.runs
  {
    && r in w'.runs
    && w'.runs == w.runs[r := w.runs[r].(status := Completed, conclusion := w'.runs[r].conclusion, cancel := Some(reason),
                                         completedAt := Some(now))]
    && w'.plans == w.plans - {r}
  }

  lemma ClosingShape(w: World, run: Run, jobs: seq<Job>, now: int)
    requires AllCompleted(jobs) && !run.status.Completed?
    ensures FinalizeIfComplete(w, run, jobs, now).run.status.Completed?
    ensures var w' := FinalizeIfComplete(w, run, jobs, now).w;
      && w'.runs == w.runs[run.id := run.(status := Completed, conclusion := Aggregate(Conclusions(jobs)), completedAt := Some(now))]
      && w'.plans == w.plans - {run.id} && w'.jobs == w.jobs && w'.queue == w.queue && w'.origin == w.origin
      && w'.nextJob == w.nextJob && w'.stepTimeouts == w.stepTimeouts
  {
  }

  /** Cancelling a run that is not over stops exactly its unfinished jobs, as cancelled and for
      the reason given, and closes it; no other run and no other job is touched. */
  lemma CancellingARunReachesItsJobs(w: World, r: int, reason: CancelReason, now: int)
    requires Inv(w) && reason.Valid() && r in w.runs
    ensures var c := CancelRun(w, r, reason, now);
      && c.ok
      && (w.runs[r].status.Completed? ==> c.w == w)
      && (!w.runs[r].status.Completed? ==>
           JobsStopped(w, c.w, Unfinished(w, r), Cancelled, ClassNone, reason, now) && RunClosed(w, c.w, r, reason, now))
  {
    hide Inv, Structure, Snapshot, StopFrom, JobsStopped, OpenFrom, Unfinished, JobsOf, FinalizeIfComplete;
    if !w.runs[r].status.Completed? {
      InvHasStructure(w);
      PlansOf(w);
      ListingIsExact(w, r);
      var jobs := JobsOf(w, r);
      OpenAreUnfinished(w, jobs, r);
      StoppingTheTail(w, jobs, 0, Cancelled, ClassNone, reason, now);
      StopFromKeepsInv(w, jobs, 0, reason, Cancelled, ClassNone, now, r);
      var s := StopFrom(w, jobs, 0, reason, Cancelled, ClassNone, now);
      var run := w.runs[r].(cancel := Some(reason));
      ClosingShape(s.0, run, s.1, now);
      StoppedThenClosed(w, s.0, FinalizeIfComplete(s.0, run, s.1, now).w, Unfinished(w, r), Cancelled, ClassNone, reason, now);
    }
  }

  lemma StoppedThenClosed(w: World, mid: World, w': World, ids: set<int>, conclusion: Conclusion, fault: FailureClass,
                          reason: CancelReason, now: int)
    requires JobsStopped(w, mid, ids, conclusion, fault, reason, now)
    requires w'.jobs == mid.jobs && w'.queue == mid.queue && w'.origin == mid.origin && w'.nextJob == mid.nextJob
    requires w'.stepTimeouts == mid.stepTimeouts
    ensures JobsStopped(w, w', ids, conclusion, fault, reason, now)
  {
    hide Stopped;
  }

  /** Cancelling one job that is not over stops that job and nothing else. */
  lemma CancellingAJobReachesIt(w: World, id: int, reason: CancelReason, now: int)
    requires Inv(w) && id in w.jobs && reason.Valid()
    ensures var c := CancelJob(w, id, reason, now);
      && c.ok
      && (if w.jobs[id].status.Completed? then c.w == w
          else JobsStopped(w, c.w, {id}, Cancelled, ClassNone, reason, now) && SameRuns(w, c.w))
  {
    hide Inv, StopJob, JobsStopped;
    JobFacts(w, id);
    if !w.jobs[id].status.Completed? {
      StopShape(w, w.jobs[id], reason, Cancelled, ClassNone, now);
      StopSameRuns(w, None, w.jobs[id], reason, Cancelled, ClassNone, now, false);
    }
  }

  // ------------------------------------------------------------- Supersession

  /** An unfinished run that is being driven and shares the workflow-level group. */
  predicate Rival(w: World, r: int, p: Plan, o: int) {
    o != r && o in w.plans && w.plans[o].runGroup == p.runGroup && o in w.runs && !w.runs[o].status.Completed?
  }

  ghost function UnfinishedOf(w: World, runs: set<int>): set<int> {
    set id | id in w.jobs && w.jobs[id].runID in runs && !w.jobs[id].status.Completed?
  }

  /** These runs are over with all their jobs; the others are as they were. */
  ghost predicate RunsCancelled(w: World, w': World, runs: set<int>, reason: CancelReason, now: int) {
    && w'.runs.Keys == w.runs.Keys && w'.plans == w.plans - runs
    && JobsStopped(w, w', UnfinishedOf(w, runs), Cancelled, ClassNone, reason, now)
    && forall o :: o in w.runs ==>
      if o in runs
      then w'.runs[o] == w.runs[o].(status := Completed, conclusion := w'.runs[o].conclusion, cancel := Some(reason), completedAt := Some(now))
      else w'.runs[o] == w.runs[o]
  }

  lemma OneMoreRun(w: World, mid: World, w': World, o: int, more: set<int>, reason: CancelReason, now: int)
    requires o in w.runs && o !in more
    requires JobsStopped(w, mid, Unfinished(w, o), Cancelled, ClassNone, reason, now) && RunClosed(w, mid, o, reason, now)
    requires RunsCancelled(mid, w', more, reason, now)
    ensures RunsCancelled(w, w', more + {o}, reason, now)
  {
    hide Stopped;
    assert UnfinishedOf(mid, more) == UnfinishedOf(w, more) by {
      forall id | id in w.jobs && w.jobs[id].runID in more ensures mid.jobs[id] == w.jobs[id] {
      }
      forall id | id in w.jobs ensures mid.jobs[id].runID == w.jobs[id].runID {
        StoppedKeepsRun(w.jobs[id], Cancelled, ClassNone, reason, now);
      }
    }
    StoppedInTwoParts(w, mid, w', Unfinished(w, o), UnfinishedOf(w, more), Cancelled, ClassNone, reason, now);
    assert UnfinishedOf(w, more + {o}) == Unfinished(w, o) + UnfinishedOf(w, more);
    assert (w.plans - {o}) - more == w.plans - (more + {o});
  }

  lemma StoppedKeepsRun(j: Job, conclusion: Conclusion, fault: FailureClass, reason: CancelReason, now: int)
    ensures Stopped(j, conclusion, fault, reason, now).runID == j.runID
  {
  }

  function RivalsAmong(w: World, r: int, p: Plan, others: seq<int>): set<int> {
    set o | o in others && Rival(w, r, p, o)
  }

  lemma NobodyCancelled(w: World, reason: CancelReason, now: int)
    ensures RunsCancelled(w, w, {}, reason, now)
  {
    assert UnfinishedOf(w, {}) == {};
    NothingStopped(w, Cancelled, ClassNone, reason, now);
    assert w.plans - {} == w.plans;
  }

  lemma {:induction false} SupersedingReachesRivals(w: World, run: Run, p: Plan, others: seq<int>, now: int)
    requires Inv(w) && run.id in w.runs && forall k, l :: 0 <= k < l < |others| ==> others[k] != others[l]
    ensures var s := SupersedeFrom(w, run, p, others, now);
      s.ok && RunsCancelled(w, s.w, RivalsAmong(w, run.id, p, others), Because(ActorSupersededByRun), now)
    decreases |others|
  {
    hide Inv, CancelRun, RunsCancelled, JobsStopped, RunClosed, Unfinished, Rival;
    var reason := Because(ActorSupersededByRun);
    if others == [] {
      NobodyCancelled(w, reason, now);
      assert RivalsAmong(w, run.id, p, others) == {};
    } else {
      var o, rest := others[0], others[1..];
      assert others == [o] + rest;
      InvHasStructure(w);
      PlansHaveRuns(w);
      RivalIs(w, run.id, p, o);
      if Rival(w, run.id, p, o) {
        CancelRunKeepsInv(w, o, reason, now);
        CancellingARunReachesItsJobs(w, o, reason, now);
        var c := CancelRun(w, o, reason, now);
        StillThere(w, c.w, o, run.id, reason, now);
        SupersedingReachesRivals(c.w, run, p, rest, now);
        SameRivals(w, c.w, run.id, p, o, rest, reason, now);
        OneMoreRun(w, c.w, SupersedeFrom(c.w, run, p, rest, now).w, o, RivalsAmong(w, run.id, p, rest), reason, now);
        assert RivalsAmong(w, run.id, p, others) == RivalsAmong(w, run.id, p, rest) + {o};
      } else {
        SupersedingReachesRivals(w, run, p, rest, now);
        assert RivalsAmong(w, run.id, p, others) == RivalsAmong(w, run.id, p, rest);
      }
    }
  }

  lemma PlansHaveRuns(w: World)
    requires Structure(w)
    ensures forall o :: o in w.plans ==> o in w.runs
  {
  }

  lemma RivalIs(w: World, r: int, p: Plan, o: int)
    ensures Rival(w, r, p, o) <==> o != r && o in w.plans && w.plans[o].runGroup == p.runGroup && o in w.runs && !w.runs[o].status.Completed?
  {
  }

  lemma StillThere(w: World, w': World, o: int, r: int, reason: CancelReason, now: int)
    requires o in w.runs && r in w.runs && RunClosed(w, w', o, reason, now)
    ensures r in w'.runs
  {
  }

  lemma SameRivals(w: World, w': World, r: int, p: Plan, o: int, rest: seq<int>, reason: CancelReason, now: int)
    requires o in w.runs && RunClosed(w, w', o, reason, now) && o !in rest
    ensures RivalsAmong(w', r, p, rest) == RivalsAmong(w, r, p, rest)
  {
    forall q | q in rest ensures Rival(w', r, p, q) <==> Rival(w, r, p, q) {
    }
  }

  // ----------------------------------------------------------------- Starting

  /** Whom a starting run cancels: nobody, unless its group cancels in progress. */
  ghost function SupersededBy(w: World, r: int, p: Plan): set<int> {
    if p.runGroup == "" || !p.runCancelInProgress then {} else set o | o in w.plans && Rival(w, r, p, o)
  }

  /** The first row of a leg. One that waits for approval is held. */
  predicate IsFirstRow(j: Job, id: int, r: int, pj: PlannedJob, held: bool) {
    && j.id == id && j.runID == r && j.key == pj.key && j.matrixKey == pj.matrixKey && j.needs == pj.needs && j.labels == pj.labels
    && j.group == pj.group && j.continueOnError == pj.continueOnError && j.timeoutMinutes == pj.timeoutMinutes
    && j.attempt == 1 && j.conclusion == NoConclusion && j.fault == ClassNone && j.cancel == None && j.runnerID == ""
    && j.outputs == map[] && j.infraRetryCount == 0 && j.awaitingApproval == held
    && j.status == (if held then Waiting else Queued)
    && j.queuedAt == j.startedAt == j.setupCompletedAt == j.completedAt == j.leaseExpiresAt == None
  }

  lemma {:induction false} CreatedRowsAreFirstRows(w: World, run: Run, jobs: seq<PlannedJob>, held: bool)
    requires forall id :: id in w.jobs ==> id < w.nextJob
    ensures var w' := CreateJobs(w, run, jobs, held);
      && w'.nextJob == w.nextJob + |jobs| && w'.queue == w.queue && w'.runs == w.runs && w'.plans == w.plans
      && (forall id :: id in w'.jobs <==> id in w.jobs || w.nextJob <= id < w.nextJob + |jobs|)
      && (forall id :: id in w.jobs ==> w'.jobs[id] == w.jobs[id])
      && (forall k :: 0 <= k < |jobs| ==> IsFirstRow(w'.jobs[w.nextJob + k], w.nextJob + k, run.id, jobs[k], held))
    decreases |jobs|
  {
    hide IsFirstRow;
    if jobs != [] {
      var j := NewJob(w.nextJob, run, jobs[0], held);
      NewJobIsAFirstRow(w.nextJob, run, jobs[0], held);
      var mid := Added(w, j);
      CreatedRowsAreFirstRows(mid, run, jobs[1..], held);
      var w' := CreateJobs(mid, run, jobs[1..], held);
      assert w'.jobs[w.nextJob] == j;
      forall k | 0 <= k < |jobs| ensures IsFirstRow(w'.jobs[w.nextJob + k], w.nextJob + k, run.id, jobs[k], held) {
        if k > 0 {
          assert jobs[1..][k - 1] == jobs[k] && mid.nextJob + (k - 1) == w.nextJob + k;
        }
      }
    }
  }

  lemma NewJobIsAFirstRow(id: int, run: Run, pj: PlannedJob, held: bool)
    ensures IsFirstRow(NewJob(id, run, pj, held), id, run.id, pj, held)
  {
  }

  lemma SupersedingExactly(w: World, run: Run, p: Plan, now: int)
    requires Inv(w) && run.id in w.runs
    ensures var s := SupersedeOlderRuns(w, run, p, now);
      s.ok && RunsCancelled(w, s.w, SupersededBy(w, run.id, p), Because(ActorSupersededByRun), now)
  {
    hide Inv, SupersedeFrom, RunsCancelled, Rival, TrackedBelow;
    NobodyCancelled(w, Because(ActorSupersededByRun), now);
    if p.runGroup != "" && p.runCancelInProgress {
      InvHasStructure(w);
      TrackedAreRuns(w);
      TrackedAreThePlans(w.plans, w.nextRun);
      SupersedingReachesRivals(w, run, p, TrackedRuns(w), now);
      forall o ensures o in RivalsAmong(w, run.id, p, TrackedRuns(w)) <==> o in SupersededBy(w, run.id, p) {
        RivalIs(w, run.id, p, o);
      }
      assert RivalsAmong(w, run.id, p, TrackedRuns(w)) == SupersededBy(w, run.id, p);
    }
  }

  /** Starting a run gives it one first row per leg, in the order of the plan, all of them held
      if it comes from a fork that still needs approval. Of the other runs it cancels exactly
      the unfinished ones of its workflow-level group, if that cancels in progress, with their
      jobs; nothing else changes. */
  lemma StartingARun(opts: Options, w: World, r: int, p: Plan)
    requires Inv(w) && r in w.runs && p.jobs != [] && w.runs[r].createdAt != 0
    ensures var s := StartRun(opts, w, w.runs[r], p); var w', run := s.w, w.runs[r];
      var gone := SupersededBy(w, r, p);
      && s.ok && r in w'.runs && w'.runs.Keys == w.runs.Keys
      && w'.runs[r] == run.(status := InProgress, startedAt := if run.startedAt.Some? then run.startedAt else Some(run.createdAt))
      && w'.plans == (w.plans - gone)[r := p]
      && (forall o :: o in w.runs && o != r ==>
           if o in gone
           then w'.runs[o].status.Completed? && w'.runs[o].cancel.Some? && w'.runs[o].cancel.value.actor == ActorSupersededByRun
           else w'.runs[o] == w.runs[o])
      && (forall id :: id in w'.jobs <==> id in w.jobs || w.nextJob <= id < w.nextJob + |p.jobs|)
      && (forall k :: 0 <= k < |p.jobs| ==>
           IsFirstRow(w'.jobs[w.nextJob + k], w.nextJob + k, r, p.jobs[k], run.forkPR && opts.requireForkApproval && !run.approved))
      && (forall id :: id in w.jobs ==>
           if w.jobs[id].runID in gone && !w.jobs[id].status.Completed?
           then w'.jobs[id] == Stopped(w.jobs[id], Cancelled, ClassNone, Because(ActorSupersededByRun), run.createdAt) && id !in w'.queue
           else w'.jobs[id] == w.jobs[id] && (id in w'.queue <==> id in w.queue))
  {
    hide Inv, SupersedeOlderRuns, CreateJobs, IsFirstRow, Stopped, SupersededBy;
    var run := w.runs[r];
    RunFacts(w, r);
    SupersedingExactly(w, run, p, run.createdAt);
    SupersedeOlderKeepsInv(w, run, p, run.createdAt);
    var s := SupersedeOlderRuns(w, run, p, run.createdAt);
    IdsAreBelow(w);
    NotItsOwnRival(w, r, p);
    CreatedRowsAreFirstRows(s.w, run, p.jobs, run.forkPR && opts.requireForkApproval && !run.approved);
  }

  lemma IdsAreBelow(w: World)
    requires Inv(w)
    ensures forall id :: id in w.jobs ==> id < w.nextJob
    ensures forall id :: id in w.queue ==> id in w.jobs
  {
  }

  lemma NotItsOwnRival(w: World, r: int, p: Plan)
    ensures r !in SupersededBy(w, r, p)
  {
  }

  // ----------------------------------------------------------------- Approval

  lemma {:induction false} ApprovingTheTail(w: World, jobs: seq<Job>, i: nat)
    requires i <= |jobs| && DistinctIds(jobs) && forall k :: i <= k < |jobs| ==> InStep(w, jobs[k])
    ensures var w' := ApproveFrom(w, jobs, i);
      && w'.jobs.Keys == w.jobs.Keys && w'.runs == w.runs && w'.queue.Keys <= w.queue.Keys
      && (forall k :: i <= k < |jobs| ==>
           && jobs[k].id in w'.jobs
           && w'.jobs[jobs[k].id] == if jobs[k].awaitingApproval then jobs[k].(awaitingApproval := false, status := Queued) else jobs[k])
      && (forall id :: id in w.jobs && (forall k :: i <= k < |jobs| ==> jobs[k].id != id) ==> w'.jobs[id] == w.jobs[id])
    decreases |jobs| - i
  {
    if i < |jobs| {
      if jobs[i].awaitingApproval {
        var mid := PutJob(w, jobs[i].(awaitingApproval := false, status := Queued));
        forall k | i + 1 <= k < |jobs| ensures InStep(mid, jobs[k]) {
          assert jobs[k].id != jobs[i].id;
        }
        ApprovingTheTail(mid, jobs, i + 1);
        assert forall k :: i + 1 <= k < |jobs| ==> jobs[k].id != jobs[i].id;
      } else {
        ApprovingTheTail(w, jobs, i + 1);
        assert forall k :: i + 1 <= k < |jobs| ==> jobs[k].id != jobs[i].id;
      }
    }
  }

  /** Approving a run lifts the hold of exactly its held jobs, which then queue like any other. */
  lemma ApprovingLiftsTheHold(w: World, r: int, actor: string, now: int)
    requires Inv(w) && r in w.runs && actor != ""
    ensures var s := Approve(w, r, actor, now); var w' := s.w;
      && s.ok && w'.runs == w.runs[r := w.runs[r].(approved := true)] && w'.jobs.Keys == w.jobs.Keys
      && forall id :: id in w.jobs ==>
        w'.jobs[id] == if w.jobs[id].runID == r && w.jobs[id].awaitingApproval
                       then w.jobs[id].(awaitingApproval := false, status := Queued) else w.jobs[id]
  {
    hide Inv, Structure, ApproveFrom, JobsBelow;
    InvHasStructure(w);
    RunFacts(w, r);
    ListingIsExact(w, r);
    var jobs := JobsOf(w, r);
    OpenAreUnfinished(w, jobs, r);
    SnapshotFacts(w, jobs, r);
    var put := PutRun(w, w.runs[r].(approved := true));
    assert JobsOf(put, r) == jobs;
    ApprovingTheTail(put, jobs, 0);
    forall id | id in w.jobs ensures (exists k :: 0 <= k < |jobs| && jobs[k].id == id) <==> w.jobs[id].runID == r {
      if k :| 0 <= k < |jobs| && jobs[k].id == id {
        assert InStep(w, jobs[k]);
      }
    }
  }

  // -------------------------------------------------------------------- Rerun

  /** The later job needs the earlier one. */
  ghost predicate Feeds(jobs: seq<PlannedJob>, n: string, key: string) {
    exists pj :: pj in jobs && pj.key == key && n in pj.needs
  }

  /** A chain from one of the keys on, each job of it needed by the next. */
  ghost predicate Chain(jobs: seq<PlannedJob>, from: set<string>, c: seq<string>, key: string) {
    && c != [] && c[0] in from && c[|c| - 1] == key
    && forall k :: 0 <= k < |c| - 1 ==> Feeds(jobs, c[k], c[k + 1])
  }

  ghost predicate Downstream(jobs: seq<PlannedJob>, from: set<string>, key: string) {
    exists c :: Chain(jobs, from, c, key)
  }

  lemma {:induction false} ChainStaysInside(jobs: seq<PlannedJob>, from: set<string>, c: seq<string>, key: string, all: set<string>)
    requires Chain(jobs, from, c, key) && from <= all && ClosedUnderDependents(jobs, all)
    ensures key in all
    decreases |c|
  {
    if |c| > 1 {
      var less := c[..|c| - 1];
      assert forall k :: 0 <= k < |less| ==> less[k] == c[k];
      assert Feeds(jobs, c[|c| - 2], c[|c| - 1]);
      ChainStaysInside(jobs, from, less, c[|c| - 2], all);
    }
  }

  /** expandDependents collects exactly what lies downstream. */
  lemma ExpandingGoesDownstream(jobs: seq<PlannedJob>, keys: set<string>)
    ensures forall k :: k in ExpandDependents(jobs, keys) <==> Downstream(jobs, keys, k)
  {
    hide ExpandDependents;
    ExpandDependentsIsTheLeastClosure(jobs, keys);
    var all := ExpandDependents(jobs, keys);
    forall k | Downstream(jobs, keys, k) ensures k in all {
      var c :| Chain(jobs, keys, c, k);
      ChainStaysInside(jobs, keys, c, k, all);
    }
    var down := set k | k in PlanKeys(jobs) + keys && Downstream(jobs, keys, k);
    forall k | k in keys ensures k in down {
      assert Chain(jobs, keys, [k], k);
    }
    assert ClosedUnderDependents(jobs, down) by {
      forall pj | pj in jobs && NeedsOneOf(pj, down) ensures pj.key in down {
        var n :| n in pj.needs && n in down;
        var c :| Chain(jobs, keys, c, n);
        assert Feeds(jobs, n, pj.key);
        assert Chain(jobs, keys, c + [pj.key], pj.key);
      }
    }
  }

  /** Whom a rerun was asked for. */
  predicate AskedFor(sel: Selection, j: Job) {
    sel == All || (sel == NotSuccessful && j.conclusion != Success) || (sel.Only? && j.id == sel.id)
  }

  ghost function KeysAskedFor(w: World, r: int, sel: Selection): set<string> {
    set id | id in w.jobs && w.jobs[id].runID == r && AskedFor(sel, w.jobs[id]) :: w.jobs[id].key
  }

  /** A job as it was created, but for its number of attempts. */
  function Afresh(j: Job): Job {
    j.(attempt := j.attempt + 1, status := Queued, conclusion := NoConclusion, fault := ClassNone, cancel := None,
       outputs := map[], runnerID := "", leaseExpiresAt := None, queuedAt := None, startedAt := None,
       setupCompletedAt := None, completedAt := None, infraRetryCount := 0)
  }

  lemma {:induction false} ResettingTheTail(w: World, p: Plan, jobs: seq<Job>, keys: set<string>, i: nat, now: int)
    requires i <= |jobs| && DistinctIds(jobs) && forall k :: i <= k < |jobs| ==> InStep(w, jobs[k])
    requires forall k :: i <= k < |jobs| ==> Find(p.jobs, jobs[k].key, jobs[k].matrixKey).Some?
    ensures var s := ResetFrom(w, p, jobs, keys, i, now); var w' := s.w;
      && s.ok && w'.jobs.Keys == w.jobs.Keys && w'.runs == w.runs && w'.plans == w.plans && w'.queue == w.queue
      && (forall k :: i <= k < |jobs| ==>
           jobs[k].id in w'.jobs && w'.jobs[jobs[k].id] == if jobs[k].key in keys then Afresh(jobs[k]) else jobs[k])
      && (forall id :: id in w.jobs && (forall k :: i <= k < |jobs| ==> jobs[k].id != id) ==> w'.jobs[id] == w.jobs[id])
    decreases |jobs| - i
  {
    hide Find, ResetFrom, Reset, Afresh;
    ResettingStep(w, p, jobs, keys, i, now);
    if i < |jobs| {
      assert forall k :: i + 1 <= k < |jobs| ==> jobs[k].id != jobs[i].id;
      if jobs[i].key in keys {
        ResetShape(w, jobs[i], now);
        ResettingTheTail(Reset(w, jobs[i], now), p, jobs, keys, i + 1, now);
      } else {
        ResettingTheTail(w, p, jobs, keys, i + 1, now);
      }
    }
  }

  lemma ResettingStep(w: World, p: Plan, jobs: seq<Job>, keys: set<string>, i: nat, now: int)
    requires i <= |jobs| && (i < |jobs| ==> Find(p.jobs, jobs[i].key, jobs[i].matrixKey).Some?)
    ensures ResetFrom(w, p, jobs, keys, i, now)
         == if i == |jobs| then Outcome(w, true)
            else ResetFrom(if jobs[i].key in keys then Reset(w, jobs[i], now) else w, p, jobs, keys, i + 1, now)
  {
    hide Find;
  }

  lemma ResetShape(w: World, j: Job, now: int)
    ensures var w' := Reset(w, j, now);
      w'.jobs == w.jobs[j.id := Afresh(j)] && w'.runs == w.runs && w'.plans == w.plans && w'.queue == w.queue
  {
  }

  lemma AllArePlanned(w: World, jobs: seq<Job>, r: int)
    requires Structure(w) && Exact(w, jobs, r) && r in w.plans
    ensures forall k :: 0 <= k < |jobs| ==> Find(w.plans[r].jobs, jobs[k].key, jobs[k].matrixKey).Some?
  {
    hide Find;
    SnapshotFacts(w, jobs, r);
    forall k | 0 <= k < |jobs| ensures Find(w.plans[r].jobs, jobs[k].key, jobs[k].matrixKey).Some? {
      assert InStep(w, jobs[k]);
      var pj :| PlannedAs(w, w.jobs[jobs[k].id], pj) && w.jobs[jobs[k].id].needs == pj.needs;
    }
  }

  lemma SelectedAreAskedFor(w: World, jobs: seq<Job>, r: int, sel: Selection)
    requires Structure(w) && Exact(w, jobs, r)
    ensures SelectedKeys(jobs, sel) == KeysAskedFor(w, r, sel)
  {
    hide Structure;
    SnapshotFacts(w, jobs, r);
    forall k | k in SelectedKeys(jobs, sel) ensures k in KeysAskedFor(w, r, sel) {
      var j :| j in jobs && Selected(sel, j) && j.key == k;
      var m :| 0 <= m < |jobs| && jobs[m] == j;
      assert InStep(w, jobs[m]);
    }
    forall k | k in KeysAskedFor(w, r, sel) ensures k in SelectedKeys(jobs, sel) {
      var id :| id in w.jobs && w.jobs[id].runID == r && AskedFor(sel, w.jobs[id]) && w.jobs[id].key == k;
      var m :| 0 <= m < |jobs| && jobs[m].id == id;
      assert InStep(w, jobs[m]) && jobs[m] in jobs;
    }
  }

  /** A rerun works whenever somebody asks for it, the run has its plan and some job is asked
      for. It starts afresh exactly the jobs asked for and what lies downstream of them, reopens
      the run for one more attempt, and changes nothing else. */
  lemma RerunningStartsAfreshWhatLiesDownstream(w: World, r: int, actor: string, sel: Selection, now: int)
    requires Inv(w)
    ensures var s := Rerun(w, r, actor, sel, now); var w' := s.w;
      && (s.ok <==> actor != "" && r in w.runs && r in w.plans && KeysAskedFor(w, r, sel) != {})
      && (!s.ok ==> w' == w)
      && (s.ok ==>
           && w'.runs == w.runs[r := w.runs[r].(attempt := w.runs[r].attempt + 1, status := InProgress, conclusion := NoConclusion,
                                                cancel := None, completedAt := None)]
           && w'.plans == w.plans && w'.queue == w.queue && w'.jobs.Keys == w.jobs.Keys
           && forall id :: id in w.jobs ==>
             w'.jobs[id] == if w.jobs[id].runID == r && Downstream(w.plans[r].jobs, KeysAskedFor(w, r, sel), w.jobs[id].key)
                            then Afresh(w.jobs[id]) else w.jobs[id])
  {
    hide Inv, Structure, ResetFrom, JobsBelow, ExpandDependents, SelectedKeys, KeysAskedFor, Downstream, Afresh, Snapshot;
    if actor != "" && r in w.runs && r in w.plans {
      InvHasStructure(w);
      RunFacts(w, r);
      ListingIsExact(w, r);
      var jobs := JobsOf(w, r);
      SelectedAreAskedFor(w, jobs, r, sel);
      AllArePlanned(w, jobs, r);
      OpenAreUnfinished(w, jobs, r);
      ListedExactly(w, jobs, r);
      var keys := RerunKeys(w, r, sel);
      ExpandingGoesDownstream(w.plans[r].jobs, KeysAskedFor(w, r, sel));
      ResettingTheTail(w, w.plans[r], jobs, keys, 0, now);
      var s := ResetFrom(w, w.plans[r], jobs, keys, 0, now);
      assert s.w.plans[r := w.plans[r]] == w.plans;
      ResetRows(w, s.w, jobs, keys, r);
    }
  }

  lemma ListedExactly(w: World, jobs: seq<Job>, r: int)
    requires Structure(w) && Exact(w, jobs, r)
    ensures forall id :: id in w.jobs ==> ((exists k :: 0 <= k < |jobs| && jobs[k].id == id) <==> w.jobs[id].runID == r)
  {
    hide Structure;
    SnapshotFacts(w, jobs, r);
    forall id | id in w.jobs ensures (exists k :: 0 <= k < |jobs| && jobs[k].id == id) <==> w.jobs[id].runID == r {
      if k :| 0 <= k < |jobs| && jobs[k].id == id {
        assert InStep(w, jobs[k]);
      }
    }
  }

  lemma ResetRows(w: World, w': World, jobs: seq<Job>, keys: set<string>, r: int)
    requires w'.jobs.Keys == w.jobs.Keys && forall k :: 0 <= k < |jobs| ==> InStep(w, jobs[k])
    requires forall k :: 0 <= k < |jobs| ==>
      jobs[k].id in w'.jobs && w'.jobs[jobs[k].id] == if jobs[k].key in keys then Afresh(jobs[k]) else jobs[k]
    requires forall id :: id in w.jobs && (forall k :: 0 <= k < |jobs| ==> jobs[k].id != id) ==> w'.jobs[id] == w.jobs[id]
    requires forall id :: id in w.jobs ==> ((exists k :: 0 <= k < |jobs| && jobs[k].id == id) <==> w.jobs[id].runID == r)
    ensures forall id :: id in w.jobs ==>
      w'.jobs[id] == if w.jobs[id].runID == r && w.jobs[id].key in keys then Afresh(w.jobs[id]) else w.jobs[id]
  {
    hide Afresh;
    forall id | id in w.jobs
      ensures w'.jobs[id] == if w.jobs[id].runID == r && w.jobs[id].key in keys then Afresh(w.jobs[id]) else w.jobs[id]
    {
      if w.jobs[id].runID == r {
        var k :| 0 <= k < |jobs| && jobs[k].id == id;
      }
    }
  }

  // ----------------------------------------------------------------- Dispatch

  /** A job is handed out only to a runner with all its labels, once its row is due and while
      nobody has it. The runner then has the job and its lease; every other row stays. */
  lemma HandedOutOnlyWhenDueAndFitting(opts: Options, w: World, runner: string, labels: seq<string>, id: int, now: int,
                                       built: bool, budgets: map<int, int>)
    requires Inv(w) && Acquire(opts, w, runner, labels, id, now, built, budgets).ok
    ensures var w' := Acquire(opts, w, runner, labels, id, now, built, budgets).w;
      && id in w.queue && !w.queue[id].leased && w.queue[id].notBefore <= now && id in w.jobs && id in w'.jobs && id in w'.queue
      && !w.jobs[id].status.Completed? && (forall l :: l in w.jobs[id].labels ==> l in labels)
      && w'.jobs == w.jobs[id := w.jobs[id].(status := InProgress, runnerID := runner, leaseExpiresAt := Some(now + opts.leaseTTL),
                                             startedAt := Some(now), setupCompletedAt := None)]
      && w'.queue == w.queue[id := w.queue[id].(leased := true, runnerID := runner, leaseExpiresAt := now + opts.leaseTTL)]
      && w'.runs == w.runs && w'.plans == w.plans
      && w'.stepTimeouts == (if budgets == map[] then w.stepTimeouts else w.stepTimeouts[id := budgets])
      && w.jobs[id].runID in w.runs
      && w'.events == w.events
         + (if w.runs[w.jobs[id].runID].forkPR then [Event(Restricted, w.jobs[id].runID, id, w.jobs[id].attempt, now, 0)] else [])
         + [Event(Dispatched, w.jobs[id].runID, id, w.jobs[id].attempt, now, 0)]
  {
    hide Inv, Dispatch, Dequeue, RetryBound;
    AcquireKeepsInv(opts, w, runner, labels, id, now, built, budgets);
    IdleRowFacts(w, id);
    JobFacts(w, id);
    var noted := if w.runs[w.jobs[id].runID].forkPR then Emit(w, JobEvent(Restricted, w.jobs[id], now)) else w;
    DispatchShape(opts, w, noted, runner, id, now, built, budgets);
    BudgetsAreRemembered(opts, w, runner, id, now, built, budgets);
    InvHasStructure(w);
    JobsHaveRuns(w, id);
  }

  lemma JobsHaveRuns(w: World, id: int)
    requires Inv(w) && id in w.jobs
    ensures w.jobs[id].runID in w.runs
  {
  }

  lemma BudgetsAreRemembered(opts: Options, w: World, runner: string, id: int, now: int, built: bool, budgets: map<int, int>)
    requires id in w.jobs && id in w.queue && w.jobs[id].id == id
    requires Dispatch(opts, Dequeue(w, runner, id, now, opts.leaseTTL), runner, id, now, built, budgets).ok
    ensures Dispatch(opts, Dequeue(w, runner, id, now, opts.leaseTTL), runner, id, now, built, budgets).w.stepTimeouts
         == if budgets == map[] then w.stepTimeouts else w.stepTimeouts[id := budgets]
  {
    hide ComputeNeeds, Find;
  }

  /** A claim on a job that is over, which no reachable state offers, hands nothing out: whatever
      the job was stopped for, or the control plane's own reason, the lease is dropped again. */
  lemma FinishedJobsAreNotHandedOut(opts: Options, w: World, runner: string, labels: seq<string>, id: int, now: int,
                                    built: bool, budgets: map<int, int>)
    requires id in w.queue && id in w.jobs && w.jobs[id].conclusion != NoConclusion
    requires w.jobs[id].id == id && (w.jobs[id].cancel.Some? ==> w.jobs[id].cancel.value.Valid())
    ensures var a := Acquire(opts, w, runner, labels, id, now, built, budgets);
      && !a.ok && a.w.events == w.events && a.w.runs == w.runs && a.w.plans == w.plans
      && (a.w == w || (a.w.queue == w.queue[id := w.queue[id].(leased := false, runnerID := "", leaseExpiresAt := 0)]
                       && a.w.jobs.Keys == w.jobs.Keys && forall other :: other in w.jobs && other != id ==> a.w.jobs[other] == w.jobs[other]))
  {
    hide LabelsSatisfied, Eligible, Steps.Dispatch;
    if runner != "" && Eligible(w, id, labels, now) {
      ClaimTakenBack(w, runner, id, now, opts.leaseTTL);
      assert Acquire(opts, w, runner, labels, id, now, built, budgets)
          == Outcome(ReleaseLease(Dequeue(w, runner, id, now, opts.leaseTTL), id), false);
    }
  }

  lemma ClaimTakenBack(w: World, runner: string, id: int, now: int, ttl: int)
    requires id in w.queue && id in w.jobs
    ensures var claimed := Dequeue(w, runner, id, now, ttl);
      && id in claimed.jobs && id in claimed.queue
      && claimed.jobs[id].conclusion == w.jobs[id].conclusion && claimed.jobs[id].cancel == w.jobs[id].cancel
      && var w' := ReleaseLease(claimed, id);
        && w'.queue == w.queue[id := w.queue[id].(leased := false, runnerID := "", leaseExpiresAt := 0)]
        && w'.jobs.Keys == w.jobs.Keys && (forall other :: other in w.jobs && other != id ==> w'.jobs[other] == w.jobs[other])
        && w'.events == w.events && w'.runs == w.runs && w'.plans == w.plans
  {
  }

  /** A heartbeat moves the end of its own lease, and only that of a lease the runner holds. */
  lemma HeartbeatsExtendTheirOwnLease(w: World, runner: string, id: int, now: int, ttl: int)
    ensures var h := Heartbeat(w, runner, id, now, ttl); var w' := h.w;
      && (h.ok <==> id in w.queue && id in w.jobs && w.queue[id].leased && w.queue[id].runnerID == runner)
      && (!h.ok ==> w' == w)
      && (h.ok ==> w' == w.(queue := w.queue[id := w.queue[id].(leaseExpiresAt := now + ttl)],
                            jobs := w.jobs[id := w.jobs[id].(leaseExpiresAt := Some(now + ttl))]))
  {
  }

  /** The end of setup is recorded once, at the word of whoever holds the attempt. */
  lemma SetupIsRecordedOnce(w: World, runner: string, id: int, attempt: int, at: int)
    requires Inv(w)
    ensures var s := SetupCompleted(w, runner, id, attempt, at); var w' := s.w;
      && (s.ok <==> runner != "" && id in w.jobs && w.jobs[id].runnerID == runner && (attempt == 0 || attempt == w.jobs[id].attempt))
      && (s.ok ==> w'.jobs == w.jobs[id := if w.jobs[id].setupCompletedAt.Some? then w.jobs[id]
                                           else w.jobs[id].(setupCompletedAt := Some(at))]
                   && w'.queue == w.queue)
      && (!s.ok || w.jobs[id].setupCompletedAt.Some? ==> w' == w)
  {
    hide Inv, RetryBound;
    if id in w.jobs {
      JobFacts(w, id);
      assert w.jobs[id := w.jobs[id]] == w.jobs;
    }
  }

  // ------------------------------------------------------------- Lost runners

  /** The next attempt of a job whose runner was lost; the loss costs none of its retries. */
  function OneMoreTime(j: Job, now: int): Job {
    j.(attempt := j.attempt + 1, status := Queued, conclusion := NoConclusion, fault := ClassNone, cancel := None,
       runnerID := "", leaseExpiresAt := None, startedAt := None, setupCompletedAt := None, completedAt := None,
       queuedAt := Some(now))
  }

  predicate RunsOut(w: World, id: int, now: int) {
    id in w.queue && w.queue[id].leased && w.queue[id].leaseExpiresAt <= now
  }

  lemma {:induction false} ReapingTheTail(w: World, ids: seq<int>, now: int)
    requires RowsFit(w) && LeasedIds(w, ids, now)
    ensures var w' := ReapAll(w, ids, now);
      && w'.jobs.Keys == w.jobs.Keys && w'.queue.Keys == w.queue.Keys && SameRuns(w, w')
      && forall id :: id in w.jobs ==>
        && w'.jobs[id] == (if id in ids then OneMoreTime(w.jobs[id], now) else w.jobs[id])
        && (id in w.queue ==> w'.queue[id] == if id in ids then w.queue[id].(leased := false, runnerID := "", leaseExpiresAt := 0)
                                              else w.queue[id])
    decreases |ids|
  {
    if ids != [] {
      var id, rest := ids[0], ids[1..];
      assert ids == [id] + rest;
      ReapedFits(w, id, now);
      forall k | 0 <= k < |rest| ensures rest[k] != id {
        assert ids[k + 1] != ids[0];
      }
      ReapOneShape(w, id, now);
      hide ReapOne, OneMoreTime, RowsFit;
      ReapingTheTail(ReapOne(w, id, now), rest, now);
    }
  }

  lemma ReapOneShape(w: World, id: int, now: int)
    requires id in w.jobs && id in w.queue && w.jobs[id].id == id
    ensures var w' := ReapOne(w, id, now);
      && w'.jobs == w.jobs[id := OneMoreTime(w.jobs[id], now)] && SameRuns(w, w')
      && w'.queue == w.queue[id := w.queue[id].(leased := false, runnerID := "", leaseExpiresAt := 0)]
  {
  }

  /** Exactly the jobs whose lease has run out start over, in the queue row they had; nobody
      else is touched. */
  lemma LostJobsStartOver(w: World, now: int)
    requires Inv(w)
    ensures var w' := ReapExpiredLeases(w, now);
      && w'.jobs.Keys == w.jobs.Keys && w'.queue.Keys == w.queue.Keys && w'.runs == w.runs && w'.plans == w.plans
      && forall id :: id in w.jobs ==>
        && w'.jobs[id] == (if RunsOut(w, id, now) then OneMoreTime(w.jobs[id], now) else w.jobs[id])
        && (id in w.queue ==> w'.queue[id] == if RunsOut(w, id, now) then w.queue[id].(leased := false, runnerID := "", leaseExpiresAt := 0)
                                              else w.queue[id])
  {
    hide Inv, ReapExpiredLeases, ReapAll, OneMoreTime, ExpiredBelow, LeasedIds, RowsFit;
    ReapKeepsInv(w, now);
    StructureHasIds(w);
    ExpiredAreTheLost(w, now);
    ReapingTheTail(w, ExpiredBelow(w, w.nextJob, now), now);
  }

  lemma StructureHasIds(w: World)
    requires Inv(w)
    ensures RowsFit(w)
  {
  }

  lemma ExpiredAreTheLost(w: World, now: int)
    requires RowsFit(w)
    ensures LeasedIds(w, ExpiredBelow(w, w.nextJob, now), now)
    ensures forall id :: id in w.jobs ==> (id in ExpiredBelow(w, w.nextJob, now) <==> RunsOut(w, id, now))
  {
    hide ExpiredBelow;
    ExpiredBelowIs(w, w.nextJob, now);
    var ids := ExpiredBelow(w, w.nextJob, now);
    forall k | 0 <= k < |ids| ensures ids[k] in w.queue && ids[k] in w.jobs && Expired(w.queue[ids[k]], now) {
      assert ids[k] in ids;
    }
  }
}
