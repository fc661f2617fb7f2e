/** Starting, approving and re-running a run keep the invariant; the last two do exactly when
    their guard holds. Starting supersedes older runs first and then lists the new jobs one
    by one: a run half listed has no plan registered, so nothing looks at it yet. */
module RunEntry {
  import opened Model
  import opened Retry
  import opened Entities
  import opened Steps
  import opened Invariants
  import opened Moves
  import opened Attempts
  import opened Sweeps
  import opened Admissions
  import opened EntryPoints

  // ------------------------------------------------------------- Superseding

  ghost predicate SameFrame(w: World, w': World) {
    w'.origin == w.origin && w'.nextJob == w.nextJob && w'.nextRun == w.nextRun
  }

  lemma ConcludeFrame(w: World, j: Job, res: Result, now: int)
    ensures SameFrame(w, Conclude(w, j, res, now).w)
  {
  }

  lemma StopFrame(w: World, j: Job, reason: CancelReason, conclusion: Conclusion, fault: FailureClass, now: int)
    ensures SameFrame(w, StopJob(w, None, j, reason, conclusion, fault, now, false).w)
  {
    hide Conclude;
    var res := Imposed(conclusion, fault, reason);
    ConcludeFrame(Noted(w, j, res, now), WithOutputs(j, res), res, now);
  }

  lemma {:induction false} StopFromFrame(w: World, jobs: seq<Job>, i: nat, reason: CancelReason,
                                         conclusion: Conclusion, fault: FailureClass, now: int)
    ensures SameFrame(w, StopFrom(w, jobs, i, reason, conclusion, fault, now).0)
    decreases |jobs| - i
  {
    hide StopJob;
    if i < |jobs| {
      if jobs[i].status.Completed? {
        StopFromFrame(w, jobs, i + 1, reason, conclusion, fault, now);
      } else {
        StopFrame(w, jobs[i], reason, conclusion, fault, now);
        var f := StopJob(w, None, jobs[i], reason, conclusion, fault, now, false);
        StopFromFrame(f.w, jobs[i := f.job], i + 1, reason, conclusion, fault, now);
      }
    }
  }

  lemma CancelRunFrame(w: World, r: int, reason: CancelReason, now: int)
    requires Inv(w)
    ensures var c := CancelRun(w, r, reason, now);
      SameFrame(w, c.w) && forall k :: k in w.runs && k != r ==> k in c.w.runs && c.w.runs[k] == w.runs[k]
  {
    hide Inv, StopFrom, Snapshot, JobsBelow;
    if reason.Valid() && r in w.runs && !w.runs[r].status.Completed? {
      var jobs := JobsOf(w, r);
      StopFromFrame(w, jobs, 0, reason, Cancelled, ClassNone, now);
      InvHasStructure(w);
      ListingIsExact(w, r);
      StopFromKeepsInv(w, jobs, 0, reason, Cancelled, ClassNone, now, r);
      RunFacts(w, r);
    }
  }

  lemma {:induction false} SupersedeKeepsInv(w: World, run: Run, p: Plan, others: seq<int>, now: int)
    requires Inv(w) && run.id in w.runs
    ensures var s := SupersedeFrom(w, run, p, others, now);
      Inv(s.w) && SameFrame(w, s.w) && run.id in s.w.runs && s.w.runs[run.id] == w.runs[run.id]
    decreases |others|
  {
    hide Inv, CancelRun, SameFrame;
    if others == [] {
      SameFrameReflexive(w);
    } else {
      var other := others[0];
      if other == run.id || other !in w.plans || w.plans[other].runGroup != p.runGroup {
        SupersedeKeepsInv(w, run, p, others[1..], now);
      } else if other !in w.runs {
        SameFrameReflexive(w);
      } else if w.runs[other].status.Completed? {
        SupersedeKeepsInv(w, run, p, others[1..], now);
      } else {
        CancelRunKeepsInv(w, other, Because(ActorSupersededByRun), now);
        CancelRunFrame(w, other, Because(ActorSupersededByRun), now);
        var c := CancelRun(w, other, Because(ActorSupersededByRun), now);
        if c.ok {
          SupersedeKeepsInv(c.w, run, p, others[1..], now);
          SameFrameTransitive(w, c.w, SupersedeFrom(c.w, run, p, others[1..], now).w);
        }
      }
    }
  }

  lemma SameFrameReflexive(w: World)
    ensures SameFrame(w, w)
  {
  }

  lemma SameFrameTransitive(a: World, b: World, c: World)
    requires SameFrame(a, b) && SameFrame(b, c)
    ensures SameFrame(a, c)
  {
  }

  // ---------------------------------------------------------------- Starting

  /** A run may be given its plan once, before it has jobs. */
  lemma OpenRunKeepsInv(w: World, r: int, p: Plan)
    requires Inv(w) && r in w.runs && r !in w.origin && WellFormedPlan(p)
    ensures Inv(w.(origin := w.origin[r := p], plans := w.plans[r := p]))
  {
    hide WellFormedPlan, VerdictHonest, Structure, SlotsRespected, NoEarlyStart, RetriesBounded, RetriesTimed, History;
    var w' := Opened(w, r, p);
    StructureHasRows(w);
    RetriesTimedStays(w, w');
    OpenRunKeepsStructure(w, r, p);
    OpenRunKeepsSlots(w, r, p);
    OpenRunKeepsNeeds(w, r, p);
    HistoryDependsOnRows(w, w');
    forall k | k in w'.runs ensures VerdictHonest(w', k) {
      VerdictDependsOnRows(w, w', k);
    }
  }

  lemma StructureHasRows(w: World)
    requires Structure(w)
    ensures RowsFit(w)
  {
  }

  lemma VerdictDependsOnRows(w: World, w': World, r: int)
    requires r in w.runs && VerdictHonest(w, r)
    requires w'.runs == w.runs && w'.jobs == w.jobs && w'.nextJob == w.nextJob
    ensures VerdictHonest(w', r)
  {
  }

  ghost function Opened(w: World, r: int, p: Plan): World {
    w.(origin := w.origin[r := p], plans := w.plans[r := p])
  }

  lemma OpenRunKeepsStructure(w: World, r: int, p: Plan)
    requires Structure(w) && RetriesBounded(w) && r in w.runs && r !in w.origin && WellFormedPlan(p)
    ensures Structure(Opened(w, r, p)) && RetriesBounded(Opened(w, r, p))
  {
    hide WellFormedPlan;
    var w' := Opened(w, r, p);
    forall id | id in w'.jobs
      ensures exists pj :: PlannedAs(w', w'.jobs[id], pj) && w'.jobs[id].needs == pj.needs
    {
      var pj :| PlannedAs(w, w.jobs[id], pj) && w.jobs[id].needs == pj.needs;
      assert PlannedAs(w', w'.jobs[id], pj);
    }
    forall id | id in w'.jobs ensures RetryBound(w', w'.jobs[id]) {
      assert RetryBound(w, w.jobs[id]);
    }
  }

  lemma OpenRunKeepsSlots(w: World, r: int, p: Plan)
    requires Structure(w) && SlotsRespected(w) && r !in w.origin
    ensures SlotsRespected(Opened(w, r, p))
  {
    hide WellFormedPlan;
    var w' := Opened(w, r, p);
    forall k, pj | k in w'.origin && pj in w'.origin[k].jobs && pj.maxParallel > 0
      ensures |FlightOf(w', k, pj.key)| <= pj.maxParallel
    {
      assert FlightOf(w', k, pj.key) == FlightOf(w, k, pj.key);
      if k == r {
        assert forall id :: id in w.jobs ==> w.jobs[id].runID in w.origin;
        assert FlightOf(w, k, pj.key) == {};
      }
    }
  }

  lemma OpenRunKeepsNeeds(w: World, r: int, p: Plan)
    requires RowsFit(w) && NoEarlyStart(w) && r !in w.origin
    ensures NoEarlyStart(Opened(w, r, p))
  {
    var w' := Opened(w, r, p);
    forall id, n | id in w'.jobs && InFlight(w'.jobs[id]) && n in w'.jobs[id].needs && Gated(w', w'.jobs[id])
      ensures NeedMet(w', w'.jobs[id].runID, n)
    {
      var pj :| PlannedAs(w', w'.jobs[id], pj) && Plain(pj);
      assert PlannedAs(w, w.jobs[id], pj);
      assert NeedMet(w, w.jobs[id].runID, n);
      NeedDependsOnJobs(w, w', w.jobs[id].runID, n);
    }
  }

  lemma NeedDependsOnJobs(w: World, w': World, r: int, key: string)
    requires NeedMet(w, r, key)
    requires forall id :: IsLeg(w', id, r, key) <==> IsLeg(w, id, r, key)
    requires forall id :: IsLeg(w, id, r, key) ==> id in w'.jobs && w'.jobs[id] == w.jobs[id]
    ensures NeedMet(w', r, key)
  {
    var id :| IsLeg(w, id, r, key) && Gating(w.jobs[id]) != Skipped;
    assert IsLeg(w', id, r, key) && Gating(w'.jobs[id]) != Skipped;
  }

  /** The run has just been opened: none of its jobs is in flight. */
  ghost predicate Opening(w: World, run: Run) {
    && run.id in w.runs && run.id in w.origin && !w.runs[run.id].status.Completed?
    && forall id :: id in w.jobs && w.jobs[id].runID == run.id ==> !InFlight(w.jobs[id])
  }

  ghost function Added(w: World, j: Job): World {
    w.(jobs := w.jobs[j.id := j], nextJob := w.nextJob + 1)
  }

  lemma AddJobKeepsStructure(w: World, run: Run, pj: PlannedJob, held: bool)
    requires Structure(w) && RetriesBounded(w) && Opening(w, run) && pj in w.origin[run.id].jobs
    ensures var j := NewJob(w.nextJob, run, pj, held);
      Structure(Added(w, j)) && RetriesBounded(Added(w, j))
  {
    hide PlannedAs, RetryBound, WellFormedPlan;
    var j := NewJob(w.nextJob, run, pj, held);
    var w' := Added(w, j);
    var first := NewJobIsPlanned(w, run, pj, held);
    forall id | id in w'.jobs
      ensures exists own :: PlannedAs(w', w'.jobs[id], own) && w'.jobs[id].needs == own.needs
    {
      if id != j.id {
        var own :| PlannedAs(w, w.jobs[id], own) && w.jobs[id].needs == own.needs;
        PlanIsKept(w, w', w.jobs[id], own);
      }
    }
    forall id | id in w'.jobs ensures RetryBound(w', w'.jobs[id]) {
      if id != j.id {
        BoundIsKept(w, w', w.jobs[id]);
      }
    }
  }

  lemma PlanIsKept(w: World, w': World, j: Job, pj: PlannedJob)
    requires w'.origin == w.origin && PlannedAs(w, j, pj)
    ensures PlannedAs(w', j, pj)
  {
  }

  lemma BoundIsKept(w: World, w': World, j: Job)
    requires w'.origin == w.origin && RetryBound(w, j)
    ensures RetryBound(w', j)
  {
    forall pj | PlannedAs(w', j, pj) ensures PlannedAs(w, j, pj) {
    }
  }

  lemma NewJobIsPlanned(w: World, run: Run, pj: PlannedJob, held: bool) returns (first: PlannedJob)
    requires Structure(w) && Opening(w, run) && pj in w.origin[run.id].jobs
    ensures var j := NewJob(w.nextJob, run, pj, held);
      PlannedAs(Added(w, j), j, first) && j.needs == first.needs && RetryBound(Added(w, j), j)
  {
    var j := NewJob(w.nextJob, run, pj, held);
    first := Find(w.origin[run.id].jobs, pj.key, pj.matrixKey).value;
    forall own | PlannedAs(Added(w, j), j, own) ensures own.retry.attempts >= 1 {
      assert own == first;
    }
  }

  lemma AddJobKeepsHistory(w: World, j: Job)
    requires Structure(w) && History(w) && j.id == w.nextJob && j.attempt == 1 && Idle(j)
    ensures History(Added(w, j))
  {
    var w' := Added(w, j);
    forall kind, a: int ensures CountEvents(w.events, kind, j.id, a) == 0 {
      NothingToCount(w.events, kind, j.id, a);
    }
    forall id, attempt | id in w'.jobs ensures DispatchedFairly(w', id, attempt) {
      if id != j.id {
        assert DispatchedFairly(w, id, attempt);
      }
    }
  }

  lemma {:induction false} NeverRetried(events: seq<Event>, id: int)
    requires forall i :: 0 <= i < |events| ==> events[i].jobID != id
    ensures RetriesLogged(events, id) == 0
    decreases |events|
  {
    if events != [] {
      NeverRetried(events[..|events| - 1], id);
    }
  }

  lemma AddJobKeepsRetries(w: World, j: Job)
    requires Structure(w) && LogIsPast(w) && RetriesTimed(w) && j.id == w.nextJob && j.infraRetryCount == 0
    ensures RetriesTimed(Added(w, j))
  {
    hide RetriesLogged, WaitsAsPlanned;
    var w' := Added(w, j);
    NeverRetried(w.events, j.id);
    forall i | 0 <= i < |w'.events| && w'.events[i].kind == Retried
      ensures w'.events[i].jobID in w'.jobs && WaitsAsPlanned(w', i)
    {
      StillWaitsAsPlanned(w, w', i);
    }
  }

  lemma AddJobKeepsRows(w: World, j: Job)
    requires RowsFit(w) && NoJobLost(w) && GroupsExclusive(w) && SlotsRespected(w)
    requires j.id == w.nextJob && Idle(j) && !InFlight(j) && RowsAgree(j, w.queue)
    ensures NoJobLost(Added(w, j)) && GroupsExclusive(Added(w, j)) && SlotsRespected(Added(w, j))
  {
    var w' := Added(w, j);
    forall id | id in w'.jobs ensures RowsAgree(w'.jobs[id], w'.queue) {
      if id != j.id {
        assert RowsAgree(w.jobs[id], w.queue);
      }
    }
    forall k, key ensures FlightOf(w', k, key) == FlightOf(w, k, key) {
    }
  }

  lemma AddJobKeepsNeeds(w: World, run: Run, j: Job)
    requires RowsFit(w) && NoEarlyStart(w) && Opening(w, run)
    requires j.id == w.nextJob && j.runID == run.id && !InFlight(j)
    ensures NoEarlyStart(Added(w, j))
  {
    var w' := Added(w, j);
    forall id, n | id in w'.jobs && InFlight(w'.jobs[id]) && n in w'.jobs[id].needs && Gated(w', w'.jobs[id])
      ensures NeedMet(w', w'.jobs[id].runID, n)
    {
      var pj :| PlannedAs(w', w'.jobs[id], pj) && Plain(pj);
      assert PlannedAs(w, w.jobs[id], pj);
      assert NeedMet(w, w.jobs[id].runID, n) && w.jobs[id].runID != run.id;
      NeedDependsOnJobs(w, w', w.jobs[id].runID, n);
    }
  }

  lemma AddJobKeepsVerdicts(w: World, run: Run, j: Job)
    requires RowsFit(w) && VerdictsHonest(w) && Opening(w, run)
    requires j.id == w.nextJob && j.runID == run.id
    ensures VerdictsHonest(Added(w, j))
  {
    var w' := Added(w, j);
    forall r | r in w'.runs ensures VerdictHonest(w', r) {
      assert VerdictHonest(w, r);
      if w.runs[r].status.Completed? {
        JobsBelowDependsOnTheRun(w.jobs, w'.jobs, w.nextJob, r);
        assert JobsOf(w', r) == JobsOf(w, r);
      }
    }
  }

  lemma AddJobKeepsInv(w: World, run: Run, pj: PlannedJob, held: bool)
    requires Inv(w) && Opening(w, run) && pj in w.origin[run.id].jobs
    ensures var j := NewJob(w.nextJob, run, pj, held); Inv(Added(w, j)) && Opening(Added(w, j), run)
  {
    hide Structure, NoJobLost, GroupsExclusive, SlotsRespected, NoEarlyStart, VerdictsHonest, RetriesBounded, RetriesTimed,
      History;
    var j := NewJob(w.nextJob, run, pj, held);
    AddJobKeepsStructure(w, run, pj, held);
    AddJobKeepsHistory(w, j);
    assert LogIsPast(w) by {
      HistoryIsPast(w);
    }
    AddJobKeepsRetries(w, j);
    FreshIdIsNotQueued(w);
    StructureHasRows(w);
    AddJobKeepsRows(w, j);
    AddJobKeepsNeeds(w, run, j);
    AddJobKeepsVerdicts(w, run, j);
  }

  lemma HistoryIsPast(w: World)
    requires History(w)
    ensures LogIsPast(w)
  {
  }

  lemma FreshIdIsNotQueued(w: World)
    requires Structure(w)
    ensures w.nextJob !in w.queue && w.nextJob !in w.jobs && w.nextJob > 0
  {
  }

  lemma {:induction false} CreateJobsKeepsInv(w: World, run: Run, jobs: seq<PlannedJob>, held: bool)
    requires Inv(w) && Opening(w, run)
    requires forall pj :: pj in jobs ==> pj in w.origin[run.id].jobs
    ensures var w' := CreateJobs(w, run, jobs, held); Inv(w') && Opening(w', run) && w'.runs == w.runs
    decreases |jobs|
  {
    hide Inv;
    if jobs != [] {
      var j := NewJob(w.nextJob, run, jobs[0], held);
      AddJobKeepsInv(w, run, jobs[0], held);
      assert forall pj :: pj in jobs[1..] ==> pj in jobs;
      CreateJobsKeepsInv(Added(w, j), run, jobs[1..], held);
    }
  }

  lemma {:induction false} CreateJobsCommutes(w: World, run: Run, jobs: seq<PlannedJob>, held: bool,
                                              plans: map<int, Plan>, origin: map<int, Plan>, runs: map<int, Run>)
    ensures CreateJobs(w.(plans := plans, origin := origin, runs := runs), run, jobs, held)
         == CreateJobs(w, run, jobs, held).(plans := plans, origin := origin, runs := runs)
    decreases |jobs|
  {
    if jobs != [] {
      var j := NewJob(w.nextJob, run, jobs[0], held);
      CreateJobsCommutes(Added(w, j), run, jobs[1..], held, plans, origin, runs);
    }
  }

  lemma {:induction false} CreateJobsFrame(w: World, run: Run, jobs: seq<PlannedJob>, held: bool)
    ensures var w' := CreateJobs(w, run, jobs, held); w'.plans == w.plans && w'.origin == w.origin && w'.runs == w.runs
    decreases |jobs|
  {
    if jobs != [] {
      CreateJobsFrame(Added(w, NewJob(w.nextJob, run, jobs[0], held)), run, jobs[1..], held);
    }
  }

  lemma StartedKeepsInv(w: World, run: Run, started: Run)
    requires Inv(w) && run.id in w.runs && w.runs[run.id] == run && run.cancel.None?
    requires started == run.(status := InProgress, startedAt := started.startedAt)
    ensures Inv(PutRun(w, started))
  {
    hide Inv, Structure;
    InvHasStructure(w);
    PlansOf(w);
    RunMoveKeepsInv(w, PutRun(w, started), started);
  }

  lemma SupersedeOlderKeepsInv(w: World, run: Run, p: Plan, now: int)
    requires Inv(w) && run.id in w.runs
    ensures var s := SupersedeOlderRuns(w, run, p, now);
      Inv(s.w) && SameFrame(w, s.w) && run.id in s.w.runs && s.w.runs[run.id] == w.runs[run.id]
  {
    hide Inv, SupersedeFrom;
    SupersedeKeepsInv(w, run, p, TrackedRuns(w), now);
  }

  lemma StartRunKeepsInv(opts: Options, w: World, r: int, p: Plan)
    requires Inv(w) && Legal(w, ActStartRun(r, p))
    ensures Inv(StartRun(opts, w, w.runs[r], p).w)
  {
    hide Inv, SupersedeOlderRuns, CreateJobs, WellFormedPlan, VerdictHonest;
    var run := w.runs[r];
    RunFacts(w, r);
    if p.jobs != [] && run.createdAt != 0 {
      var now := run.createdAt;
      SupersedeOlderKeepsInv(w, run, p, now);
      var s := SupersedeOlderRuns(w, run, p, now);
      if s.ok {
        var held := run.forkPR && opts.requireForkApproval && !run.approved;
        var started := run.(status := InProgress, startedAt := if run.startedAt.None? then Some(now) else run.startedAt);
        var plans, origin, runs := s.w.plans[r := p], s.w.origin[r := p], s.w.runs[r := started];
        StartedKeepsInv(s.w, run, started);
        var begun := PutRun(s.w, started);
        OpenRunKeepsInv(begun, r, p);
        NoJobsYet(s.w, r);
        var base := s.w.(origin := origin, plans := plans, runs := runs);
        CreateJobsKeepsInv(base, run, p.jobs, held);
        CreateJobsCommutes(s.w, run, p.jobs, held, plans, origin, runs);
        CreateJobsFrame(s.w, run, p.jobs, held);
        var c := CreateJobs(base, run, p.jobs, held);
        NeutralEventKeepsInv(c, Event(RunStarted, run.id, 0, 0, now, 0));
      }
    }
  }

  /** Starting a run is safe exactly when it was not cancelled before it had jobs: nothing
      takes the reason off a run that starts after all. */
  lemma StartRunIsSafeExactlyWhenNotCancelled(opts: Options, w: World, r: int, p: Plan)
    requires Inv(w) && r in w.runs && r !in w.origin && WellFormedPlan(p) && StartRun(opts, w, w.runs[r], p).ok
    ensures Inv(StartRun(opts, w, w.runs[r], p).w) <==> w.runs[r].cancel.None?
  {
    hide Inv, SupersedeOlderRuns, CreateJobs, WellFormedPlan;
    RunFacts(w, r);
    if w.runs[r].cancel.None? {
      StartRunKeepsInv(opts, w, r, p);
    } else {
      var after := StartRun(opts, w, w.runs[r], p).w;
      assert after.runs[r].cancel.Some? && after.runs[r].status.InProgress?;
      if Inv(after) {
        RunFacts(after, r);
        assert false;
      }
    }
  }

  lemma NoJobsYet(w: World, r: int)
    requires Inv(w) && r !in w.origin
    ensures forall id :: id in w.jobs ==> w.jobs[id].runID != r
  {
    hide NoJobLost, GroupsExclusive, SlotsRespected, NoEarlyStart, VerdictsHonest, RetriesBounded, History;
  }

  // --------------------------------------------------------------- Approving

  function Released(j: Job): Job {
    j.(awaitingApproval := false, status := Queued)
  }

  lemma ApproveOneKeepsInv(w: World, j: Job)
    requires Inv(w) && InStep(w, j) && j.awaitingApproval && !j.status.Completed?
    ensures Inv(PutJob(w, Released(j))) && Updates(w, PutJob(w, Released(j)), Released(j))
  {
    hide Inv, NeedMet;
    var k := Released(j);
    var w' := PutJob(w, k);
    JobFacts(w, j.id);
    assert RetryBound(w, k) by {
      forall pj | PlannedAs(w, k, pj) ensures PlannedAs(w, j, pj) {
      }
    }
    assert FairMove(w, w', k, None);
    FairMoveKeepsInv(w, w', k, None);
  }

  lemma {:induction false} ApproveFromKeepsInv(w: World, jobs: seq<Job>, i: nat, r: int)
    requires Inv(w)
    requires forall k :: i <= k < |jobs| ==> InStep(w, jobs[k]) && (jobs[k].awaitingApproval ==> !jobs[k].status.Completed?)
    requires DistinctIds(jobs)
    ensures Inv(ApproveFrom(w, jobs, i))
    decreases |jobs| - i
  {
    hide Inv, Updates;
    if i < |jobs| {
      if jobs[i].awaitingApproval {
        ApproveOneKeepsInv(w, jobs[i]);
        var w' := PutJob(w, Released(jobs[i]));
        forall k | i + 1 <= k < |jobs| ensures InStep(w', jobs[k]) {
          assert jobs[i].id != jobs[k].id;
        }
        ApproveFromKeepsInv(w', jobs, i + 1, r);
      } else {
        ApproveFromKeepsInv(w, jobs, i + 1, r);
      }
    }
  }

  lemma ApprovalFlagKeepsInv(w: World, r: int)
    requires Inv(w) && r in w.runs
    ensures Inv(PutRun(w, w.runs[r].(approved := true)))
  {
    hide Inv, Structure;
    InvHasStructure(w);
    PlansOf(w);
    RunFacts(w, r);
    RunMoveKeepsInv(w, PutRun(w, w.runs[r].(approved := true)), w.runs[r].(approved := true));
  }

  lemma ApproveKeepsInv(w: World, r: int, actor: string, now: int)
    requires Inv(w) && ApproveGuard(w, r)
    ensures Inv(Approve(w, r, actor, now).w)
  {
    hide Inv, ApproveFrom, Snapshot, Structure;
    if actor != "" && r in w.runs {
      ApprovalFlagKeepsInv(w, r);
      var put := PutRun(w, w.runs[r].(approved := true));
      InvHasStructure(put);
      ListingIsExact(put, r);
      var jobs := JobsOf(put, r);
      SnapshotFacts(put, jobs, r);
      ListedAreInStep(put, jobs, r);
      ApproveFromKeepsInv(put, jobs, 0, r);
      NeutralEventKeepsInv(ApproveFrom(put, jobs, 0), Event(RunStarted, r, 0, 0, now, 0));
    }
  }

  lemma ListedAreInStep(w: World, jobs: seq<Job>, r: int)
    requires Exact(w, jobs, r)
    ensures forall k :: 0 <= k < |jobs| ==> InStep(w, jobs[k])
  {
  }

  lemma {:induction false} ApproveFromReleases(w: World, jobs: seq<Job>, i: nat, m: nat)
    requires DistinctIds(jobs) && i <= m < |jobs| && jobs[m].awaitingApproval
    ensures var w' := ApproveFrom(w, jobs, i); jobs[m].id in w'.jobs && w'.jobs[jobs[m].id] == Released(jobs[m])
    decreases |jobs| - i
  {
    if i < m {
      ApproveFromReleases(if jobs[i].awaitingApproval then PutJob(w, Released(jobs[i])) else w, jobs, i + 1, m);
    } else {
      ApproveFromFrame(PutJob(w, Released(jobs[i])), jobs, i + 1, jobs[m].id);
    }
  }

  lemma {:induction false} ApproveFromFrame(w: World, jobs: seq<Job>, i: nat, id: int)
    requires id in w.jobs && forall k :: i <= k < |jobs| ==> jobs[k].id != id
    ensures var w' := ApproveFrom(w, jobs, i); id in w'.jobs && w'.jobs[id] == w.jobs[id]
    decreases |jobs| - i
  {
    if i < |jobs| {
      ApproveFromFrame(if jobs[i].awaitingApproval then PutJob(w, Released(jobs[i])) else w, jobs, i + 1, id);
    }
  }

  /** Approving a run is safe exactly when none of its held jobs was cancelled while
      it waited: such a job goes back to queued with its conclusion still on it. */
  lemma ApproveIsSafeExactlyWhenNothingHeldWasCancelled(w: World, r: int, actor: string, now: int)
    requires Inv(w) && actor != "" && r in w.runs
    ensures Inv(Approve(w, r, actor, now).w) <==> ApproveGuard(w, r)
  {
    hide Inv, ApproveFrom, Snapshot, Structure;
    if ApproveGuard(w, r) {
      ApproveKeepsInv(w, r, actor, now);
    } else {
      var id :| id in w.jobs && w.jobs[id].runID == r && w.jobs[id].awaitingApproval && w.jobs[id].status.Completed?;
      ApprovalFlagKeepsInv(w, r);
      var put := PutRun(w, w.runs[r].(approved := true));
      InvHasStructure(put);
      ListingIsExact(put, r);
      var jobs := JobsOf(put, r);
      SnapshotFacts(put, jobs, r);
      ListedAreInStep(put, jobs, r);
      var m :| 0 <= m < |jobs| && jobs[m].id == id;
      assert jobs[m] == w.jobs[id];
      ApproveFromReleases(put, jobs, 0, m);
      JobFacts(w, id);
      var after := Approve(w, r, actor, now).w;
      if Inv(after) {
        JobFacts(after, id);
        assert false;
      }
    }
  }
}
