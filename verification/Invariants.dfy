/** What holds in every state the scheduler can reach, and which moves the
    guarded entry points allow. */
module Invariants {
  import opened Model
  import opened Retry
  import opened Entities
  import opened Steps

  // --------------------------------------------------------- Shape of the rows

  /** What the planner guarantees of a plan: the legs of one job share its needs,
      cap and policy, at least one attempt is allowed, only infra is retried. */
  ghost predicate WellFormedPlan(p: Plan) {
    && p.jobs != []
    && (forall a, b :: a in p.jobs && b in p.jobs && a.key == b.key
         ==> a.maxParallel == b.maxParallel && a.needs == b.needs)
    && (forall a :: a in p.jobs ==> a.retry.attempts >= 1)
  }

  ghost predicate RowsFit(w: World) {
    && w.nextRun > 0 && w.nextJob > 0
    && (forall id :: id in w.jobs ==> w.jobs[id].id == id && 0 < id < w.nextJob && w.jobs[id].runID in w.origin)
    && (forall id :: id in w.queue ==> id in w.jobs)
    && (forall r :: r in w.runs ==> w.runs[r].id == r && 0 < r < w.nextRun)
  }

  /** The planned job a row was made from. */
  ghost predicate PlannedAs(w: World, j: Job, pj: PlannedJob) {
    j.runID in w.origin && Find(w.origin[j.runID].jobs, j.key, j.matrixKey) == Some(pj)
  }

  ghost predicate PlansFit(w: World) {
    && (forall r :: r in w.plans ==> r in w.origin && w.plans[r] == w.origin[r])
    && (forall r :: r in w.origin ==> r in w.runs && WellFormedPlan(w.origin[r]))
    && (forall id :: id in w.jobs ==> exists pj :: PlannedAs(w, w.jobs[id], pj) && w.jobs[id].needs == pj.needs)
  }

  // ---------------------------------------------------------------- Lifecycle

  /** A job row and its queue row agree: an admitted unfinished job is on the queue, for
      runners with its labels, nothing else is, and a lease is held exactly while it runs. */
  ghost predicate RowsAgree(j: Job, queue: map<int, Row>) {
    && (j.status.Completed? <==> j.conclusion != NoConclusion)
    && (j.status.Completed? ==> j.conclusion.Valid())
    && (InFlight(j) <==> j.id in queue)
    && (j.awaitingApproval ==> j.queuedAt.None?)
    && (j.status.InProgress? <==> j.id in queue && queue[j.id].leased)
    && j.runnerID == (if j.id in queue && queue[j.id].leased then queue[j.id].runnerID else "")
    && (j.id in queue ==> queue[j.id].labels == j.labels)
  }

  ghost predicate NoJobLost(w: World) {
    forall id :: id in w.jobs ==> RowsAgree(w.jobs[id], w.queue)
  }

  // ------------------------------------------------------- Concurrency groups

  ghost predicate GroupsExclusive(w: World) {
    forall a, b | a in w.jobs && b in w.jobs && a != b && Holds(w.jobs[a]) && Holds(w.jobs[b])
      :: w.jobs[a].group != "" ==> w.jobs[a].group != w.jobs[b].group
  }

  // ------------------------------------------------------------- Max-parallel

  ghost function FlightOf(w: World, runID: int, key: string): set<int> {
    set id | id in w.jobs && w.jobs[id].runID == runID && w.jobs[id].key == key && InFlight(w.jobs[id])
  }

  ghost predicate SlotsRespected(w: World) {
    forall r, pj :: r in w.origin && pj in w.origin[r].jobs && pj.maxParallel > 0
      ==> |FlightOf(w, r, pj.key)| <= pj.maxParallel
  }

  // -------------------------------------------------------------------- Needs

  ghost predicate IsLeg(w: World, id: int, runID: int, key: string) {
    id in w.jobs && w.jobs[id].runID == runID && w.jobs[id].key == key
  }

  /** All legs are done and what they add up to lets dependents run: no failure
      that counts, no cancellation, not everything skipped. */
  ghost predicate NeedMet(w: World, runID: int, key: string) {
    && (forall id :: IsLeg(w, id, runID, key) ==>
         && w.jobs[id].status.Completed?
         && !Gating(w.jobs[id]).IsFailure()
         && w.jobs[id].conclusion != Cancelled)
    && (exists id :: IsLeg(w, id, runID, key) && Gating(w.jobs[id]) != Skipped)
  }

  /** Only an if: that names a status function lets a job run whatever its needs came to. */
  predicate Plain(pj: PlannedJob) {
    pj.cond == "" || !pj.namesStatus
  }

  ghost predicate Gated(w: World, j: Job) {
    exists pj :: PlannedAs(w, j, pj) && Plain(pj)
  }

  ghost predicate NoEarlyStart(w: World) {
    forall id, n :: id in w.jobs && InFlight(w.jobs[id]) && n in w.jobs[id].needs && Gated(w, w.jobs[id])
      ==> NeedMet(w, w.jobs[id].runID, n)
  }

  // ----------------------------------------------------------------- Verdicts

  ghost predicate VerdictHonest(w: World, r: int)
    requires r in w.runs
  {
    && (w.runs[r].status.Completed? ==>
         && w.runs[r].completedAt.Some?
         && (forall id :: id in w.jobs && w.jobs[id].runID == r ==> w.jobs[id].status.Completed?)
         && w.runs[r].conclusion == Aggregate(Conclusions(JobsOf(w, r))))
    && (w.runs[r].cancel.Some? ==> w.runs[r].status.Completed?)
  }

  ghost predicate VerdictsHonest(w: World) {
    forall r :: r in w.runs ==> VerdictHonest(w, r)
  }

  // ------------------------------------------------------------------ Retries

  /** Infra retries since the last rerun stay below the number of attempts. */
  ghost predicate RetryBound(w: World, j: Job) {
    forall pj :: PlannedAs(w, j, pj) ==> 0 <= j.infraRetryCount <= pj.retry.attempts - 1
  }

  ghost predicate RetriesBounded(w: World) {
    forall id :: id in w.jobs ==> RetryBound(w, w.jobs[id])
  }

  // ------------------------------------------------------------ The audit log

  ghost function CountEvents(events: seq<Event>, kind: EventKind, id: int, attempt: int): nat {
    if events == [] then 0
    else
      var e := events[|events| - 1];
      CountEvents(events[..|events| - 1], kind, id, attempt)
      + (if e.kind == kind && e.jobID == id && e.attempt == attempt then 1 else 0)
  }

  /** How often an attempt of a job has ended: concluded, retried, or lost. */
  ghost function Endings(events: seq<Event>, id: int, attempt: int): nat {
    CountEvents(events, JobCompleted, id, attempt)
    + CountEvents(events, JobCancelled, id, attempt)
    + CountEvents(events, JobSkipped, id, attempt)
    + CountEvents(events, Retried, id, attempt + 1)
    + CountEvents(events, Requeued, id, attempt + 1)
  }

  /** No event is about an attempt that has not begun. */
  ghost predicate LogIsPast(w: World) {
    forall i :: 0 <= i < |w.events| && w.events[i].jobID != 0
      ==> w.events[i].jobID in w.jobs && w.events[i].attempt <= w.jobs[w.events[i].jobID].attempt
  }

  /** An attempt that could be handed out again was handed out no more often than
      it was voluntarily given back; any other, at most once more than that. */
  ghost predicate DispatchedFairly(w: World, id: int, attempt: int)
    requires id in w.jobs
  {
    CountEvents(w.events, Dispatched, id, attempt)
    <= CountEvents(w.events, Released, id, attempt)
       + (if attempt == w.jobs[id].attempt && !w.jobs[id].status.Completed? && !w.jobs[id].status.InProgress? then 0 else 1)
  }

  ghost predicate DispatchedOnce(w: World) {
    forall id, attempt :: id in w.jobs ==> DispatchedFairly(w, id, attempt)
  }

  ghost predicate EndedOnce(w: World) {
    forall id, attempt :: id in w.jobs ==>
      Endings(w.events, id, attempt)
      <= (if attempt < w.jobs[id].attempt || (attempt == w.jobs[id].attempt && w.jobs[id].status.Completed?) then 1 else 0)
  }

  ghost predicate SameAttempt(a: Event, b: Event) {
    a.jobID == b.jobID && a.attempt == b.attempt
  }

  /** A retried attempt waits out its backoff: its queue row cannot be claimed
      before, and no dispatch of it is dated before. */
  ghost predicate BackoffRespected(w: World) {
    && (forall i, k :: 0 <= i < |w.events| && 0 <= k < |w.events|
         && w.events[i].kind == Retried && w.events[k].kind == Dispatched && SameAttempt(w.events[i], w.events[k])
         ==> w.events[i].until <= w.events[k].at)
    && (forall i :: 0 <= i < |w.events| && w.events[i].kind == Retried && w.events[i].jobID in w.jobs
         && w.events[i].attempt == w.jobs[w.events[i].jobID].attempt
         ==> w.jobs[w.events[i].jobID].queuedAt.Some?)
    && (forall i :: 0 <= i < |w.events| && w.events[i].kind == Retried && w.events[i].jobID in w.queue
         && w.events[i].jobID in w.jobs && w.events[i].attempt == w.jobs[w.events[i].jobID].attempt
         ==> w.events[i].until == w.queue[w.events[i].jobID].notBefore)
  }

  /** How often a job has been retried, by the log, since it was last re-run. */
  ghost function RetriesLogged(events: seq<Event>, id: int): nat {
    if events == [] then 0
    else
      var e, before := events[|events| - 1], RetriesLogged(events[..|events| - 1], id);
      if e.jobID != id then before
      else if e.kind == Retried then before + 1
      else if e.kind == RerunAsked then 0
      else before
  }

  /** A retry waits as long as the job's policy asks for before that attempt. */
  ghost predicate WaitsAsPlanned(w: World, i: nat)
    requires i < |w.events| && w.events[i].jobID in w.jobs
  {
    var e := w.events[i];
    forall pj :: PlannedAs(w, w.jobs[e.jobID], pj) ==>
      e.until == e.at + Delay(pj.retry, RetriesLogged(w.events[..i + 1], e.jobID) + 1)
  }

  ghost predicate RetriesTimed(w: World) {
    && (forall id :: id in w.jobs ==> w.jobs[id].infraRetryCount == RetriesLogged(w.events, id))
    && (forall i :: 0 <= i < |w.events| && w.events[i].kind == Retried ==>
         w.events[i].jobID in w.jobs && WaitsAsPlanned(w, i))
  }

  ghost predicate AttemptsAscend(w: World) {
    forall i, k | 0 <= i < k < |w.events| && w.events[i].kind == Dispatched && w.events[k].kind == Dispatched
      :: w.events[i].jobID == w.events[k].jobID ==> w.events[i].attempt <= w.events[k].attempt
  }

  // ------------------------------------------------------------ The invariant

  ghost predicate Structure(w: World) {
    RowsFit(w) && PlansFit(w)
  }

  ghost predicate History(w: World) {
    LogIsPast(w) && DispatchedOnce(w) && EndedOnce(w) && BackoffRespected(w) && AttemptsAscend(w)
  }

  ghost predicate Inv(w: World) {
    && Structure(w)
    && NoJobLost(w)
    && GroupsExclusive(w)
    && SlotsRespected(w)
    && NoEarlyStart(w)
    && VerdictsHonest(w)
    && RetriesBounded(w)
    && RetriesTimed(w)
    && History(w)
  }

  // ------------------------------------------------------------ Legal moves

  /** No queue row is left for a job the rerun would reset. */
  ghost predicate RerunGuard(w: World, runID: int, sel: Selection) {
    runID in w.plans ==>
      forall id :: id in w.jobs && w.jobs[id].runID == runID && w.jobs[id].key in RerunKeys(w, runID, sel)
        ==> id !in w.queue
  }

  /** No held job of the run has been cancelled already. */
  ghost predicate ApproveGuard(w: World, runID: int) {
    forall id :: id in w.jobs && w.jobs[id].runID == runID && w.jobs[id].awaitingApproval
      ==> !w.jobs[id].status.Completed?
  }

  ghost predicate Legal(w: World, a: Action) {
    match a
    case ActStartRun(runID, plan) =>
      runID in w.runs && runID !in w.origin && w.runs[runID].cancel.None? && WellFormedPlan(plan)
    case ActApprove(runID, actor, now) => ApproveGuard(w, runID)
    case ActRerun(runID, actor, sel, now) => RerunGuard(w, runID, sel)
    case ActRegisterPlan(runID, plan) => runID in w.origin && plan == w.origin[runID]
    case _ => true
  }

  ghost function ApplyAll(opts: Options, w: World, actions: seq<Action>): World
    decreases |actions|
  {
    if actions == [] then w else ApplyAll(opts, Apply(opts, w, actions[0]), actions[1..])
  }

  ghost predicate LegalHistory(opts: Options, w: World, actions: seq<Action>)
    decreases |actions|
  {
    actions == [] || (Legal(w, actions[0]) && LegalHistory(opts, Apply(opts, w, actions[0]), actions[1..]))
  }
}
