/** Every entry point of the scheduler and of the runner API as a function from
    one state to the next. Each entry point is one step. */
module Steps {
  import opened Model
  import opened Retry
  import opened Entities

  // ------------------------------------------------------------ The store

  function Emit(w: World, e: Event): World {
    w.(events := w.events + [e])
  }

  function JobEvent(kind: EventKind, j: Job, now: int): Event {
    Event(kind, j.runID, j.id, j.attempt, now, 0)
  }

  /** UpdateJob writes the whole row; a completed job leaves the queue with it. */
  function PutJob(w: World, j: Job): World {
    w.(jobs := w.jobs[j.id := j],
       queue := if j.status.Completed? then w.queue - {j.id} else w.queue)
  }

  function PutRun(w: World, r: Run): World {
    w.(runs := w.runs[r.id := r])
  }

  function DropFromQueue(w: World, id: int): World {
    w.(queue := w.queue - {id})
  }

  /** Enqueue leaves a present row alone, lease and all. */
  function Enqueue(w: World, j: Job, queuedAt: int, notBefore: Option<int>): World
    requires j.id in w.jobs
  {
    if j.id in w.queue then w
    else
      var stored := w.jobs[j.id];
      var start := if notBefore.Some? then notBefore.value else queuedAt;
      w.(queue := w.queue[j.id := Row(j.labels, j.group, queuedAt, start, false, "", 0)],
         jobs := w.jobs[j.id := stored.(
           status := Queued,
           labels := j.labels,
           group := j.group,
           queuedAt := if stored.queuedAt.None? then Some(queuedAt) else stored.queuedAt)])
  }

  /** The jobs of a run with an id below n, in id order. */
  function JobsBelow(jobs: map<int, Job>, n: int, runID: int): (out: seq<Job>)
    decreases n
  {
    if n <= 0 then []
    else JobsBelow(jobs, n - 1, runID) +
         (if n - 1 in jobs && jobs[n - 1].runID == runID then [jobs[n - 1]] else [])
  }

  function JobsOf(w: World, runID: int): seq<Job> {
    JobsBelow(w.jobs, w.nextJob, runID)
  }

  /** The unfinished jobs of a concurrency group with an id below n. */
  function LiveBelow(jobs: map<int, Job>, n: int, group: string): seq<Job>
    decreases n
  {
    if n <= 0 then []
    else LiveBelow(jobs, n - 1, group) +
         (if n - 1 in jobs && jobs[n - 1].group == group && !jobs[n - 1].status.Completed?
          then [jobs[n - 1]] else [])
  }

  predicate Expired(r: Row, now: int) {
    r.leased && r.leaseExpiresAt <= now
  }

  function Unleased(r: Row): Row {
    r.(leased := false, runnerID := "", leaseExpiresAt := 0)
  }

  function Unclaimed(j: Job): Job {
    j.(status := Queued, runnerID := "", leaseExpiresAt := None, startedAt := None, setupCompletedAt := None)
  }

  /** The store's half of reaping: every expired lease is dropped at once. */
  function DropExpiredLeases(w: World, now: int): World {
    w.(queue := map id | id in w.queue :: if Expired(w.queue[id], now) then Unleased(w.queue[id]) else w.queue[id],
       jobs := map id | id in w.jobs ::
         if id in w.queue && Expired(w.queue[id], now) then Unclaimed(w.jobs[id]) else w.jobs[id])
  }

  /** Copies of the jobs whose lease has expired, in id order, as the store
      returns them: unclaimed, but naming the runner that was lost. */
  function ReapedBelow(w: World, n: int, now: int): seq<Job>
    decreases n
  {
    if n <= 0 then []
    else ReapedBelow(w, n - 1, now) +
         (if n - 1 in w.jobs && n - 1 in w.queue && Expired(w.queue[n - 1], now)
          then [Unclaimed(w.jobs[n - 1]).(runnerID := w.queue[n - 1].runnerID)] else [])
  }

  predicate LabelsSatisfied(have: seq<string>, want: seq<string>) {
    forall l :: l in want ==> l in have
  }

  predicate Eligible(w: World, id: int, labels: seq<string>, now: int) {
    id in w.queue && id in w.jobs
    && !w.queue[id].leased && w.queue[id].notBefore <= now
    && LabelsSatisfied(labels, w.queue[id].labels)
  }

  /** Dequeue claims one eligible row under a lease. */
  function Dequeue(w: World, runner: string, id: int, now: int, ttl: int): World
    requires id in w.queue && id in w.jobs
  {
    w.(queue := w.queue[id := w.queue[id].(leased := true, runnerID := runner, leaseExpiresAt := now + ttl)],
       jobs := w.jobs[id := w.jobs[id].(
         status := InProgress,
         runnerID := runner,
         leaseExpiresAt := Some(now + ttl),
         startedAt := Some(now),
         setupCompletedAt := None)])
  }

  /** The lease goes and the row stays, for the next runner. */
  function ReleaseLease(w: World, id: int): World
    requires id in w.queue && id in w.jobs
  {
    w.(queue := w.queue[id := Unleased(w.queue[id])],
       jobs := w.jobs[id := Unclaimed(w.jobs[id])])
  }

  // ------------------------------------------------------ Ending an attempt

  datatype Finished = Finished(w: World, job: Job, ok: bool)

  function ForgetStepTimeouts(w: World, id: int): World {
    w.(stepTimeouts := w.stepTimeouts - {id})
  }

  function TerminalKind(res: Result): EventKind {
    if res.conclusion == Skipped then JobSkipped
    else if res.cancel.Some? then JobCancelled
    else JobCompleted
  }

  function Concluded(j: Job, res: Result, now: int): Job {
    j.(status := Completed, conclusion := res.conclusion, fault := res.fault, cancel := res.cancel,
       completedAt := Some(now), runnerID := "", leaseExpiresAt := None)
  }

  function Conclude(w: World, j: Job, res: Result, now: int): Finished {
    var done := Concluded(j, res, now);
    Finished(Emit(ForgetStepTimeouts(PutJob(w, done), j.id), JobEvent(TerminalKind(res), done, now)), done, true)
  }

  function NextAttempt(j: Job, now: int): Job {
    j.(attempt := j.attempt + 1, status := Queued, conclusion := NoConclusion, fault := ClassNone, cancel := None,
       runnerID := "", leaseExpiresAt := None, startedAt := None, setupCompletedAt := None, completedAt := None,
       queuedAt := Some(now))
  }

  function RequeueForRetry(w: World, pj: PlannedJob, j: Job, now: int): Finished {
    var next := NextAttempt(j, now).(infraRetryCount := j.infraRetryCount + 1);
    var until := now + Delay(pj.retry, next.infraRetryCount + 1);
    var dropped := DropFromQueue(ForgetStepTimeouts(PutJob(w, next), j.id), j.id);
    Finished(Emit(Enqueue(dropped, next, now, Some(until)), JobEvent(Retried, next, now).(until := until)), next, true)
  }

  /** The classifier's sentence is recorded before anything else is decided. */
  function Noted(w: World, j: Job, res: Result, now: int): World {
    if res.classReason != "" then Emit(w, JobEvent(Classified, j, now)) else w
  }

  function WithOutputs(j: Job, res: Result): Job {
    if res.outputs.Some? then j.(outputs := res.outputs.value) else j
  }

  function FinishAttempt(w: World, pj: Option<PlannedJob>, j: Job, res: Result, now: int, allowRetry: bool): Finished {
    if !res.Valid() || (allowRetry && pj.None?) then Finished(w, j, false)
    else if allowRetry && res.fault == ClassInfra && Retries(pj.value.retry, ClassInfra, j.infraRetryCount + 1)
    then RequeueForRetry(Noted(w, j, res, now), pj.value, WithOutputs(j, res), now)
    else Conclude(Noted(w, j, res, now), WithOutputs(j, res), res, now)
  }

  function Imposed(conclusion: Conclusion, fault: FailureClass, reason: CancelReason): Result {
    Result(conclusion, fault, "", None, Some(reason))
  }

  function StopJob(w: World, pj: Option<PlannedJob>, j: Job, reason: CancelReason, conclusion: Conclusion,
                   fault: FailureClass, now: int, allowRetry: bool): Finished
  {
    if !reason.Valid() then Finished(w, j, false)
    else FinishAttempt(w, pj, j, Imposed(conclusion, fault, reason), now, allowRetry)
  }

  /** A reason the scheduler itself gives; its sentence is never empty. */
  function Because(actor: CancelActor): CancelReason {
    CancelReason(actor, "stopped by the scheduler", "")
  }

  /** The jobs of the list from i on, each unfinished one stopped. */
  function StopFrom(w: World, jobs: seq<Job>, i: nat, reason: CancelReason, conclusion: Conclusion,
                    fault: FailureClass, now: int): (r: (World, seq<Job>, bool))
    ensures |r.1| == |jobs|
    decreases |jobs| - i
  {
    if i >= |jobs| then (w, jobs, true)
    else if jobs[i].status.Completed? then StopFrom(w, jobs, i + 1, reason, conclusion, fault, now)
    else
      var f := StopJob(w, None, jobs[i], reason, conclusion, fault, now, false);
      if !f.ok then (w, jobs, false)
      else StopFrom(f.w, jobs[i := f.job], i + 1, reason, conclusion, fault, now)
  }

  // ---------------------------------------------------------------- Rollup

  function Conclusions(jobs: seq<Job>): seq<Conclusion> {
    if jobs == [] then []
    else (if jobs[0].status.Completed? then [jobs[0].conclusion] else []) + Conclusions(jobs[1..])
  }

  predicate AllCompleted(jobs: seq<Job>) {
    forall k :: 0 <= k < |jobs| ==> jobs[k].status.Completed?
  }

  datatype Finalized = Finalized(w: World, run: Run)

  function FinalizeIfComplete(w: World, run: Run, jobs: seq<Job>, now: int): Finalized {
    if run.status.Completed? && run.completedAt.Some? then Finalized(w, run)
    else if !AllCompleted(jobs) then Finalized(w, run)
    else
      var done := run.(status := Completed, conclusion := Aggregate(Conclusions(jobs)), completedAt := Some(now));
      var put := Emit(PutRun(w, done), Event(RunCompleted, run.id, 0, 0, now, 0));
      Finalized(put.(plans := put.plans - {run.id}), done)
  }

  // ----------------------------------------------------------- Cancellation

  datatype Outcome = Outcome(w: World, ok: bool)

  function CancelRun(w: World, runID: int, reason: CancelReason, now: int): Outcome {
    if !reason.Valid() || runID !in w.runs then Outcome(w, false)
    else if w.runs[runID].status.Completed? then Outcome(w, true)
    else
      var s := StopFrom(w, JobsOf(w, runID), 0, reason, Cancelled, ClassNone, now);
      if !s.2 then Outcome(s.0, false)
      else Outcome(FinalizeIfComplete(s.0, w.runs[runID].(cancel := Some(reason)), s.1, now).w, true)
  }

  function CancelJob(w: World, id: int, reason: CancelReason, now: int): Outcome {
    if id !in w.jobs then Outcome(w, false)
    else if w.jobs[id].status.Completed? then Outcome(w, true)
    else
      var f := StopJob(w, None, w.jobs[id], reason, Cancelled, ClassNone, now, false);
      Outcome(f.w, f.ok)
  }

  // -------------------------------------------------------------- Starting

  function NewJob(id: int, run: Run, pj: PlannedJob, held: bool): Job {
    Job(id, run.id, pj.key, pj.matrixKey, pj.needs, pj.labels, 1, if held then Waiting else Queued,
        NoConclusion, ClassNone, None, pj.group, pj.continueOnError, pj.timeoutMinutes, "", held, map[],
        None, None, None, None, None, 0)
  }

  function CreateJobs(w: World, run: Run, jobs: seq<PlannedJob>, held: bool): World
    decreases |jobs|
  {
    if jobs == [] then w
    else
      var j := NewJob(w.nextJob, run, jobs[0], held);
      CreateJobs(w.(jobs := w.jobs[j.id := j], nextJob := w.nextJob + 1), run, jobs[1..], held)
  }

  /** Run ids below n with a registered plan, ascending. */
  function TrackedBelow(plans: map<int, Plan>, n: int): (ids: seq<int>)
    ensures forall k :: 0 <= k < |ids| ==> ids[k] in plans && 0 <= ids[k] < n
    decreases n
  {
    if n <= 0 then []
    else TrackedBelow(plans, n - 1) + (if n - 1 in plans then [n - 1] else [])
  }

  function TrackedRuns(w: World): seq<int> {
    TrackedBelow(w.plans, w.nextRun)
  }

  function SupersedeFrom(w: World, run: Run, p: Plan, others: seq<int>, now: int): Outcome
    decreases |others|
  {
    if others == [] then Outcome(w, true)
    else
      var other := others[0];
      if other == run.id || other !in w.plans || w.plans[other].runGroup != p.runGroup
      then SupersedeFrom(w, run, p, others[1..], now)
      else if other !in w.runs then Outcome(w, false)
      else if w.runs[other].status.Completed? then SupersedeFrom(w, run, p, others[1..], now)
      else
        var c := CancelRun(w, other, Because(ActorSupersededByRun), now);
        if !c.ok then c else SupersedeFrom(c.w, run, p, others[1..], now)
  }

  function SupersedeOlderRuns(w: World, run: Run, p: Plan, now: int): Outcome {
    if p.runGroup == "" || !p.runCancelInProgress then Outcome(w, true)
    else SupersedeFrom(w, run, p, TrackedRuns(w), now)
  }

  function StartRun(opts: Options, w: World, run: Run, p: Plan): Outcome {
    if p.jobs == [] || run.createdAt == 0 then Outcome(w, false)
    else
      var now := run.createdAt;
      var s := SupersedeOlderRuns(w, run, p, now);
      if !s.ok then s
      else
        var held := run.forkPR && opts.requireForkApproval && !run.approved;
        var c := CreateJobs(s.w, run, p.jobs, held);
        var started := run.(status := InProgress,
                            startedAt := if run.startedAt.None? then Some(now) else run.startedAt);
        var put := PutRun(c.(plans := c.plans[run.id := p], origin := c.origin[run.id := p]), started);
        Outcome(Emit(put, Event(RunStarted, run.id, 0, 0, now, 0)), true)
  }

  function ApproveFrom(w: World, jobs: seq<Job>, i: nat): World
    decreases |jobs| - i
  {
    if i >= |jobs| then w
    else if !jobs[i].awaitingApproval then ApproveFrom(w, jobs, i + 1)
    else ApproveFrom(PutJob(w, jobs[i].(awaitingApproval := false, status := Queued)), jobs, i + 1)
  }

  function Approve(w: World, runID: int, actor: string, now: int): Outcome {
    if actor == "" || runID !in w.runs then Outcome(w, false)
    else
      var put := PutRun(w, w.runs[runID].(approved := true));
      Outcome(Emit(ApproveFrom(put, JobsOf(put, runID), 0), Event(RunStarted, runID, 0, 0, now, 0)), true)
  }

  // ----------------------------------------------------------------- Needs

  datatype NeedsOutcome = NeedsError | NeedsOk(state: NeedsState)

  /** A leg's conclusion as its dependents see it. */
  function Gating(l: Job): Conclusion {
    if l.conclusion.IsFailure() && l.continueOnError then Success else l.conclusion
  }

  function GatingConclusions(legs: seq<Job>): (cs: seq<Conclusion>)
    ensures |cs| == |legs|
    ensures forall k :: 0 <= k < |legs| ==> cs[k] == Gating(legs[k])
  {
    if legs == [] then [] else [Gating(legs[0])] + GatingConclusions(legs[1..])
  }

  function MergeOutputs(legs: seq<Job>): map<string, string>
    decreases |legs|
  {
    if legs == [] then map[] else MergeOutputs(legs[..|legs| - 1]) + legs[|legs| - 1].outputs
  }

  function AddNeed(st: NeedsState, key: string, legs: seq<Job>): NeedsState {
    var result := NeedsResult(GatingConclusions(legs));
    st.(context := st.context[key := NeedEntry(MergeOutputs(legs), result)],
        success := st.success && result == NeedSuccess,
        failure := st.failure || result == NeedFailure,
        cancelled := st.cancelled || result == NeedCancelled)
  }

  function NeedsFrom(needs: seq<string>, jobs: seq<Job>, st: NeedsState): NeedsOutcome
    decreases |needs|
  {
    if needs == [] then NeedsOk(st)
    else
      var legs := LegsOf(jobs, needs[0]);
      if legs == [] then NeedsError
      else if !AllCompleted(legs) then NeedsOk(st.(ready := false))
      else NeedsFrom(needs[1..], jobs, AddNeed(st, needs[0], legs))
  }

  const NoNeeds := NeedsState(true, map[], true, false, false)

  function ComputeNeeds(pj: PlannedJob, jobs: seq<Job>, runCancelled: bool): NeedsOutcome {
    var n := NeedsFrom(pj.needs, jobs, NoNeeds);
    if n.NeedsError? || !n.state.ready || !runCancelled then n
    else NeedsOk(n.state.(success := false, cancelled := true))
  }

  function ShouldRun(opts: Options, p: Plan, pj: PlannedJob, needs: NeedsState): Option<bool> {
    if pj.cond == "" then Some(needs.success)
    else
      match opts.eval(p, pj, needs)
      case None => None
      case Some(value) => Some(if pj.namesStatus then value else value && needs.success)
  }

  // ------------------------------------------------------------- Admission

  function HoldForGroup(w: World, j: Job, now: int): Finished {
    if j.status.Waiting? then Finished(w, j, true)
    else
      var held := j.(status := Waiting);
      Finished(Emit(PutJob(w, held), JobEvent(JobWaiting, held, now)), held, true)
  }

  function HoldersOf(live: seq<Job>, id: int): (hs: seq<Job>)
    ensures forall h :: h in hs <==> h in live && h.id != id && Holds(h)
  {
    if live == [] then []
    else (if live[0].id != id && Holds(live[0]) then [live[0]] else []) + HoldersOf(live[1..], id)
  }

  function DisplaceAll(w: World, holders: seq<Job>, now: int): World
    decreases |holders|
  {
    if holders == [] then w
    else
      var f := StopJob(w, None, holders[0], Because(ActorConcurrencyGroup), Cancelled, ClassNone, now, false);
      DisplaceAll(f.w, holders[1..], now)
  }

  datatype GroupDecision = GroupDecision(w: World, job: Job, taken: set<string>, admitted: bool)

  function AdmitToGroup(w: World, j: Job, pj: PlannedJob, taken: set<string>, now: int): GroupDecision {
    if j.group == "" then GroupDecision(w, j, taken, true)
    else if j.group in taken then
      var h := HoldForGroup(w, j, now);
      GroupDecision(h.w, h.job, taken, false)
    else
      var holders := HoldersOf(LiveBelow(w.jobs, w.nextJob, j.group), j.id);
      if holders != [] && !pj.cancelInProgress then
        var h := HoldForGroup(w, j, now);
        GroupDecision(h.w, h.job, taken, false)
      else GroupDecision(DisplaceAll(w, holders, now), j, taken + {j.group}, true)
  }

  function AdmitToQueue(w: World, j: Job, now: int): Finished {
    var queued := j.(status := Queued, queuedAt := Some(now));
    Finished(Emit(Enqueue(PutJob(w, queued), queued, now, None), JobEvent(JobQueued, queued, now)), queued, true)
  }

  const SkipResult := Result(Skipped, ClassNone, "", None, None)

  function Count(m: map<string, int>, key: string): int {
    if key in m then m[key] else 0
  }

  /** The state of one admission pass: the list read at its start, the slots and
      groups taken so far. */
  datatype Admission = Admission(w: World, jobs: seq<Job>, inFlight: map<string, int>, taken: set<string>, ok: bool)

  /** A job that is to run takes a max-parallel slot and its group, or waits. */
  function Place(i: nat, pj: PlannedJob, a: Admission, now: int): (r: Admission)
    requires i < |a.jobs|
    ensures |r.jobs| == |a.jobs|
  {
    var j := a.jobs[i];
    if pj.maxParallel > 0 && Count(a.inFlight, j.key) >= pj.maxParallel then a
    else
      var g := AdmitToGroup(a.w, j, pj, a.taken, now);
      if !g.admitted then a.(w := g.w, jobs := a.jobs[i := g.job], taken := g.taken)
      else
        var f := AdmitToQueue(g.w, g.job, now);
        Admission(f.w, a.jobs[i := f.job], a.inFlight[j.key := Count(a.inFlight, j.key) + 1], g.taken, a.ok)
  }

  function AdmitOne(opts: Options, run: Run, p: Plan, i: nat, a: Admission, now: int): (r: Admission)
    requires i < |a.jobs|
    ensures |r.jobs| == |a.jobs|
  {
    var j := a.jobs[i];
    if !Pending(j) then a
    else
      var found := Find(p.jobs, j.key, j.matrixKey);
      if found.None? then a.(ok := false)
      else
        var pj := found.value;
        var needs := ComputeNeeds(pj, a.jobs, run.cancel.Some?);
        if needs.NeedsError? then a.(ok := false)
        else if !needs.state.ready then a
        else
          var verdict := ShouldRun(opts, p, pj, needs.state);
          if verdict.None? then a.(ok := false)
          else if !verdict.value then
            var f := FinishAttempt(a.w, Some(pj), j, SkipResult, now, false);
            a.(w := f.w, jobs := a.jobs[i := f.job])
          else Place(i, pj, a, now)
  }

  function AdmitFrom(opts: Options, run: Run, p: Plan, i: nat, a: Admission, now: int): Admission
    decreases |a.jobs| - i
  {
    if i >= |a.jobs| then a
    else
      var next := AdmitOne(opts, run, p, i, a, now);
      if !next.ok then next else AdmitFrom(opts, run, p, i + 1, next, now)
  }

  function CountInFlight(jobs: seq<Job>): map<string, int>
    decreases |jobs|
  {
    if jobs == [] then map[]
    else
      var rest := CountInFlight(jobs[..|jobs| - 1]);
      var j := jobs[|jobs| - 1];
      if InFlight(j) then rest[j.key := Count(rest, j.key) + 1] else rest
  }

  /** An older unfinished run holds this run's group. */
  predicate HeldBy(w: World, run: Run, p: Plan, other: int) {
    other != run.id && other in w.plans && w.plans[other].runGroup == p.runGroup
    && other in w.runs && !w.runs[other].status.Completed?
    && (w.runs[other].createdAt < run.createdAt
        || (w.runs[other].createdAt == run.createdAt && other < run.id))
  }

  /** None when a tracked run of the same group has no row. */
  function BlockedFrom(w: World, run: Run, p: Plan, others: seq<int>): Option<bool>
    decreases |others|
  {
    if others == [] then Some(false)
    else if others[0] == run.id || others[0] !in w.plans || w.plans[others[0]].runGroup != p.runGroup
    then BlockedFrom(w, run, p, others[1..])
    else if others[0] !in w.runs then None
    else if HeldBy(w, run, p, others[0]) then Some(true)
    else BlockedFrom(w, run, p, others[1..])
  }

  function RunGroupBlocked(w: World, run: Run, p: Plan): Option<bool> {
    if p.runGroup == "" || p.runCancelInProgress then Some(false)
    else BlockedFrom(w, run, p, TrackedRuns(w))
  }

  function AdmitReadyJobs(opts: Options, w: World, run: Run, p: Plan, jobs: seq<Job>, now: int): Admission {
    var blocked := RunGroupBlocked(w, run, p);
    if blocked.None? then Admission(w, jobs, map[], {}, false)
    else if blocked.value then Admission(w, jobs, map[], {}, true)
    else AdmitFrom(opts, run, p, 0, Admission(w, jobs, CountInFlight(jobs), {}, true), now)
  }

  // -------------------------------------------------------------- Timeouts

  /** What a sweep over a run's jobs leaves: the state and the list it walked. */
  datatype Sweep = Sweep(w: World, jobs: seq<Job>, ok: bool)

  function StepsOf(w: World, id: int, attempt: int): seq<Step> {
    if (id, attempt) in w.steps then w.steps[(id, attempt)] else []
  }

  predicate StepOverdue(s: Step, budgets: map<int, int>, now: int) {
    s.status.InProgress? && s.startedAt.Some?
    && s.number in budgets && budgets[s.number] > 0
    && now - s.startedAt.value > budgets[s.number]
  }

  predicate SomeStepOverdue(w: World, j: Job, now: int) {
    j.id in w.stepTimeouts
    && exists s :: s in StepsOf(w, j.id, j.attempt) && StepOverdue(s, w.stepTimeouts[j.id], now)
  }

  function JobBudget(opts: Options, j: Job): int {
    if j.timeoutMinutes == 0 then opts.defaultJobTimeout else j.timeoutMinutes * 60_000_000_000
  }

  function EnforceJobTimeout(opts: Options, w: World, j: Job, now: int): Finished {
    if !j.status.InProgress? || j.startedAt.None? then Finished(w, j, true)
    else
      var elapsed := now - j.startedAt.value;
      if j.setupCompletedAt.None? && elapsed > opts.setupTimeout then
        var pj := if j.runID in w.plans then Find(w.plans[j.runID].jobs, j.key, j.matrixKey) else None;
        if pj.None? then Finished(w, j, false)
        else StopJob(w, pj, j, Because(ActorTimeout), InfraFailure, ClassInfra, now, true)
      else if SomeStepOverdue(w, j, now) || elapsed > JobBudget(opts, j) then
        StopJob(w, None, j, Because(ActorTimeout), TimedOut, ClassUser, now, false)
      else Finished(w, j, true)
  }

  function TimeoutsFrom(opts: Options, w: World, jobs: seq<Job>, i: nat, now: int): (s: Sweep)
    ensures |s.jobs| == |jobs|
    decreases |jobs| - i
  {
    if i >= |jobs| then Sweep(w, jobs, true)
    else
      var f := EnforceJobTimeout(opts, w, jobs[i], now);
      if !f.ok then Sweep(w, jobs, false)
      else TimeoutsFrom(opts, f.w, jobs[i := f.job], i + 1, now)
  }

  predicate RunOverdue(opts: Options, run: Run, now: int) {
    var start := if run.startedAt.Some? then run.startedAt.value else run.createdAt;
    start != 0 && now - start > opts.runTimeout
  }

  datatype RunSweep = RunSweep(w: World, run: Run, jobs: seq<Job>)

  function EnforceRunTimeout(opts: Options, w: World, run: Run, jobs: seq<Job>, now: int): RunSweep {
    if !RunOverdue(opts, run, now) then RunSweep(w, run, jobs)
    else
      var s := StopFrom(w, jobs, 0, Because(ActorTimeout), TimedOut, ClassUser, now);
      var f := FinalizeIfComplete(s.0, run.(cancel := Some(Because(ActorTimeout))), s.1, now);
      RunSweep(f.w, f.run, s.1)
  }

  // ------------------------------------------------------------- Fail-fast

  predicate FailedLeg(l: Job) {
    l.status.Completed? && l.conclusion.IsFailure() && !l.continueOnError
  }

  predicate FailsFast(p: Plan, jobs: seq<Job>, key: string) {
    var legs := LegsOf(jobs, key);
    |legs| >= 2
    && (var pj := Find(p.jobs, key, legs[0].matrixKey); pj.Some? && pj.value.failFast)
    && exists l :: l in legs && FailedLeg(l)
  }

  function CancelLegsFrom(w: World, jobs: seq<Job>, key: string, k: nat, now: int): (s: Sweep)
    ensures |s.jobs| == |jobs| && s.ok
    decreases |jobs| - k
  {
    if k >= |jobs| then Sweep(w, jobs, true)
    else if jobs[k].key != key || jobs[k].status.Completed? then CancelLegsFrom(w, jobs, key, k + 1, now)
    else
      var f := StopJob(w, None, jobs[k], Because(ActorDependencyFailed), Cancelled, ClassNone, now, false);
      CancelLegsFrom(f.w, jobs[k := f.job], key, k + 1, now)
  }

  /** The workflow job keys of a list, each once, in order of first appearance. */
  function KeysOf(jobs: seq<Job>): (keys: seq<string>)
    ensures forall k :: k in keys <==> exists j :: j in jobs && j.key == k
    decreases |jobs|
  {
    if jobs == [] then []
    else
      var j := jobs[|jobs| - 1];
      var rest := KeysOf(jobs[..|jobs| - 1]);
      assert jobs == jobs[..|jobs| - 1] + [j];
      if j.key in rest then rest else rest + [j.key]
  }

  function FailFastFrom(w: World, p: Plan, jobs: seq<Job>, keys: seq<string>, now: int): (s: Sweep)
    ensures |s.jobs| == |jobs| && s.ok
    decreases |keys|
  {
    if keys == [] then Sweep(w, jobs, true)
    else if !FailsFast(p, jobs, keys[0]) then FailFastFrom(w, p, jobs, keys[1..], now)
    else
      var s := CancelLegsFrom(w, jobs, keys[0], 0, now);
      FailFastFrom(s.w, p, s.jobs, keys[1..], now)
  }

  // ------------------------------------------------------------------ Tick

  function ReapEach(w: World, reaped: seq<Job>, now: int): World
    decreases |reaped|
  {
    if reaped == [] then w
    else
      var j := reaped[0];
      var next := NextAttempt(j, now);
      var put := ForgetStepTimeouts(PutJob(w, next), j.id);
      ReapEach(Emit(Enqueue(put, next, now, None), JobEvent(Requeued, next, now)), reaped[1..], now)
  }

  function ForgetPlan(w: World, runID: int): World {
    w.(plans := w.plans - {runID})
  }

  function TickRun(opts: Options, w: World, runID: int, now: int): Outcome {
    if runID !in w.runs then Outcome(w, false)
    else if w.runs[runID].status.Completed? then Outcome(ForgetPlan(w, runID), true)
    else if runID !in w.plans then Outcome(w, false)
    else
      var run, p, jobs := w.runs[runID], w.plans[runID], JobsOf(w, runID);
      var r := EnforceRunTimeout(opts, w, run, jobs, now);
      if r.run.status.Completed? then Outcome(r.w, true)
      else
        var t := TimeoutsFrom(opts, r.w, r.jobs, 0, now);
        if !t.ok then Outcome(t.w, false)
        else
          var f := FailFastFrom(t.w, p, t.jobs, KeysOf(t.jobs), now);
          var a := AdmitReadyJobs(opts, f.w, r.run, p, f.jobs, now);
          if !a.ok then Outcome(a.w, false)
          else Outcome(FinalizeIfComplete(a.w, r.run, a.jobs, now).w, true)
  }

  function TickRuns(opts: Options, w: World, ids: seq<int>, now: int): Outcome
    decreases |ids|
  {
    if ids == [] then Outcome(w, true)
    else
      var t := TickRun(opts, w, ids[0], now);
      if !t.ok then t else TickRuns(opts, t.w, ids[1..], now)
  }

  function ReapExpiredLeases(w: World, now: int): World {
    ReapEach(DropExpiredLeases(w, now), ReapedBelow(w, w.nextJob, now), now)
  }

  function Tick(opts: Options, w: World, now: int): Outcome {
    if now == 0 then Outcome(w, false)
    else
      var reaped := ReapExpiredLeases(w, now);
      TickRuns(opts, reaped, TrackedRuns(reaped), now)
  }

  // -------------------------------------------------------------- Dispatch

  function RememberStepTimeouts(w: World, id: int, budgets: map<int, int>): World {
    if budgets == map[] then w else w.(stepTimeouts := w.stepTimeouts[id := budgets])
  }

  function HandedTo(opts: Options, j: Job, runner: string, now: int): Job {
    j.(status := InProgress, runnerID := runner, leaseExpiresAt := Some(now + opts.leaseTTL),
       startedAt := if j.startedAt.None? then Some(now) else j.startedAt)
  }

  /** The writes of a dispatch: a fork's restriction on record, the step budgets
      remembered, the row taken by the runner. */
  function HandOut(opts: Options, w: World, runner: string, id: int, now: int, budgets: map<int, int>): World
    requires id in w.jobs && w.jobs[id].runID in w.runs
  {
    var j := w.jobs[id];
    var noted := if w.runs[j.runID].forkPR then Emit(w, JobEvent(Restricted, j, now)) else w;
    var kept := RememberStepTimeouts(noted, id, budgets);
    var running := HandedTo(opts, j, runner, now);
    Emit(PutJob(kept, running), JobEvent(Dispatched, running, now))
  }

  /** The assignment is built before the job is written; built is false when
      building it fails, and budgets are the step budgets it computed. */
  function Dispatch(opts: Options, w: World, runner: string, id: int, now: int,
                    built: bool, budgets: map<int, int>): Outcome
    requires id in w.jobs
  {
    var j := w.jobs[id];
    if j.runID !in w.runs || j.runID !in w.plans then Outcome(w, false)
    else
      var pj := Find(w.plans[j.runID].jobs, j.key, j.matrixKey);
      if pj.None? then Outcome(w, false)
      else if ComputeNeeds(pj.value, JobsOf(w, j.runID), w.runs[j.runID].cancel.Some?).NeedsError? || !built
      then Outcome(w, false)
      else Outcome(HandOut(opts, w, runner, id, now, budgets), true)
  }

  /** A claimed job that had already concluded must not start now. */
  predicate Withdrawn(j: Job) {
    j.status.Completed? || j.conclusion != NoConclusion
  }

  /** Why its claim goes: what it was stopped for, or the control plane's own reason. */
  function WithdrawalReason(j: Job): CancelReason {
    if j.cancel.Some? then j.cancel.value else Because(ActorShutdown)
  }

  /** One round of Acquire: claim an eligible row, withdraw the claim on a job that
      has already concluded, dispatch any other. */
  function Acquire(opts: Options, w: World, runner: string, labels: seq<string>, id: int, now: int,
                   built: bool, budgets: map<int, int>): Outcome
  {
    if runner == "" || !Eligible(w, id, labels, now) then Outcome(w, false)
    else
      var claimed := Dequeue(w, runner, id, now, opts.leaseTTL);
      if Withdrawn(claimed.jobs[id])
      then Outcome(if WithdrawalReason(claimed.jobs[id]).Valid() then ReleaseLease(claimed, id) else claimed, false)
      else Dispatch(opts, claimed, runner, id, now, built, budgets)
  }

  predicate Leases(w: World, runner: string, id: int) {
    id in w.queue && id in w.jobs && w.queue[id].leased && w.queue[id].runnerID == runner
  }

  function Heartbeat(w: World, runner: string, id: int, now: int, ttl: int): Outcome {
    if !Leases(w, runner, id) then Outcome(w, false)
    else
      Outcome(w.(queue := w.queue[id := w.queue[id].(leaseExpiresAt := now + ttl)],
                 jobs := w.jobs[id := w.jobs[id].(leaseExpiresAt := Some(now + ttl))]), true)
  }

  function ReleaseJob(w: World, runner: string, id: int, reason: CancelReason, now: int): Outcome {
    if !reason.Valid() || !Leases(w, runner, id) then Outcome(w, false)
    else Outcome(Emit(ReleaseLease(w, id), JobEvent(Released, w.jobs[id], now)), true)
  }

  // ------------------------------------------------------------ Completion

  function JobCompletedAt(w: World, id: int, res: Result, now: int): Outcome {
    if id !in w.jobs then Outcome(w, false)
    else if w.jobs[id].status.Completed? then Outcome(w, true)
    else
      var j := w.jobs[id];
      var pj := if j.runID in w.plans then Find(w.plans[j.runID].jobs, j.key, j.matrixKey) else None;
      if pj.None? then Outcome(w, false)
      else
        var f := FinishAttempt(w, pj, j, res, now, true);
        Outcome(f.w, f.ok)
  }

  /** The guard every write of a runner goes through; attempt 0 asks for none in
      particular. */
  predicate HoldsJob(w: World, runner: string, id: int, attempt: int) {
    runner != "" && id in w.jobs && w.jobs[id].runnerID == runner
    && (attempt == 0 || w.jobs[id].attempt == attempt)
  }

  function Report(w: World, runner: string, id: int, attempt: int, res: Result, now: int): Outcome {
    if !HoldsJob(w, runner, id, attempt) then Outcome(w, false)
    else if (res.conclusion == Cancelled && res.cancel.None?) || (res.cancel.Some? && !res.cancel.value.Valid())
    then Outcome(w, false)
    else JobCompletedAt(w, id, res, now)
  }

  function SetupCompleted(w: World, runner: string, id: int, attempt: int, at: int): Outcome {
    if !HoldsJob(w, runner, id, attempt) then Outcome(w, false)
    else if w.jobs[id].setupCompletedAt.Some? then Outcome(w, true)
    else
      var j := w.jobs[id].(setupCompletedAt := Some(at));
      Outcome(Emit(PutJob(w, j), JobEvent(SetupDone, j, at)), true)
  }

  // ----------------------------------------------------------------- Rerun

  predicate NeedsOneOf(pj: PlannedJob, keys: set<string>) {
    exists n :: n in pj.needs && n in keys
  }

  /** One pass over the plan: a job joins as soon as something it needs is in. */
  function ExpandPass(jobs: seq<PlannedJob>, keys: set<string>): (r: set<string>)
    ensures keys <= r
    ensures forall k :: k in r && k !in keys ==> exists pj :: pj in jobs && pj.key == k
    decreases |jobs|
  {
    if jobs == [] then keys
    else if NeedsOneOf(jobs[0], keys) then ExpandPass(jobs[1..], keys + {jobs[0].key})
    else ExpandPass(jobs[1..], keys)
  }

  function PlanKeys(jobs: seq<PlannedJob>): set<string> {
    set pj | pj in jobs :: pj.key
  }

  function ExpandDependents(jobs: seq<PlannedJob>, keys: set<string>): (r: set<string>)
    decreases PlanKeys(jobs) - keys
  {
    var next := ExpandPass(jobs, keys);
    if next == keys then keys
    else
      assert PlanKeys(jobs) - next < PlanKeys(jobs) - keys by {
        var k :| k in next && k !in keys;
        assert k in PlanKeys(jobs) - keys && k !in PlanKeys(jobs) - next;
      }
      ExpandDependents(jobs, next)
  }

  datatype Selection = All | NotSuccessful | Only(id: int)

  predicate Selected(sel: Selection, j: Job) {
    match sel
    case All => true
    case NotSuccessful => j.conclusion != Success
    case Only(id) => j.id == id
  }

  function SelectedKeys(jobs: seq<Job>, sel: Selection): set<string> {
    set j | j in jobs && Selected(sel, j) :: j.key
  }

  function ResetJob(j: Job): Job {
    j.(attempt := j.attempt + 1, status := Queued, conclusion := NoConclusion, fault := ClassNone, cancel := None,
       outputs := map[], runnerID := "", leaseExpiresAt := None, queuedAt := None, startedAt := None,
       setupCompletedAt := None, completedAt := None, infraRetryCount := 0)
  }

  function ResetFrom(w: World, p: Plan, jobs: seq<Job>, keys: set<string>, i: nat, now: int): Outcome
    decreases |jobs| - i
  {
    if i >= |jobs| then Outcome(w, true)
    else if jobs[i].key !in keys then ResetFrom(w, p, jobs, keys, i + 1, now)
    else if Find(p.jobs, jobs[i].key, jobs[i].matrixKey).None? then Outcome(w, false)
    else
      var j := ResetJob(jobs[i]);
      ResetFrom(Emit(ForgetStepTimeouts(PutJob(w, j), j.id), JobEvent(RerunAsked, j, now)), p, jobs, keys, i + 1, now)
  }

  function RerunKeys(w: World, runID: int, sel: Selection): set<string>
    requires runID in w.plans
  {
    ExpandDependents(w.plans[runID].jobs, SelectedKeys(JobsOf(w, runID), sel))
  }

  function Reopened(run: Run): Run {
    run.(attempt := run.attempt + 1, status := InProgress, conclusion := NoConclusion, cancel := None, completedAt := None)
  }

  function Rerun(w: World, runID: int, actor: string, sel: Selection, now: int): Outcome {
    if actor == "" || runID !in w.runs || runID !in w.plans then Outcome(w, false)
    else if SelectedKeys(JobsOf(w, runID), sel) == {} then Outcome(w, false)
    else
      var run, p := w.runs[runID], w.plans[runID];
      var r := ResetFrom(w, p, JobsOf(w, runID), RerunKeys(w, runID, sel), 0, now);
      if !r.ok then r
      else
        var put := PutRun(r.w, Reopened(run));
        Outcome(Emit(put.(plans := put.plans[runID := p]), Event(RerunAsked, runID, 0, 0, now, 0)), true)
  }

  function RegisterPlan(w: World, runID: int, p: Plan): Outcome {
    if p.jobs == [] then Outcome(w, false) else Outcome(w.(plans := w.plans[runID := p]), true)
  }

  // --------------------------------------------------------------- Actions

  datatype Action =
    | ActCreateRun(createdAt: int, forkPR: bool)
    | ActStartRun(runID: int, plan: Plan)
    | ActApprove(runID: int, actor: string, now: int)
    | ActTick(now: int)
    | ActAcquire(runner: string, labels: seq<string>, id: int, now: int, built: bool, budgets: map<int, int>)
    | ActHeartbeat(runner: string, id: int, now: int, ttl: int)
    | ActRelease(runner: string, id: int, reason: CancelReason, now: int)
    | ActReport(runner: string, id: int, attempt: int, res: Result, now: int)
    | ActSetupCompleted(runner: string, id: int, attempt: int, now: int)
    | ActRecordSteps(id: int, attempt: int, steps: seq<Step>)
    | ActCancelRun(runID: int, reason: CancelReason, now: int)
    | ActCancelJob(id: int, reason: CancelReason, now: int)
    | ActRerun(runID: int, actor: string, sel: Selection, now: int)
    | ActRegisterPlan(runID: int, plan: Plan)
    | ActRestart

  function CreateRun(w: World, createdAt: int, forkPR: bool): World {
    var run := Run(w.nextRun, 1, createdAt, forkPR, false, Queued, NoConclusion, None, None, None);
    w.(runs := w.runs[run.id := run], nextRun := w.nextRun + 1)
  }

  function Apply(opts: Options, w: World, a: Action): World {
    match a
    case ActCreateRun(createdAt, forkPR) => CreateRun(w, createdAt, forkPR)
    case ActStartRun(runID, plan) => if runID in w.runs then StartRun(opts, w, w.runs[runID], plan).w else w
    case ActApprove(runID, actor, now) => Approve(w, runID, actor, now).w
    case ActTick(now) => Tick(opts, w, now).w
    case ActAcquire(runner, labels, id, now, built, budgets) => Acquire(opts, w, runner, labels, id, now, built, budgets).w
    case ActHeartbeat(runner, id, now, ttl) => Heartbeat(w, runner, id, now, ttl).w
    case ActRelease(runner, id, reason, now) => ReleaseJob(w, runner, id, reason, now).w
    case ActReport(runner, id, attempt, res, now) => Report(w, runner, id, attempt, res, now).w
    case ActSetupCompleted(runner, id, attempt, now) => SetupCompleted(w, runner, id, attempt, now).w
    case ActRecordSteps(id, attempt, steps) => w.(steps := w.steps[(id, attempt) := steps])
    case ActCancelRun(runID, reason, now) => CancelRun(w, runID, reason, now).w
    case ActCancelJob(id, reason, now) => CancelJob(w, id, reason, now).w
    case ActRerun(runID, actor, sel, now) => Rerun(w, runID, actor, sel, now).w
    case ActRegisterPlan(runID, plan) => RegisterPlan(w, runID, plan).w
    case ActRestart => w.(plans := map[], stepTimeouts := map[])
  }
}
