/** Histories of one job that break a promise: each is a list of legal steps from an empty
    control plane, followed step by step to the state in which the promise fails. */
module Traces {
  import opened Model
  import opened Retry
  import opened Entities
  import opened Steps
  import opened Invariants
  import opened Moves
  import opened Attempts
  import opened EntryPoints
  import opened Settling
  import opened Unchanged
  import opened Idempotence
  import opened RunEntry
  import opened Reruns
  import opened Safety

  // ------------------------------------------------------------ Runs of one job

  function One(key: string, group: string): PlannedJob {
    PlannedJob(key, "", [], [], "", false, RetryPolicy(1, [], BackoffNone, 0, 0), group, false, false, 0, false, 0)
  }

  function Solo(pj: PlannedJob): Plan {
    Plan([pj], "", false)
  }

  function Started(run: Run): Run {
    run.(status := InProgress, startedAt := if run.startedAt.None? then Some(run.createdAt) else run.startedAt)
  }

  /** w after the run has been started with a plan of one job. */
  function StartedSolo(w: World, run: Run, pj: PlannedJob, held: bool): World {
    w.(jobs := w.jobs[w.nextJob := NewJob(w.nextJob, run, pj, held)],
       nextJob := w.nextJob + 1,
       plans := w.plans[run.id := Solo(pj)],
       origin := w.origin[run.id := Solo(pj)],
       runs := w.runs[run.id := Started(run)],
       events := w.events + [Event(RunStarted, run.id, 0, 0, run.createdAt, 0)])
  }

  lemma StartSolo(opts: Options, w: World, run: Run, pj: PlannedJob)
    requires run.createdAt != 0
    ensures StartRun(opts, w, run, Solo(pj))
         == Outcome(StartedSolo(w, run, pj, run.forkPR && opts.requireForkApproval && !run.approved), true)
  {
    var held := run.forkPR && opts.requireForkApproval && !run.approved;
    var j := NewJob(w.nextJob, run, pj, held);
    var mid := w.(jobs := w.jobs[j.id := j], nextJob := w.nextJob + 1);
    assert [pj][1..] == [];
    assert CreateJobs(mid, run, [], held) == mid;
    assert CreateJobs(w, run, [pj], held) == mid;
  }

  lemma SoloIsWellFormed(pj: PlannedJob)
    requires pj.retry.attempts >= 1
    ensures WellFormedPlan(Solo(pj))
  {
    assert pj in Solo(pj).jobs;
  }

  /** A tracked run whose only job waits for nothing but its group. */
  ghost predicate Waits(opts: Options, w: World, r: int, pj: PlannedJob, j: Job, now: int) {
    && r in w.runs && !w.runs[r].status.Completed? && w.runs[r].cancel.None? && !RunOverdue(opts, w.runs[r], now)
    && r in w.plans && w.plans[r] == Solo(pj) && pj == One(pj.key, pj.group)
    && JobsOf(w, r) == [j] && j.key == pj.key && j.matrixKey == "" && Pending(j) && !j.status.InProgress?
  }

  function Placed(w: World, j: Job, pj: PlannedJob, now: int): Finished {
    var g := AdmitToGroup(w, j, pj, {}, now);
    if g.admitted then AdmitToQueue(g.w, g.job, now) else Finished(g.w, g.job, true)
  }

  lemma PlacedIsUnfinished(w: World, j: Job, pj: PlannedJob, now: int)
    requires !j.status.Completed?
    ensures !Placed(w, j, pj, now).job.status.Completed?
  {
    hide LiveBelow, HoldersOf, DisplaceAll;
  }

  lemma OneLegDoesNotFailFast(w: World, p: Plan, j: Job, now: int)
    ensures FailFastFrom(w, p, [j], KeysOf([j]), now) == Sweep(w, [j], true)
  {
    assert [j][..0] == [];
    assert KeysOf([j]) == [j.key];
    assert [j][1..] == [];
    assert |LegsOf([j], j.key)| == 1;
    assert [j.key][1..] == [];
    assert FailFastFrom(w, p, [j], [], now) == Sweep(w, [j], true);
  }

  lemma IdleIsNotTimedOut(opts: Options, w: World, j: Job, now: int)
    requires !j.status.InProgress?
    ensures TimeoutsFrom(opts, w, [j], 0, now) == Sweep(w, [j], true)
  {
    assert EnforceJobTimeout(opts, w, j, now) == Finished(w, j, true);
    assert [j][0 := j] == [j];
    assert TimeoutsFrom(opts, w, [j], 1, now) == Sweep(w, [j], true);
  }

  lemma SoloPass(opts: Options, w: World, r: int, pj: PlannedJob, j: Job, now: int)
    requires Waits(opts, w, r, pj, j, now)
    ensures var a := AdmitReadyJobs(opts, w, w.runs[r], Solo(pj), [j], now);
      a.ok && a.w == Placed(w, j, pj, now).w && a.jobs == [Placed(w, j, pj, now).job]
  {
    hide AdmitToGroup, AdmitToQueue, CountInFlight;
    var run, p := w.runs[r], Solo(pj);
    var start := Admission(w, [j], CountInFlight([j]), {}, true);
    assert Find(p.jobs, j.key, j.matrixKey) == Some(pj);
    assert ComputeNeeds(pj, [j], false) == NeedsOk(NoNeeds);
    var one := AdmitOne(opts, run, p, 0, start, now);
    assert one == Place(0, pj, start, now);
    assert [j][0 := Placed(w, j, pj, now).job] == [Placed(w, j, pj, now).job];
    assert AdmitFrom(opts, run, p, 1, one, now) == one;
  }

  lemma SoloTick(opts: Options, w: World, r: int, pj: PlannedJob, j: Job, now: int)
    requires Waits(opts, w, r, pj, j, now)
    ensures TickRun(opts, w, r, now) == Outcome(Placed(w, j, pj, now).w, true)
  {
    hide AdmitReadyJobs, Placed, TimeoutsFrom, FailFastFrom, KeysOf, RunOverdue, JobsOf, EnforceRunTimeout;
    NotOverdue(opts, w, w.runs[r], [j], now);
    IdleIsNotTimedOut(opts, w, j, now);
    OneLegDoesNotFailFast(w, Solo(pj), j, now);
    SoloPass(opts, w, r, pj, j, now);
    PlacedIsUnfinished(w, j, pj, now);
    assert [Placed(w, j, pj, now).job][0] == Placed(w, j, pj, now).job;
  }

  lemma Single(xs: seq<int>, x: int)
    requires (forall k, l :: 0 <= k < l < |xs| ==> xs[k] < xs[l]) && (forall y :: y in xs <==> y == x)
    ensures xs == [x]
  {
    assert x in xs;
    assert xs[0] in xs && xs[|xs| - 1] in xs;
  }

  lemma OneTracked(opts: Options, w: World, r: int, now: int)
    requires now != 0 && 0 < r < w.nextRun && w.plans.Keys == {r} && (forall id :: id in w.queue ==> !w.queue[id].leased)
    ensures Tick(opts, w, now) == TickRun(opts, w, r, now)
  {
    hide TickRun, TickRuns, TrackedBelow, ReapExpiredLeases;
    NothingLeased(w, now);
    TrackedAreThePlans(w.plans, w.nextRun);
    Single(TrackedRuns(w), r);
    OneRunTicks(opts, w, r, now);
  }

  lemma OneRunTicks(opts: Options, w: World, r: int, now: int)
    ensures TickRuns(opts, w, [r], now) == TickRun(opts, w, r, now)
  {
    hide TickRun;
    assert [r][1..] == [];
    var t := TickRun(opts, w, r, now);
    assert TickRuns(opts, t.w, [], now) == Outcome(t.w, true);
  }

  lemma NothingLeased(w: World, now: int)
    requires forall id :: id in w.queue ==> !w.queue[id].leased
    ensures ReapExpiredLeases(w, now) == w
  {
    NothingReaped(w, w.nextJob, now);
    forall id | id in w.queue ensures !Expired(w.queue[id], now) {
    }
    assert DropExpiredLeases(w, now).queue == w.queue;
    assert DropExpiredLeases(w, now).jobs == w.jobs;
  }

  lemma {:induction false} NothingReaped(w: World, n: int, now: int)
    requires forall id :: id in w.queue ==> !w.queue[id].leased
    ensures ReapedBelow(w, n, now) == []
    decreases n
  {
    if n > 0 {
      NothingReaped(w, n - 1, now);
    }
  }

  lemma OnlyJob(w: World, r: int, id: int)
    requires 0 <= id < w.nextJob && id in w.jobs && w.jobs[id].runID == r
    requires forall k :: k in w.jobs && w.jobs[k].runID == r ==> k == id
    ensures JobsOf(w, r) == [w.jobs[id]]
  {
    RosterIs(w.jobs, w.nextJob, r);
    RosterListsTheJobs(w.jobs, w.nextJob, r);
    var roster := Roster(w, r);
    Single(roster, id);
  }

  // --------------------------------------------------- The first steps of them all

  const Build := One("build", "")

  function Fresh(fork: bool): World {
    CreateRun(EmptyWorld, 5, fork)
  }

  function Opened(fork: bool, held: bool): World {
    StartedSolo(Fresh(fork), Fresh(fork).runs[1], Build, held)
  }

  function Opening(fork: bool): seq<Action> {
    [ActCreateRun(5, fork), ActStartRun(1, Solo(Build))]
  }

  lemma FreshIsReached(opts: Options, fork: bool)
    ensures LeadsTo(opts, [ActCreateRun(5, fork)], Fresh(fork))
  {
    hide LeadsTo;
    NothingYet(opts);
    OneMoreStep(opts, [], EmptyWorld, ActCreateRun(5, fork));
    assert [] + [ActCreateRun(5, fork)] == [ActCreateRun(5, fork)];
  }

  lemma OpenedIsReached(opts: Options, fork: bool)
    ensures LeadsTo(opts, Opening(fork), Opened(fork, fork && opts.requireForkApproval))
  {
    hide LeadsTo, StartRun;
    FreshIsReached(opts, fork);
    var w := Fresh(fork);
    StartSolo(opts, w, w.runs[1], Build);
    SoloIsWellFormed(Build);
    OneMoreStep(opts, [ActCreateRun(5, fork)], w, ActStartRun(1, Solo(Build)));
    assert [ActCreateRun(5, fork)] + [ActStartRun(1, Solo(Build))] == Opening(fork);
  }

  lemma CancellingTheJob(w: World, reason: CancelReason, now: int)
    requires 1 in w.jobs && !w.jobs[1].status.Completed? && w.jobs[1].id == 1 && reason.Valid() && w.jobs[1].outputs == map[]
    ensures var w' := CancelJob(w, 1, reason, now).w;
      && w'.jobs == w.jobs[1 := Concluded(w.jobs[1], Imposed(Cancelled, ClassNone, reason), now)]
      && w'.runs == w.runs && w'.nextRun == w.nextRun && w'.plans == w.plans && w'.nextJob == w.nextJob && w'.origin == w.origin
      && w'.queue == w.queue - {1}
  {
  }

  function CancelledSoon(fork: bool, held: bool, reason: CancelReason): World {
    CancelJob(Opened(fork, held), 1, reason, 6).w
  }

  lemma CancelledSoonIsReached(opts: Options, fork: bool, reason: CancelReason)
    ensures LeadsTo(opts, Opening(fork) + [ActCancelJob(1, reason, 6)], CancelledSoon(fork, fork && opts.requireForkApproval, reason))
  {
    hide LeadsTo, CancelJob, Opened;
    OpenedIsReached(opts, fork);
    OneMoreStep(opts, Opening(fork), Opened(fork, fork && opts.requireForkApproval), ActCancelJob(1, reason, 6));
  }

  // ------------------------------------------------------------ What they break

  /** A fork's run is created and started, its held job is cancelled: approving the run now
      puts a concluded job back among the waiting. */
  lemma ApprovingACancelledJobBreaksTheInvariant(opts: Options, reason: CancelReason)
    requires opts.requireForkApproval && reason.Valid()
    ensures LeadsTo(opts, Opening(true) + [ActCancelJob(1, reason, 6)], CancelledSoon(true, true, reason))
    ensures var w := CancelledSoon(true, true, reason);
      !ApproveGuard(w, 1) && !Inv(Approve(w, 1, "maintainer", 7).w)
  {
    hide LeadsTo, Inv, Approve;
    CancelledSoonIsReached(opts, true, reason);
    LedToIsReachable(opts, Opening(true) + [ActCancelJob(1, reason, 6)], CancelledSoon(true, true, reason));
    var w := CancelledSoon(true, true, reason);
    ReachableIsSafe(opts, w);
    CancellingTheJob(Opened(true, true), reason, 6);
    assert w.jobs[1].awaitingApproval && w.jobs[1].status.Completed? && w.jobs[1].runID == 1;
    ApproveIsSafeExactlyWhenNothingHeldWasCancelled(w, 1, "maintainer", 7);
  }

  lemma LedToIsReachable(opts: Options, actions: seq<Action>, w: World)
    requires LeadsTo(opts, actions, w)
    ensures Reachable(opts, w)
  {
  }

  function QueuedSoon(): World {
    Placed(Opened(false, false), Opened(false, false).jobs[1], Build, 10).w
  }

  lemma QueuedSoonIsReached(opts: Options)
    requires opts.runTimeout >= 5
    ensures LeadsTo(opts, Opening(false) + [ActTick(10)], QueuedSoon())
  {
    hide LeadsTo, TickRun, Tick;
    OpenedIsReached(opts, false);
    var w := Opened(false, false);
    OnlyJob(w, 1, 1);
    SoloTick(opts, w, 1, Build, w.jobs[1], 10);
    OneTracked(opts, w, 1, 10);
    OneMoreStep(opts, Opening(false), w, ActTick(10));
  }

  /** A run is created and started and its job queued: re-running what has not succeeded resets
      a job that still has a queue row. */
  lemma RerunningAQueuedJobBreaksTheInvariant(opts: Options)
    requires opts.runTimeout >= 5
    ensures LeadsTo(opts, Opening(false) + [ActTick(10)], QueuedSoon())
    ensures var w := QueuedSoon();
      Rerun(w, 1, "maintainer", NotSuccessful, 11).ok && !RerunGuard(w, 1, NotSuccessful)
      && !Inv(Rerun(w, 1, "maintainer", NotSuccessful, 11).w)
  {
    hide LeadsTo, Inv;
    QueuedSoonIsReached(opts);
    LedToIsReachable(opts, Opening(false) + [ActTick(10)], QueuedSoon());
    var w := QueuedSoon();
    ReachableIsSafe(opts, w);
    QueuedJobIsSelected();
    RerunIsSafeExactlyWhenNothingResetIsQueued(w, 1, "maintainer", NotSuccessful, 11);
  }

  lemma QueuedJobIsSelected()
    ensures var w := QueuedSoon();
      Rerun(w, 1, "maintainer", NotSuccessful, 11).ok && !RerunGuard(w, 1, NotSuccessful)
  {
    hide ExpandDependents;
    var w := QueuedSoon();
    var j := w.jobs[1];
    OnlyJob(w, 1, 1);
    assert [j][0] in [j] && "build" in SelectedKeys([j], NotSuccessful);
    ExpandDependentsIsTheLeastClosure(w.plans[1].jobs, SelectedKeys([j], NotSuccessful));
    var keys := RerunKeys(w, 1, NotSuccessful);
    assert "build" in keys && 1 in w.queue;
    assert Find(w.plans[1].jobs, "build", "") == Some(Build);
    var reset := Emit(ForgetStepTimeouts(PutJob(w, ResetJob(j)), 1), JobEvent(RerunAsked, ResetJob(j), 11));
    assert ResetFrom(reset, w.plans[1], [j], keys, 1, 11) == Outcome(reset, true);
    assert ResetFrom(w, w.plans[1], [j], keys, 0, 11).ok;
  }

  function ClosedSoon(opts: Options, reason: CancelReason): World {
    Tick(opts, CancelledSoon(false, false, reason), 7).w
  }

  /** A run is created and started, its only job cancelled, and the next Tick closes it: the
      run says cancelled and nothing of why. */
  lemma CancellingTheOnlyJobLeavesNoReason(opts: Options, reason: CancelReason)
    requires opts.runTimeout >= 2 && reason.Valid()
    ensures LeadsTo(opts, Opening(false) + [ActCancelJob(1, reason, 6)] + [ActTick(7)], ClosedSoon(opts, reason))
    ensures var w := ClosedSoon(opts, reason);
      1 in w.runs && w.runs[1].status.Completed? && w.runs[1].conclusion == Cancelled && w.runs[1].cancel.None?
  {
    hide LeadsTo, Tick, TickRun, CancelJob;
    CancelledSoonIsReached(opts, false, reason);
    var w := CancelledSoon(false, false, reason);
    OneMoreStep(opts, Opening(false) + [ActCancelJob(1, reason, 6)], w, ActTick(7));
    CancellingTheJob(Opened(false, false), reason, 6);
    var j := w.jobs[1];
    OnlyJob(w, 1, 1);
    OneTracked(opts, w, 1, 7);
    FinishedSoloTick(opts, w, j, 7);
  }

  lemma FinishedSoloTick(opts: Options, w: World, j: Job, now: int)
    requires 1 in w.runs && w.runs[1].id == 1 && !w.runs[1].status.Completed? && w.runs[1].cancel.None? && !RunOverdue(opts, w.runs[1], now)
    requires 1 in w.plans && w.plans[1].runGroup == "" && JobsOf(w, 1) == [j] && j.status.Completed? && j.conclusion == Cancelled
    ensures var w' := TickRun(opts, w, 1, now).w;
      1 in w'.runs && w'.runs[1].status.Completed? && w'.runs[1].conclusion == Cancelled && w'.runs[1].cancel.None?
  {
    hide TimeoutsFrom, FailFastFrom, KeysOf, RunOverdue, JobsOf, EnforceRunTimeout, CountInFlight;
    var run, p := w.runs[1], w.plans[1];
    NotOverdue(opts, w, run, [j], now);
    IdleIsNotTimedOut(opts, w, j, now);
    OneLegDoesNotFailFast(w, p, j, now);
    var start := Admission(w, [j], CountInFlight([j]), {}, true);
    assert AdmitOne(opts, run, p, 0, start, now) == start;
    assert AdmitFrom(opts, run, p, 1, start, now) == start;
    assert AdmitReadyJobs(opts, w, run, p, [j], now) == start;
    assert Conclusions([j]) == [Cancelled] by { assert [j][1..] == []; }
    assert [Cancelled][0] in [Cancelled];
    assert AllCompleted([j]);
  }

  function CancelledFirst(reason: CancelReason): World {
    CancelRun(Fresh(false), 1, reason, 6).w
  }

  lemma CancelledFirstIs(reason: CancelReason)
    requires reason.Valid()
    ensures var w := CancelledFirst(reason);
      && w.runs.Keys == {1} && w.runs[1].cancel.Some? && w.runs[1].id == 1 && w.runs[1].createdAt == 5 && !w.runs[1].forkPR
      && w.jobs == map[] && w.queue == map[] && w.origin == map[] && w.plans == map[] && w.nextJob == 1 && w.nextRun == 2
  {
    assert JobsBelow(map[], 1, 1) == [];
    assert StopFrom(Fresh(false), [], 0, reason, Cancelled, ClassNone, 6) == (Fresh(false), [], true);
  }

  /** A run is created and cancelled before it has a plan: starting it after all leaves a run in
      progress with a reason for its cancellation. */
  lemma StartingACancelledRunBreaksTheInvariant(opts: Options, reason: CancelReason)
    requires reason.Valid()
    ensures LeadsTo(opts, [ActCreateRun(5, false)] + [ActCancelRun(1, reason, 6)], CancelledFirst(reason))
    ensures var w := CancelledFirst(reason);
      && 1 in w.runs && w.runs[1].cancel.Some? && StartRun(opts, w, w.runs[1], Solo(Build)).ok
      && !Inv(StartRun(opts, w, w.runs[1], Solo(Build)).w)
  {
    hide LeadsTo, Inv, StartRun, Reachable;
    FreshIsReached(opts, false);
    OneMoreStep(opts, [ActCreateRun(5, false)], Fresh(false), ActCancelRun(1, reason, 6));
    var w := CancelledFirst(reason);
    ReachableIsSafe(opts, w);
    CancelledFirstIs(reason);
    hide CancelledFirst;
    StartSolo(opts, w, w.runs[1], Build);
    SoloIsWellFormed(Build);
    StartRunIsSafeExactlyWhenNotCancelled(opts, w, 1, Solo(Build));
  }

  // -------------------------------------------------- A group two runs share

  const Early := One("a", "deploys")
  const Late := One("b", "deploys")

  /** Two runs; the one created first is the one started last. */
  const TwoRuns := [ActCreateRun(50, false), ActCreateRun(5, false), ActStartRun(2, Solo(Early)), ActTick(10), ActStartRun(1, Solo(Late))]

  const FirstRun := Run(1, 1, 50, false, false, InProgress, NoConclusion, None, Some(50), None)
  const SecondRun := Run(2, 1, 5, false, false, InProgress, NoConclusion, None, Some(5), None)
  const Holder := NewJob(1, SecondRun, Early, false).(queuedAt := Some(10))
  const Waiter := NewJob(2, FirstRun, Late, false)

  /** The second run's job holds the group the first run's job is about to ask for. */
  const Shared := World(
    map[1 := FirstRun, 2 := SecondRun], 3,
    map[1 := Holder, 2 := Waiter], 3,
    map[1 := Row([], "deploys", 10, 10, false, "", 0)], map[],
    [Event(RunStarted, 2, 0, 0, 5, 0), JobEvent(JobQueued, Holder, 10), Event(RunStarted, 1, 0, 0, 50, 0)],
    map[1 := Solo(Late), 2 := Solo(Early)], map[], map[1 := Solo(Late), 2 := Solo(Early)])

  function TwoCreated(): World {
    CreateRun(CreateRun(EmptyWorld, 50, false), 5, false)
  }

  function SecondStarted(): World {
    StartedSolo(TwoCreated(), TwoCreated().runs[2], Early, false)
  }

  lemma SecondStartedIsReached(opts: Options)
    ensures LeadsTo(opts, [ActCreateRun(50, false), ActCreateRun(5, false), ActStartRun(2, Solo(Early))], SecondStarted())
  {
    hide LeadsTo, StartRun;
    NothingYet(opts);
    OneMoreStep(opts, [], EmptyWorld, ActCreateRun(50, false));
    assert [] + [ActCreateRun(50, false)] == [ActCreateRun(50, false)];
    OneMoreStep(opts, [ActCreateRun(50, false)], CreateRun(EmptyWorld, 50, false), ActCreateRun(5, false));
    assert [ActCreateRun(50, false)] + [ActCreateRun(5, false)] == [ActCreateRun(50, false), ActCreateRun(5, false)];
    var w := TwoCreated();
    StartSolo(opts, w, w.runs[2], Early);
    SoloIsWellFormed(Early);
    OneMoreStep(opts, [ActCreateRun(50, false), ActCreateRun(5, false)], w, ActStartRun(2, Solo(Early)));
    assert [ActCreateRun(50, false), ActCreateRun(5, false)] + [ActStartRun(2, Solo(Early))]
        == [ActCreateRun(50, false), ActCreateRun(5, false), ActStartRun(2, Solo(Early))];
  }

  /** A job whose group nobody holds is queued at once. */
  lemma FreeJobIsQueued(w: World, j: Job, pj: PlannedJob, now: int)
    requires Structure(w) && !GroupIsHeld(w, j)
    ensures Placed(w, j, pj, now) == AdmitToQueue(w, j, now)
  {
    hide Structure, LiveBelow, HoldersOf, AdmitToQueue;
    HeldMeansHolders(w, j);
  }

  lemma FirstTickQueues(opts: Options)
    requires opts.runTimeout >= 5 && Structure(SecondStarted())
    ensures Apply(opts, SecondStarted(), ActTick(10)) == AdmitToQueue(SecondStarted(), SecondStarted().jobs[1], 10).w
  {
    hide TickRun, Structure, Placed, AdmitToQueue, Tick;
    var w := SecondStarted();
    OnlyJob(w, 2, 1);
    SoloTick(opts, w, 2, Early, w.jobs[1], 10);
    OneTracked(opts, w, 2, 10);
    FreeJobIsQueued(w, w.jobs[1], Early, 10);
  }

  lemma SharedIsReached(opts: Options)
    requires opts.runTimeout >= 5
    ensures LeadsTo(opts, TwoRuns, Shared) && Reachable(opts, Shared)
  {
    hide LeadsTo, Inv, Structure, Reachable, Apply, AdmitToQueue, WellFormedPlan;
    SecondStartedIsReached(opts);
    var before := [ActCreateRun(50, false), ActCreateRun(5, false), ActStartRun(2, Solo(Early))];
    var w := SecondStarted();
    LedToIsReachable(opts, before, w);
    ReachableIsSafe(opts, w);
    InvHasStructure(w);
    FirstTickQueues(opts);
    OneMoreStep(opts, before, w, ActTick(10));
    var queued := AdmitToQueue(w, w.jobs[1], 10).w;
    LastStart(opts, queued);
    hide Legal;
    OneMoreStep(opts, before + [ActTick(10)], queued, ActStartRun(1, Solo(Late)));
    assert before + [ActTick(10)] + [ActStartRun(1, Solo(Late))] == TwoRuns;
  }

  lemma LastStart(opts: Options, queued: World)
    requires queued == AdmitToQueue(SecondStarted(), SecondStarted().jobs[1], 10).w
    ensures Legal(queued, ActStartRun(1, Solo(Late))) && Apply(opts, queued, ActStartRun(1, Solo(Late))) == Shared
  {
    hide StartRun, AdmitToQueue;
    QueuedShape(SecondStarted());
    StartSolo(opts, queued, queued.runs[1], Late);
    SoloIsWellFormed(Late);
    var last := StartedSolo(queued, queued.runs[1], Late, false);
    assert last.jobs == Shared.jobs && last.runs == Shared.runs && last.plans == Shared.plans && last.origin == Shared.origin;
  }

  lemma QueuedShape(w: World)
    requires w == SecondStarted()
    ensures AdmitToQueue(w, w.jobs[1], 10).w
         == w.(jobs := map[1 := Holder], queue := Shared.queue, events := w.events + [JobEvent(JobQueued, Holder, 10)])
  {
    var put := PutJob(w, Holder);
    assert put.jobs == map[1 := Holder];
    assert Enqueue(put, Holder, 10, None).queue == Shared.queue;
    assert Enqueue(put, Holder, 10, None).jobs == put.jobs;
  }

  const Held := Waiter.(status := Waiting)

  /** The first run's turn: its job waits, for the second run's job has the group. */
  function AfterFirstTurn(now: int): World {
    Shared.(jobs := map[1 := Holder, 2 := Held], events := Shared.events + [JobEvent(JobWaiting, Held, now)])
  }

  lemma FirstTurn(opts: Options, now: int)
    requires Inv(Shared) && now - 50 <= opts.runTimeout
    ensures TickRun(opts, Shared, 1, now) == Outcome(AfterFirstTurn(now), true)
  {
    hide Inv, Structure, TickRun, LiveBelow, HoldersOf, DisplaceAll;
    InvHasStructure(Shared);
    OnlyJob(Shared, 1, 2);
    SoloTick(opts, Shared, 1, Late, Waiter, now);
    assert Holds(Shared.jobs[1]) && Shared.jobs[1].group == "deploys";
    HeldMeansHolders(Shared, Waiter);
    assert HoldForGroup(Shared, Waiter, now).w == AfterFirstTurn(now) by {
      assert PutJob(Shared, Held).jobs == AfterFirstTurn(now).jobs;
    }
  }

  /** The second run's turn: it is overdue, so its job ends and the group is free again. */
  lemma SecondTurn(opts: Options, now: int)
    requires Inv(AfterFirstTurn(now)) && now - 5 > opts.runTimeout
    ensures var t := TickRun(opts, AfterFirstTurn(now), 2, now);
      && t.ok && t.w.plans == map[1 := Solo(Late)] && t.w.jobs.Keys == {1, 2} && t.w.nextJob == 3 && t.w.nextRun == 3
      && t.w.jobs[2] == Held && t.w.jobs[1].status.Completed? && t.w.jobs[1].runID == 2 && 1 in t.w.runs && t.w.runs[1] == FirstRun
  {
    hide Inv, Structure, OnlyRun, Aged, StopFrom, Exact;
    var w := AfterFirstTurn(now);
    InvHasStructure(w);
    OnlyJob(w, 2, 1);
    ListingIsExact(w, 2);
    OverdueRunIsFinished(opts, w, SecondRun, [Holder], now);
    var t := TickRun(opts, w, 2, now);
    assert t == Outcome(EnforceRunTimeout(opts, w, SecondRun, [Holder], now).w, true);
    OnlyTheSecondRun(w, t.w);
    OverdueRowIsClosed(opts, w, SecondRun, [Holder], now);
    TickRunKeepsInv(opts, w, 2, now);
    RunFacts(t.w, 2);
    assert t.w.jobs[1].runID == 2;
  }

  lemma OnlyTheSecondRun(w: World, w': World)
    requires OnlyRun(w, w', 2) && 2 !in w'.plans && w.plans == map[1 := Solo(Late), 2 := Solo(Early)]
    requires w.jobs.Keys == {1, 2} && w.jobs[2].runID == 1 && 1 in w.runs
    ensures w'.plans == map[1 := Solo(Late)] && w'.jobs.Keys == w.jobs.Keys && w'.nextJob == w.nextJob && w'.nextRun == w.nextRun
    ensures w'.jobs[2] == w.jobs[2] && 1 in w'.runs && w'.runs[1] == w.runs[1] && w'.jobs[1].runID == w.jobs[1].runID
  {
    assert w'.plans.Keys == {1} by {
      forall k ensures k in w'.plans <==> k == 1 {
      }
    }
  }

  lemma OverdueRowIsClosed(opts: Options, w: World, run: Run, jobs: seq<Job>, now: int)
    requires EnforceRunTimeout(opts, w, run, jobs, now).run.status.Completed? && !run.status.Completed?
    ensures var w' := EnforceRunTimeout(opts, w, run, jobs, now).w; run.id in w'.runs && w'.runs[run.id].status.Completed?
  {
    hide StopFrom, Conclusions, RunOverdue;
  }

  lemma WaiterIsNotStuck(opts: Options, w: World, now: int)
    requires w.jobs.Keys == {1, 2} && w.jobs[2] == Held && w.jobs[1].status.Completed? && w.nextJob == 3 && w.jobs[1].runID == 2
    requires 1 in w.runs && w.runs[1] == FirstRun && w.plans == map[1 := Solo(Late)]
    ensures !Quiet(opts, w, 1, now)
  {
    hide RunOverdue, LegsSettled, WithinBudget, CountInFlight, Failing, Stuck, JobsOf, FirstFailing;
    OnlyJob(w, 1, 2);
    var run, p, jobs := FirstRun, Solo(Late), [Held];
    NothingHoldsItBack(opts, w, CountInFlight(jobs));
    var stop := FirstFailing(opts, run, p, jobs, 0);
    assert Pending(jobs[0]) && stop == 1;
    assert !AllStuck(opts, w, 1);
  }

  lemma NothingHoldsItBack(opts: Options, w: World, inFlight: map<string, int>)
    requires w.jobs.Keys == {1, 2} && w.jobs[2] == Held && w.jobs[1].status.Completed?
    ensures !Failing(opts, FirstRun, Solo(Late), [Held], Held)
    ensures !Stuck(opts, FirstRun, Solo(Late), w, [Held], inFlight, Held)
  {
    assert Find(Solo(Late).jobs, "b", "") == Some(Late);
    assert ComputeNeeds(Late, [Held], false) == NeedsOk(NoNeeds);
    assert !GroupIsHeld(w, Held);
  }

  /** A group two runs share unsettles Tick even where nobody cancels in progress: the later run
      in id order gives the group up, in its turn, after the earlier one has looked. The
      second Tick of that instant then acts. */
  lemma TickIsNotIdempotentAcrossRuns(opts: Options, now: int)
    requires opts.runTimeout >= 5 && opts.runTimeout + 5 < now <= opts.runTimeout + 50
    ensures LeadsTo(opts, TwoRuns, Shared)
    ensures var once := Tick(opts, Shared, now); once.ok && Tick(opts, once.w, now).w != once.w
  {
    hide LeadsTo, Inv, TickRun, Reachable, Quiet, Errs;
    SharedIsReached(opts);
    ReachableIsSafe(opts, Shared);
    FirstTurn(opts, now);
    TickRunKeepsInv(opts, Shared, 1, now);
    SecondTurn(opts, now);
    NothingLeased(Shared, now);
    TwoTracked();
    var once := TickRun(opts, AfterFirstTurn(now), 2, now).w;
    assert [1, 2][1..] == [2] && [2][1..] == [];
    assert TickRuns(opts, once, [], now) == Outcome(once, true);
    assert TickRuns(opts, AfterFirstTurn(now), [2], now) == Outcome(once, true);
    assert TickRuns(opts, Shared, [1, 2], now) == Outcome(once, true);
    TickKeepsInv(opts, Shared, now);
    WaiterIsNotStuck(opts, once, now);
    assert Reached(opts, once, 1);
    TickChangesNothingExactlyWhenAllIsQuiet(opts, once, now);
  }

  lemma TwoTracked()
    ensures TrackedRuns(Shared) == [1, 2]
  {
    assert TrackedBelow(Shared.plans, 1) == [];
    assert TrackedBelow(Shared.plans, 2) == [1];
  }
}
