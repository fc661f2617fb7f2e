/** One unfinished job changes, with its queue row and at most one audit row: when does every
    invariant survive? All entry points are built from such moves. Each part of the invariant
    has its own condition on the move, and together they make a move fair. */
module Moves {
  import opened Model
  import opened Retry
  import opened Entities
  import opened Steps
  import opened Invariants

  ghost predicate SameIdentity(j: Job, k: Job) {
    j.id == k.id && j.runID == k.runID && j.key == k.key && j.matrixKey == k.matrixKey
    && j.needs == k.needs && j.group == k.group && j.continueOnError == k.continueOnError
  }

  /** w' is w with job j in place of its old row; other jobs keep their queue rows. */
  ghost predicate Updates(w: World, w': World, j: Job) {
    && j.id in w.jobs && SameIdentity(w.jobs[j.id], j)
    && w'.jobs == w.jobs[j.id := j]
    && w'.runs == w.runs && w'.nextRun == w.nextRun && w'.nextJob == w.nextJob
    && w'.origin == w.origin && w'.plans == w.plans
    && (forall id :: id != j.id ==> (id in w'.queue <==> id in w.queue))
    && (forall id :: id != j.id && id in w.queue ==> w'.queue[id] == w.queue[id])
    && (j.id in w'.queue ==> j.id in w'.jobs)
  }

  // ------------------------------------------------------------- The job list

  lemma {:induction false} JobsBelowIs(jobs: map<int, Job>, n: int, r: int)
    ensures forall j :: j in JobsBelow(jobs, n, r) <==>
      exists id :: 0 <= id < n && id in jobs && jobs[id] == j && j.runID == r
    decreases n
  {
    if n > 0 {
      JobsBelowIs(jobs, n - 1, r);
      var front := JobsBelow(jobs, n - 1, r);
      forall j ensures j in JobsBelow(jobs, n, r) <==>
        exists id :: 0 <= id < n && id in jobs && jobs[id] == j && j.runID == r
      {
        if j in JobsBelow(jobs, n, r) && j !in front {
          assert n - 1 in jobs && jobs[n - 1] == j;
        }
        if id :| 0 <= id < n && id in jobs && jobs[id] == j && j.runID == r {
          if id < n - 1 { assert j in front; }
        }
      }
    }
  }

  lemma {:induction false} JobsBelowDependsOnTheRun(jobs: map<int, Job>, jobs': map<int, Job>, n: int, r: int)
    requires forall id :: 0 <= id < n ==>
      (id in jobs && jobs[id].runID == r <==> id in jobs' && jobs'[id].runID == r)
    requires forall id :: 0 <= id < n && id in jobs && jobs[id].runID == r ==> jobs'[id] == jobs[id]
    ensures JobsBelow(jobs, n, r) == JobsBelow(jobs', n, r)
    decreases n
  {
    if n > 0 {
      JobsBelowDependsOnTheRun(jobs, jobs', n - 1, r);
    }
  }

  // -------------------------------------------------- Each invariant by itself

  lemma StructureMoves(w: World, w': World, j: Job)
    requires Structure(w) && Updates(w, w', j)
    ensures Structure(w')
  {
    forall id | id in w'.jobs
      ensures exists pj :: PlannedAs(w', w'.jobs[id], pj) && w'.jobs[id].needs == pj.needs
    {
      var pj :| PlannedAs(w, w.jobs[id], pj) && w.jobs[id].needs == pj.needs;
      assert PlannedAs(w', w'.jobs[id], pj);
    }
  }

  lemma GroupsMove(w: World, w': World, j: Job)
    requires GroupsExclusive(w) && Updates(w, w', j)
    requires Holds(j) && !Holds(w.jobs[j.id]) ==> GroupFree(w, j)
    ensures GroupsExclusive(w')
  {
  }

  /** Nothing else holds the job's group. */
  ghost predicate GroupFree(w: World, j: Job) {
    j.group == "" || forall id :: id in w.jobs && id != j.id && w.jobs[id].group == j.group ==> !Holds(w.jobs[id])
  }

  ghost predicate SlotFree(w: World, j: Job) {
    forall pj :: PlannedAs(w, j, pj) && pj.maxParallel > 0 ==> |FlightOf(w, j.runID, j.key)| < pj.maxParallel
  }

  lemma FlightMoves(w: World, w': World, j: Job, r: int, key: string)
    requires Updates(w, w', j)
    ensures FlightOf(w', r, key) <= FlightOf(w, r, key) + {j.id}
    ensures j.runID != r || j.key != key || InFlight(w.jobs[j.id]) || !InFlight(j) ==>
      FlightOf(w', r, key) <= FlightOf(w, r, key)
  {
  }

  lemma Fewer<T>(a: set<T>, b: set<T>)
    requires a <= b
    ensures |a| <= |b|
  {
    assert b == a + (b - a);
  }

  lemma SlotsMove(w: World, w': World, j: Job)
    requires Structure(w) && SlotsRespected(w) && Updates(w, w', j)
    requires InFlight(j) && !InFlight(w.jobs[j.id]) ==> SlotFree(w, j)
    ensures SlotsRespected(w')
  {
    forall r, pj | r in w'.origin && pj in w'.origin[r].jobs && pj.maxParallel > 0
      ensures |FlightOf(w', r, pj.key)| <= pj.maxParallel
    {
      FlightMoves(w, w', j, r, pj.key);
      if j.runID != r || j.key != pj.key || InFlight(w.jobs[j.id]) || !InFlight(j) {
        Fewer(FlightOf(w', r, pj.key), FlightOf(w, r, pj.key));
      } else {
        var own :| PlannedAs(w, w.jobs[j.id], own);
        assert PlannedAs(w, j, own) && own in w.origin[r].jobs;
        assert own.maxParallel == pj.maxParallel;
        Fewer(FlightOf(w', r, pj.key), FlightOf(w, r, pj.key) + {j.id});
      }
    }
  }

  /** An unfinished job is no leg of a need that is met, so it may change freely. */
  lemma NeedStaysMet(w: World, w': World, j: Job, r: int, key: string)
    requires Updates(w, w', j) && !w.jobs[j.id].status.Completed? && NeedMet(w, r, key)
    ensures NeedMet(w', r, key)
  {
    assert !IsLeg(w, j.id, r, key);
    forall id | IsLeg(w', id, r, key)
      ensures w'.jobs[id].status.Completed? && !Gating(w'.jobs[id]).IsFailure() && w'.jobs[id].conclusion != Cancelled
    {
      assert IsLeg(w, id, r, key);
    }
    var id :| IsLeg(w, id, r, key) && Gating(w.jobs[id]) != Skipped;
    assert IsLeg(w', id, r, key) && Gating(w'.jobs[id]) != Skipped;
  }

  ghost predicate NeedsHold(w: World, j: Job) {
    Gated(w, j) ==> forall n :: n in j.needs ==> NeedMet(w, j.runID, n)
  }

  lemma NeedsMove(w: World, w': World, j: Job)
    requires NoEarlyStart(w) && Updates(w, w', j) && !w.jobs[j.id].status.Completed?
    requires InFlight(j) && !InFlight(w.jobs[j.id]) ==> NeedsHold(w, j)
    ensures NoEarlyStart(w')
  {
    forall id, n | id in w'.jobs && InFlight(w'.jobs[id]) && n in w'.jobs[id].needs && Gated(w', w'.jobs[id])
      ensures NeedMet(w', w'.jobs[id].runID, n)
    {
      var pj :| PlannedAs(w', w'.jobs[id], pj) && Plain(pj);
      assert PlannedAs(w, w.jobs[id], pj) && PlannedAs(w, w'.jobs[id], pj);
      assert NeedMet(w, w.jobs[id].runID, n);
      NeedStaysMet(w, w', j, w.jobs[id].runID, n);
    }
  }

  lemma VerdictsMove(w: World, w': World, j: Job)
    requires VerdictsHonest(w) && Updates(w, w', j) && !w.jobs[j.id].status.Completed?
    ensures VerdictsHonest(w')
  {
    forall r | r in w'.runs ensures VerdictHonest(w', r) {
      assert VerdictHonest(w, r);
      if w.runs[r].status.Completed? {
        assert j.runID != r;
        JobsBelowDependsOnTheRun(w.jobs, w'.jobs, w.nextJob, r);
      }
    }
  }

  lemma RetriesMove(w: World, w': World, j: Job)
    requires RetriesBounded(w) && Updates(w, w', j)
    requires RetryBound(w, j)
    ensures RetriesBounded(w')
  {
    forall id | id in w'.jobs ensures RetryBound(w', w'.jobs[id]) {
      assert RetryBound(w, w'.jobs[id]);
      forall pj | PlannedAs(w', w'.jobs[id], pj)
        ensures 0 <= w'.jobs[id].infraRetryCount <= pj.retry.attempts - 1
      {
        assert PlannedAs(w, w'.jobs[id], pj);
      }
    }
  }

  lemma RowsMove(w: World, w': World, j: Job)
    requires NoJobLost(w) && Structure(w) && Updates(w, w', j) && RowsAgree(j, w'.queue)
    ensures NoJobLost(w')
  {
    forall id | id in w'.jobs ensures RowsAgree(w'.jobs[id], w'.queue) {
      if id != j.id {
        assert RowsAgree(w.jobs[id], w.queue);
      }
    }
  }

  // -------------------------------------------------------------- The audit log

  lemma {:induction false} NothingToCount(events: seq<Event>, kind: EventKind, id: int, attempt: int)
    requires forall i :: 0 <= i < |events| ==>
      events[i].kind != kind || events[i].jobID != id || events[i].attempt != attempt
    ensures CountEvents(events, kind, id, attempt) == 0
    decreases |events|
  {
    if events != [] {
      NothingToCount(events[..|events| - 1], kind, id, attempt);
    }
  }

  lemma CountAppended(events: seq<Event>, e: Event, kind: EventKind, id: int, attempt: int)
    ensures CountEvents(events + [e], kind, id, attempt)
         == CountEvents(events, kind, id, attempt) + (if e.kind == kind && e.jobID == id && e.attempt == attempt then 1 else 0)
  {
    assert (events + [e])[..|events + [e]| - 1] == events;
  }

  lemma FutureIsBlank(w: World, kind: EventKind, id: int, attempt: int)
    requires LogIsPast(w) && id in w.jobs && id != 0 && attempt > w.jobs[id].attempt
    ensures CountEvents(w.events, kind, id, attempt) == 0
  {
    NothingToCount(w.events, kind, id, attempt);
  }

  predicate Terminal(kind: EventKind) {
    kind.JobCompleted? || kind.JobCancelled? || kind.JobSkipped?
  }

  predicate Restarting(kind: EventKind) {
    kind.Retried? || kind.Requeued?
  }

  predicate Idle(j: Job) {
    !j.status.Completed? && !j.status.InProgress?
  }

  /** The log after a move: unchanged, or one event longer. */
  ghost predicate Logs(w: World, w': World, e: Option<Event>) {
    w'.events == if e.Some? then w.events + [e.value] else w.events
  }

  ghost predicate AboutJob(e: Option<Event>, j: Job) {
    e.Some? ==> e.value.jobID == j.id && e.value.attempt == j.attempt
  }

  lemma LogIsPastMoves(w: World, w': World, j: Job, e: Option<Event>)
    requires LogIsPast(w) && Updates(w, w', j) && Logs(w, w', e) && AboutJob(e, j)
    requires w.jobs[j.id].attempt <= j.attempt
    ensures LogIsPast(w')
  {
  }

  /** When a job may be handed out again. */
  ghost predicate DispatchStep(j: Job, j': Job, e: Option<Event>) {
    && j.attempt <= j'.attempt
    && (e.Some? && e.value.kind == Dispatched ==> j.attempt == j'.attempt && Idle(j) && !Idle(j'))
    && (Idle(j') ==> Idle(j) || j.attempt < j'.attempt || (e.Some? && e.value.kind == Released))
  }

  lemma DispatchedOnceMoves(w: World, w': World, j: Job, e: Option<Event>)
    requires LogIsPast(w) && DispatchedOnce(w) && Updates(w, w', j) && Logs(w, w', e) && AboutJob(e, j)
    requires j.id != 0 && DispatchStep(w.jobs[j.id], j, e)
    ensures DispatchedOnce(w')
  {
    forall id, attempt | id in w'.jobs ensures DispatchedFairly(w', id, attempt) {
      assert DispatchedFairly(w, id, attempt);
      if e.Some? {
        CountAppended(w.events, e.value, Dispatched, id, attempt);
        CountAppended(w.events, e.value, Released, id, attempt);
      }
      if id == j.id && attempt > w.jobs[id].attempt {
        FutureIsBlank(w, Dispatched, id, attempt);
      }
    }
  }

  ghost predicate EndingStep(j: Job, j': Job, e: Option<Event>) {
    && j.attempt <= j'.attempt
    && (e.Some? && Terminal(e.value.kind) ==> j.attempt == j'.attempt && !j.status.Completed? && j'.status.Completed?)
    && (e.Some? && Restarting(e.value.kind) ==> j.attempt + 1 == j'.attempt && !j.status.Completed?)
    && (j.status.Completed? && j.attempt == j'.attempt ==> j'.status.Completed?)
  }

  lemma EndingAppended(events: seq<Event>, e: Event, id: int, attempt: int)
    ensures Endings(events + [e], id, attempt) == Endings(events, id, attempt) +
      (if e.jobID == id && ((Terminal(e.kind) && e.attempt == attempt) || (Restarting(e.kind) && e.attempt == attempt + 1))
       then 1 else 0)
  {
    CountAppended(events, e, JobCompleted, id, attempt);
    CountAppended(events, e, JobCancelled, id, attempt);
    CountAppended(events, e, JobSkipped, id, attempt);
    CountAppended(events, e, Retried, id, attempt + 1);
    CountAppended(events, e, Requeued, id, attempt + 1);
  }

  lemma EndedOnceMoves(w: World, w': World, j: Job, e: Option<Event>)
    requires EndedOnce(w) && Updates(w, w', j) && Logs(w, w', e) && AboutJob(e, j)
    requires EndingStep(w.jobs[j.id], j, e)
    ensures EndedOnce(w')
  {
    forall id, attempt | id in w'.jobs
      ensures Endings(w'.events, id, attempt)
        <= (if attempt < w'.jobs[id].attempt || (attempt == w'.jobs[id].attempt && w'.jobs[id].status.Completed?) then 1 else 0)
    {
      if e.Some? {
        EndingAppended(w.events, e.value, id, attempt);
      }
    }
  }

  /** Where a backoff may begin, and what waits for it. */
  ghost predicate BackoffStep(w: World, w': World, j: Job, e: Option<Event>)
    requires j.id in w.jobs
  {
    && w.jobs[j.id].attempt <= j.attempt
    && (e.Some? && e.value.kind == Retried ==>
         && w.jobs[j.id].attempt < j.attempt && j.queuedAt.Some?
         && (j.id in w'.queue ==> e.value.until == w'.queue[j.id].notBefore))
    && (e.Some? && e.value.kind == Dispatched ==>
         && w.jobs[j.id].attempt == j.attempt
         && j.id in w.queue && w.queue[j.id].notBefore <= e.value.at)
    && (w.jobs[j.id].attempt == j.attempt && w.jobs[j.id].queuedAt.Some? ==> j.queuedAt.Some?)
    && (w.jobs[j.id].attempt == j.attempt && j.id in w'.queue && w.jobs[j.id].queuedAt.Some? ==>
         j.id in w.queue && w.queue[j.id].notBefore == w'.queue[j.id].notBefore)
  }

  lemma BackoffMoves(w: World, w': World, j: Job, e: Option<Event>)
    requires Structure(w) && LogIsPast(w) && BackoffRespected(w) && Updates(w, w', j) && Logs(w, w', e) && AboutJob(e, j)
    requires BackoffStep(w, w', j, e)
    ensures BackoffRespected(w')
  {
    forall i, k | 0 <= i < |w'.events| && 0 <= k < |w'.events|
         && w'.events[i].kind == Retried && w'.events[k].kind == Dispatched && SameAttempt(w'.events[i], w'.events[k])
      ensures w'.events[i].until <= w'.events[k].at
    {
      if k == |w.events| {
        assert i < |w.events| && w'.events[i] == w.events[i];
      } else if i < |w.events| {
        assert w'.events[i] == w.events[i] && w'.events[k] == w.events[k];
      } else {
        assert false;
      }
    }
  }

  /** How a job's retries are counted, and how long one waits. */
  ghost predicate RetryStep(w: World, j: Job, e: Option<Event>)
    requires j.id in w.jobs
  {
    && j.infraRetryCount ==
      (if e.None? then w.jobs[j.id].infraRetryCount
       else if e.value.kind == Retried then w.jobs[j.id].infraRetryCount + 1
       else if e.value.kind == RerunAsked then 0
       else w.jobs[j.id].infraRetryCount)
    && (e.Some? && e.value.kind == Retried ==> forall pj :: PlannedAs(w, j, pj) ==>
         e.value.until == e.value.at + Delay(pj.retry, j.infraRetryCount + 1))
  }

  lemma RetriesAppended(events: seq<Event>, e: Event, id: int)
    ensures RetriesLogged(events + [e], id) ==
      if e.jobID != id then RetriesLogged(events, id)
      else if e.kind == Retried then RetriesLogged(events, id) + 1
      else if e.kind == RerunAsked then 0
      else RetriesLogged(events, id)
  {
    assert (events + [e])[..|events|] == events;
  }

  /** What was logged before stays timed as it was. */
  lemma StillWaitsAsPlanned(w: World, w': World, i: nat)
    requires i < |w.events| && w.events <= w'.events && w.events[i].jobID in w.jobs && WaitsAsPlanned(w, i)
    requires w.events[i].jobID in w'.jobs && SameIdentity(w.jobs[w.events[i].jobID], w'.jobs[w.events[i].jobID])
    requires w.jobs[w.events[i].jobID].runID in w.origin
    requires forall r :: r in w.origin ==> r in w'.origin && w'.origin[r] == w.origin[r]
    ensures WaitsAsPlanned(w', i)
  {
    hide RetriesLogged, Delay;
    assert w'.events[i] == w.events[i] && w'.events[..i + 1] == w.events[..i + 1];
    forall pj | PlannedAs(w', w'.jobs[w.events[i].jobID], pj) ensures PlannedAs(w, w.jobs[w.events[i].jobID], pj) {
    }
  }

  lemma RetriesTimedMove(w: World, w': World, j: Job, e: Option<Event>)
    requires Structure(w) && RetriesTimed(w) && Updates(w, w', j) && Logs(w, w', e) && AboutJob(e, j) && RetryStep(w, j, e)
    ensures RetriesTimed(w')
  {
    hide RetriesLogged, WaitsAsPlanned, PlannedAs;
    forall id | id in w'.jobs ensures w'.jobs[id].infraRetryCount == RetriesLogged(w'.events, id) {
      if e.Some? {
        RetriesAppended(w.events, e.value, id);
      }
    }
    forall i | 0 <= i < |w'.events| && w'.events[i].kind == Retried
      ensures w'.events[i].jobID in w'.jobs && WaitsAsPlanned(w', i)
    {
      if i < |w.events| {
        assert w'.events[i] == w.events[i];
        StillWaitsAsPlanned(w, w', i);
      } else {
        NewRetryWaits(w, w', j, e.value);
      }
    }
  }

  lemma NewRetryWaits(w: World, w': World, j: Job, e: Event)
    requires RetriesTimed(w) && Updates(w, w', j) && w'.events == w.events + [e] && e.jobID == j.id && e.kind == Retried
    requires RetryStep(w, j, Some(e))
    ensures WaitsAsPlanned(w', |w.events|)
  {
    hide RetriesLogged, Delay;
    RetriesAppended(w.events, e, j.id);
    assert w'.events[..|w.events| + 1] == w'.events;
    forall pj | PlannedAs(w', w'.jobs[j.id], pj) ensures PlannedAs(w, j, pj) {
    }
  }

  /** Only rows, plans and log matter to the timing of retries. */
  lemma RetriesTimedStays(w: World, w': World)
    requires RetriesTimed(w) && w'.events == w.events && w'.jobs == w.jobs
    requires forall id :: id in w.jobs ==> w.jobs[id].runID in w.origin
    requires forall r :: r in w.origin ==> r in w'.origin && w'.origin[r] == w.origin[r]
    ensures RetriesTimed(w')
  {
    hide RetriesLogged, WaitsAsPlanned;
    forall i | 0 <= i < |w'.events| && w'.events[i].kind == Retried ensures WaitsAsPlanned(w', i) {
      StillWaitsAsPlanned(w, w', i);
    }
  }

  lemma AttemptsAscendMove(w: World, w': World, j: Job, e: Option<Event>)
    requires LogIsPast(w) && AttemptsAscend(w) && Updates(w, w', j) && Logs(w, w', e) && AboutJob(e, j)
    requires j.id != 0 && w.jobs[j.id].attempt <= j.attempt
    ensures AttemptsAscend(w')
  {
  }

  // ------------------------------------------------------------ All of them

  ghost predicate LogMove(w: World, w': World, j: Job, e: Option<Event>)
    requires j.id in w.jobs
  {
    && Logs(w, w', e) && AboutJob(e, j)
    && DispatchStep(w.jobs[j.id], j, e)
    && EndingStep(w.jobs[j.id], j, e)
    && BackoffStep(w, w', j, e)
    && RetryStep(w, j, e)
  }

  lemma HistoryMoves(w: World, w': World, j: Job, e: Option<Event>)
    requires Structure(w) && History(w) && Updates(w, w', j) && LogMove(w, w', j, e)
    ensures History(w')
  {
    LogIsPastMoves(w, w', j, e);
    DispatchedOnceMoves(w, w', j, e);
    EndedOnceMoves(w, w', j, e);
    BackoffMoves(w, w', j, e);
    AttemptsAscendMove(w, w', j, e);
  }

  /** The conditions under which an unfinished job may become j. */
  ghost predicate FairMove(w: World, w': World, j: Job, e: Option<Event>) {
    && Updates(w, w', j)
    && !w.jobs[j.id].status.Completed?
    && RowsAgree(j, w'.queue)
    && (Holds(j) && !Holds(w.jobs[j.id]) ==> GroupFree(w, j))
    && (InFlight(j) && !InFlight(w.jobs[j.id]) ==> SlotFree(w, j) && NeedsHold(w, j))
    && RetryBound(w, j)
    && LogMove(w, w', j, e)
  }

  lemma FairMoveKeepsInv(w: World, w': World, j: Job, e: Option<Event>)
    requires Inv(w) && FairMove(w, w', j, e)
    ensures Inv(w')
  {
    StructureMoves(w, w', j);
    RowsMove(w, w', j);
    GroupsMove(w, w', j);
    SlotsMove(w, w', j);
    NeedsMove(w, w', j);
    VerdictsMove(w, w', j);
    RetriesMove(w, w', j);
    RetriesTimedMove(w, w', j, e);
    HistoryMoves(w, w', j, e);
  }

  // --------------------------------------------------- Events that change nothing

  predicate Neutral(kind: EventKind) {
    !Terminal(kind) && !Restarting(kind) && !kind.Dispatched?
  }

  lemma NeutralEventKeepsHistory(w: World, e: Event)
    requires History(w) && Neutral(e.kind)
    requires e.jobID == 0 || (e.jobID in w.jobs && e.attempt <= w.jobs[e.jobID].attempt)
    ensures History(Emit(w, e))
  {
    var w' := Emit(w, e);
    forall id, attempt | id in w'.jobs ensures DispatchedFairly(w', id, attempt) {
      assert DispatchedFairly(w, id, attempt);
      CountAppended(w.events, e, Dispatched, id, attempt);
      CountAppended(w.events, e, Released, id, attempt);
    }
    forall id, attempt | id in w'.jobs
      ensures Endings(w'.events, id, attempt) == Endings(w.events, id, attempt)
    {
      EndingAppended(w.events, e, id, attempt);
    }
  }

  lemma NeutralEventKeepsRetries(w: World, e: Event)
    requires Structure(w) && RetriesTimed(w) && Neutral(e.kind) && (e.kind == RerunAsked ==> e.jobID == 0)
    ensures RetriesTimed(Emit(w, e))
  {
    hide RetriesLogged, WaitsAsPlanned;
    var w' := Emit(w, e);
    forall id | id in w'.jobs ensures w'.jobs[id].infraRetryCount == RetriesLogged(w'.events, id) {
      RetriesAppended(w.events, e, id);
    }
    forall i | 0 <= i < |w'.events| && w'.events[i].kind == Retried
      ensures w'.events[i].jobID in w'.jobs && WaitsAsPlanned(w', i)
    {
      assert w'.events[i] == w.events[i];
      StillWaitsAsPlanned(w, w', i);
    }
  }

  lemma NeutralEventKeepsInv(w: World, e: Event)
    requires Inv(w) && Neutral(e.kind) && (e.kind == RerunAsked ==> e.jobID == 0)
    requires e.jobID == 0 || (e.jobID in w.jobs && e.attempt <= w.jobs[e.jobID].attempt)
    ensures Inv(Emit(w, e))
  {
    NeutralEventKeepsHistory(w, e);
    NeutralEventKeepsRetries(w, e);
    SameRowsKeepInv(w, Emit(w, e));
  }

  /** Plans may be forgotten and step budgets and step rows may change freely. */
  lemma SameRowsKeepInv(w: World, w': World)
    requires Inv(w) && SameRows(w, w') && History(w') && (w'.events == w.events || RetriesTimed(w'))
    requires forall r :: r in w'.plans ==> r in w'.origin && w'.plans[r] == w'.origin[r]
    ensures Inv(w')
  {
    forall id | id in w'.jobs
      ensures exists pj :: PlannedAs(w', w'.jobs[id], pj) && w'.jobs[id].needs == pj.needs
    {
      var pj :| PlannedAs(w, w.jobs[id], pj) && w.jobs[id].needs == pj.needs;
      assert PlannedAs(w', w'.jobs[id], pj);
    }
    RestKept(w, w');
    if w'.events == w.events {
      RetriesTimedStays(w, w');
    }
  }

  /** The invariants that do not look at the log, the step budgets or the steps. */
  ghost predicate SameRows(w: World, w': World) {
    w'.runs == w.runs && w'.nextRun == w.nextRun && w'.jobs == w.jobs && w'.nextJob == w.nextJob
    && w'.queue == w.queue && w'.origin == w.origin
  }

  lemma RestKept(w: World, w': World)
    requires SameRows(w, w')
    requires NoJobLost(w) && GroupsExclusive(w) && SlotsRespected(w) && NoEarlyStart(w)
    requires VerdictsHonest(w) && RetriesBounded(w)
    ensures NoJobLost(w') && GroupsExclusive(w') && SlotsRespected(w') && NoEarlyStart(w')
    ensures VerdictsHonest(w') && RetriesBounded(w')
  {
    forall r, key ensures FlightOf(w', r, key) == FlightOf(w, r, key) {
    }
    forall r, key | NeedMet(w, r, key) ensures NeedMet(w', r, key) {
      forall id | IsLeg(w', id, r, key)
        ensures w'.jobs[id].status.Completed? && !Gating(w'.jobs[id]).IsFailure() && w'.jobs[id].conclusion != Cancelled
      {
        assert IsLeg(w, id, r, key);
      }
      var id :| IsLeg(w, id, r, key) && Gating(w.jobs[id]) != Skipped;
      assert IsLeg(w', id, r, key);
    }
    forall j, pj ensures PlannedAs(w', j, pj) == PlannedAs(w, j, pj) {
    }
    forall j ensures Gated(w', j) == Gated(w, j) {
    }
    forall id | id in w'.jobs ensures RetryBound(w', w'.jobs[id]) {
      assert RetryBound(w, w.jobs[id]);
    }
    forall r | r in w'.runs ensures VerdictHonest(w', r) {
      assert VerdictHonest(w, r);
    }
  }
}
