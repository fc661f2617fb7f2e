/** What holds in every state any legal history reaches. */
module Safety {
  import opened Model
  import opened Retry
  import opened Entities
  import opened Steps
  import opened Invariants
  import opened Moves
  import opened Attempts
  import opened Sweeps
  import opened Admissions
  import opened EntryPoints
  import opened RunEntry
  import opened Reruns

  lemma EmptyWorldIsSafe()
    ensures Inv(EmptyWorld)
  {
    assert FlightOf(EmptyWorld, 0, "") == {};
  }

  lemma StepKeepsInv(opts: Options, w: World, a: Action)
    requires Inv(w) && Legal(w, a)
    ensures Inv(Apply(opts, w, a))
  {
    hide Inv, StartRun, Approve, Tick, Acquire, Heartbeat, ReleaseJob, Report, SetupCompleted, CancelRun, CancelJob,
      Rerun, RegisterPlan, CreateRun;
    match a {
      case ActCreateRun(createdAt, forkPR) => CreateRunKeepsInv(w, createdAt, forkPR);
      case ActStartRun(runID, plan) => StartRunKeepsInv(opts, w, runID, plan);
      case ActApprove(runID, actor, now) => ApproveKeepsInv(w, runID, actor, now);
      case ActTick(now) => TickKeepsInv(opts, w, now);
      case ActAcquire(runner, labels, id, now, built, budgets) => AcquireKeepsInv(opts, w, runner, labels, id, now, built, budgets);
      case ActHeartbeat(runner, id, now, ttl) => HeartbeatKeepsInv(w, runner, id, now, ttl);
      case ActRelease(runner, id, reason, now) => ReleaseKeepsInv(w, runner, id, reason, now);
      case ActReport(runner, id, attempt, res, now) => ReportKeepsInv(w, runner, id, attempt, res, now);
      case ActSetupCompleted(runner, id, attempt, now) => SetupKeepsInv(w, runner, id, attempt, now);
      case ActRecordSteps(id, attempt, steps) => RecordStepsKeepsInv(w, id, attempt, steps);
      case ActCancelRun(runID, reason, now) => CancelRunKeepsInv(w, runID, reason, now);
      case ActCancelJob(id, reason, now) => CancelJobKeepsInv(w, id, reason, now);
      case ActRerun(runID, actor, sel, now) => RerunKeepsInv(w, runID, actor, sel, now);
      case ActRegisterPlan(runID, plan) => RegisterPlanKeepsInv(w, runID, plan);
      case ActRestart => RestartKeepsInv(w);
    }
  }

  lemma {:induction false} HistoriesKeepInv(opts: Options, w: World, actions: seq<Action>)
    requires Inv(w) && LegalHistory(opts, w, actions)
    ensures Inv(ApplyAll(opts, w, actions))
    decreases |actions|
  {
    hide Inv, Legal, Apply;
    if actions != [] {
      StepKeepsInv(opts, w, actions[0]);
      HistoriesKeepInv(opts, Apply(opts, w, actions[0]), actions[1..]);
    }
  }

  /** w is where some legal history leads from an empty control plane. */
  ghost predicate Reachable(opts: Options, w: World) {
    exists actions :: LegalHistory(opts, EmptyWorld, actions) && ApplyAll(opts, EmptyWorld, actions) == w
  }

  /** A legal history from an empty control plane to w. */
  ghost predicate LeadsTo(opts: Options, actions: seq<Action>, w: World) {
    LegalHistory(opts, EmptyWorld, actions) && ApplyAll(opts, EmptyWorld, actions) == w
  }

  lemma {:induction false} HistoriesExtend(opts: Options, w: World, actions: seq<Action>, a: Action)
    ensures ApplyAll(opts, w, actions + [a]) == Apply(opts, ApplyAll(opts, w, actions), a)
    ensures LegalHistory(opts, w, actions + [a]) <==> LegalHistory(opts, w, actions) && Legal(ApplyAll(opts, w, actions), a)
    decreases |actions|
  {
    hide Apply, Legal;
    if actions == [] {
      assert [a][1..] == [];
      assert ApplyAll(opts, w, [a]) == ApplyAll(opts, Apply(opts, w, a), []);
      assert LegalHistory(opts, Apply(opts, w, a), []);
      assert actions + [a] == [a];
    } else {
      assert (actions + [a])[1..] == actions[1..] + [a];
      HistoriesExtend(opts, Apply(opts, w, actions[0]), actions[1..], a);
    }
  }

  lemma NothingYet(opts: Options)
    ensures LeadsTo(opts, [], EmptyWorld)
  {
  }

  /** One more legal step of a history. */
  lemma OneMoreStep(opts: Options, actions: seq<Action>, w: World, a: Action)
    requires LeadsTo(opts, actions, w) && Legal(w, a)
    ensures LeadsTo(opts, actions + [a], Apply(opts, w, a)) && Reachable(opts, Apply(opts, w, a))
  {
    hide Apply, Legal;
    HistoriesExtend(opts, EmptyWorld, actions, a);
  }

  lemma ReachableIsSafe(opts: Options, w: World)
    requires Reachable(opts, w)
    ensures Inv(w)
  {
    hide Inv, LegalHistory, ApplyAll;
    var actions :| LegalHistory(opts, EmptyWorld, actions) && ApplyAll(opts, EmptyWorld, actions) == w;
    EmptyWorldIsSafe();
    HistoriesKeepInv(opts, EmptyWorld, actions);
  }

  // ------------------------------------------------------------- The theorems

  /** At most one admitted unfinished job per concurrency group, across all runs. */
  lemma OneJobPerGroup(opts: Options, w: World, a: int, b: int)
    requires Reachable(opts, w) && a in w.jobs && b in w.jobs && w.jobs[a].group == w.jobs[b].group != ""
    requires !w.jobs[a].status.Completed? && (w.jobs[a].queuedAt.Some? || w.jobs[a].status.InProgress?)
    requires !w.jobs[b].status.Completed? && (w.jobs[b].queuedAt.Some? || w.jobs[b].status.InProgress?)
    ensures a == b
  {
    hide Reachable;
    ReachableIsSafe(opts, w);
  }

  /** No more legs of a job in flight than its max-parallel allows. */
  lemma MaxParallelHolds(opts: Options, w: World, r: int, pj: PlannedJob)
    requires Reachable(opts, w) && r in w.origin && pj in w.origin[r].jobs && pj.maxParallel > 0
    ensures |set id | id in w.jobs && w.jobs[id].runID == r && w.jobs[id].key == pj.key && InFlight(w.jobs[id])|
         <= pj.maxParallel
  {
    hide Reachable;
    ReachableIsSafe(opts, w);
    assert FlightOf(w, r, pj.key)
        == set id | id in w.jobs && w.jobs[id].runID == r && w.jobs[id].key == pj.key && InFlight(w.jobs[id]);
  }

  /** A job whose if: is absent or names no status function, and that is queued or running,
      has every leg of every need finished, none failed or cancelled, and not all skipped. */
  lemma NothingStartsBeforeItsNeeds(opts: Options, w: World, id: int, pj: PlannedJob, n: string)
    requires Reachable(opts, w) && id in w.jobs && InFlight(w.jobs[id]) && n in w.jobs[id].needs
    requires w.jobs[id].runID in w.origin && (pj.cond == "" || !pj.namesStatus)
    requires Find(w.origin[w.jobs[id].runID].jobs, w.jobs[id].key, w.jobs[id].matrixKey) == Some(pj)
    ensures forall l :: l in w.jobs && w.jobs[l].runID == w.jobs[id].runID && w.jobs[l].key == n ==>
      && w.jobs[l].status.Completed? && w.jobs[l].conclusion != Cancelled
      && (w.jobs[l].conclusion.IsFailure() ==> w.jobs[l].continueOnError)
    ensures exists l | l in w.jobs && w.jobs[l].runID == w.jobs[id].runID && w.jobs[l].key == n
      :: w.jobs[l].conclusion != Skipped
  {
    hide Reachable;
    ReachableIsSafe(opts, w);
    assert PlannedAs(w, w.jobs[id], pj) && Gated(w, w.jobs[id]);
    assert NeedMet(w, w.jobs[id].runID, n);
    forall l | l in w.jobs && w.jobs[l].runID == w.jobs[id].runID && w.jobs[l].key == n
      ensures IsLeg(w, l, w.jobs[id].runID, n)
    {
    }
    var l :| IsLeg(w, l, w.jobs[id].runID, n) && Gating(w.jobs[l]) != Skipped;
    assert w.jobs[l].conclusion != Skipped;
  }

  /** A finished run has only finished jobs; it says success exactly when there is a
      job and every job succeeded; and an unfinished run has no cancel reason. */
  lemma VerdictsAreHonest(opts: Options, w: World, r: int)
    requires Reachable(opts, w) && r in w.runs
    ensures w.runs[r].cancel.Some? ==> w.runs[r].status.Completed?
    ensures w.runs[r].status.Completed? ==>
      && (forall id :: id in w.jobs && w.jobs[id].runID == r ==> w.jobs[id].status.Completed?)
      && w.runs[r].conclusion == Aggregate(Conclusions(JobsOf(w, r)))
      && (w.runs[r].conclusion == Success <==>
           && (exists id :: id in w.jobs && w.jobs[id].runID == r)
           && (forall id :: id in w.jobs && w.jobs[id].runID == r ==> w.jobs[id].conclusion == Success))
  {
    hide Reachable, Inv;
    ReachableIsSafe(opts, w);
    RunFacts(w, r);
    if w.runs[r].status.Completed? {
      ConclusionsAreTheJobs(w, r);
      AggregateIsSuccessExactlyWhenAllSucceeded(Conclusions(JobsOf(w, r)));
      var cs := Conclusions(JobsOf(w, r));
      forall id | id in w.jobs && w.jobs[id].runID == r ensures w.jobs[id].conclusion in cs {
      }
      assert cs != [] ==> cs[0] in cs;
    }
  }

  ghost predicate Ended(w: World, r: int, c: Conclusion) {
    exists id :: id in w.jobs && w.jobs[id].runID == r && w.jobs[id].conclusion == c
  }

  ghost predicate NoneFailed(w: World, r: int) {
    && !Ended(w, r, ConfigError) && !Ended(w, r, InfraFailure) && !Ended(w, r, TimedOut) && !Ended(w, r, Failure)
    && !Ended(w, r, ActionRequired)
  }

  /** A finished run says the worst that any of its jobs came to. */
  lemma VerdictsNameTheWorst(opts: Options, w: World, r: int)
    requires Reachable(opts, w) && r in w.runs && w.runs[r].status.Completed?
    ensures var c := w.runs[r].conclusion;
      && (c == ConfigError <==> Ended(w, r, ConfigError))
      && (c == InfraFailure <==> Ended(w, r, InfraFailure) && !Ended(w, r, ConfigError))
      && (c == TimedOut <==> Ended(w, r, TimedOut) && !Ended(w, r, InfraFailure) && !Ended(w, r, ConfigError))
      && (c == Failure <==>
           Ended(w, r, Failure) && !Ended(w, r, TimedOut) && !Ended(w, r, InfraFailure) && !Ended(w, r, ConfigError))
      && (c == ActionRequired <==>
           Ended(w, r, ActionRequired) && !Ended(w, r, Failure) && !Ended(w, r, TimedOut) && !Ended(w, r, InfraFailure)
           && !Ended(w, r, ConfigError))
      && (c == Cancelled <==> Ended(w, r, Cancelled) && NoneFailed(w, r))
      && (c == Skipped <==> Ended(w, r, Skipped) && forall id :: id in w.jobs && w.jobs[id].runID == r ==> w.jobs[id].conclusion == Skipped)
      && (c == Neutral || c == Success || c.IsFailure() || c == Cancelled || c == Skipped)
  {
    hide Reachable, Inv, Aggregate, Ended;
    ReachableIsSafe(opts, w);
    RunFacts(w, r);
    ConclusionsAreTheJobs(w, r);
    var cs := Conclusions(JobsOf(w, r));
    forall c ensures c in cs <==> Ended(w, r, c) {
      EndedMeans(w, r, c);
    }
    TheWorstConclusionWins(cs);
    SomeConclusion(cs);
    AllOf(w, r, cs);
  }

  lemma EndedMeans(w: World, r: int, c: Conclusion)
    ensures Ended(w, r, c) <==> exists id :: id in w.jobs && w.jobs[id].runID == r && w.jobs[id].conclusion == c
  {
  }

  lemma SomeConclusion(cs: seq<Conclusion>)
    requires AllValid(cs)
    ensures var c := Aggregate(cs); c == Neutral || c == Success || c.IsFailure() || c == Cancelled || c == Skipped
  {
  }

  lemma AllOf(w: World, r: int, cs: seq<Conclusion>)
    requires forall c :: c in cs <==> exists id :: id in w.jobs && w.jobs[id].runID == r && w.jobs[id].conclusion == c
    ensures (forall c :: c in cs ==> c == Skipped) <==>
      forall id :: id in w.jobs && w.jobs[id].runID == r ==> w.jobs[id].conclusion == Skipped
    ensures cs != [] ==> cs[0] in cs
  {
    if forall c :: c in cs ==> c == Skipped {
      forall id | id in w.jobs && w.jobs[id].runID == r ensures w.jobs[id].conclusion == Skipped {
        assert w.jobs[id].conclusion in cs;
      }
    }
  }

  lemma {:induction false} ConclusionsListTheCompleted(jobs: seq<Job>)
    ensures forall c :: c in Conclusions(jobs) <==> exists j :: j in jobs && j.status.Completed? && j.conclusion == c
    decreases |jobs|
  {
    if jobs != [] {
      ConclusionsListTheCompleted(jobs[1..]);
      assert jobs == [jobs[0]] + jobs[1..];
      forall c ensures c in Conclusions(jobs) <==> exists j :: j in jobs && j.status.Completed? && j.conclusion == c {
        if c in Conclusions(jobs) {
          if c in Conclusions(jobs[1..]) {
            var j :| j in jobs[1..] && j.status.Completed? && j.conclusion == c;
            assert j in jobs;
          } else {
            assert jobs[0] in jobs && jobs[0].conclusion == c;
          }
        }
      }
    }
  }

  lemma ConclusionsAreTheJobs(w: World, r: int)
    requires Inv(w) && r in w.runs && w.runs[r].status.Completed?
    ensures var cs := Conclusions(JobsOf(w, r));
      && AllValid(cs)
      && forall c :: c in cs <==> exists id :: id in w.jobs && w.jobs[id].runID == r && w.jobs[id].conclusion == c
  {
    hide Inv;
    var jobs := JobsOf(w, r);
    JobsBelowIs(w.jobs, w.nextJob, r);
    ConclusionsListTheCompleted(jobs);
    RunFacts(w, r);
    forall c ensures c in Conclusions(jobs) <==> exists id :: id in w.jobs && w.jobs[id].runID == r && w.jobs[id].conclusion == c {
      if id :| id in w.jobs && w.jobs[id].runID == r && w.jobs[id].conclusion == c {
        JobFacts(w, id);
        assert w.jobs[id] in jobs;
      }
    }
    forall c | c in Conclusions(jobs) ensures c.Valid() {
      var id :| id in w.jobs && w.jobs[id].runID == r && w.jobs[id].conclusion == c;
      JobFacts(w, id);
    }
  }

  /** The key run/job/attempt is handed to a runner at most once more often than a
      runner gave it back, and later hand-outs of a job carry later attempts. */
  lemma NoAttemptIsDispatchedTwice(opts: Options, w: World, id: int, attempt: int)
    requires Reachable(opts, w) && id in w.jobs
    ensures CountEvents(w.events, Dispatched, id, attempt) <= CountEvents(w.events, Released, id, attempt) + 1
    ensures forall i, k | 0 <= i < k < |w.events| && w.events[i].kind == Dispatched && w.events[k].kind == Dispatched
      :: w.events[i].jobID == w.events[k].jobID ==> w.events[i].attempt <= w.events[k].attempt
  {
    hide Reachable;
    ReachableIsSafe(opts, w);
    assert DispatchedFairly(w, id, attempt);
  }

  /** Every attempt ends at most once: it is concluded, retried, or lost with its
      runner, never two of these. */
  lemma NoAttemptEndsTwice(opts: Options, w: World, id: int, attempt: int)
    requires Reachable(opts, w) && id in w.jobs
    ensures Endings(w.events, id, attempt) <= 1
    ensures Endings(w.events, id, attempt) == 1 ==>
      attempt < w.jobs[id].attempt || (attempt == w.jobs[id].attempt && w.jobs[id].status.Completed?)
  {
    hide Reachable;
    ReachableIsSafe(opts, w);
  }

  /** A report is acted on only when it comes from the runner that holds the lease
      and names the attempt that is running (or none). */
  lemma OnlyTheLeaseHolderReports(opts: Options, w: World, runner: string, id: int, attempt: int, res: Result, now: int)
    requires Reachable(opts, w) && Report(w, runner, id, attempt, res, now).w != w
    ensures Leases(w, runner, id) && w.jobs[id].status.InProgress?
    ensures attempt == 0 || attempt == w.jobs[id].attempt
  {
    hide Reachable, Inv, FinishAttempt, RetryBound;
    ReachableIsSafe(opts, w);
    JobFacts(w, id);
  }

  /** Once an attempt has ended, whoever reports on it by its number changes nothing,
      and an attempt that ended by concluding cannot be reported on at all. */
  lemma ReportsOnEndedAttemptsAreIgnored(opts: Options, w: World, runner: string, id: int, attempt: int, res: Result, now: int)
    requires Reachable(opts, w) && id in w.jobs && Endings(w.events, id, attempt) == 1
    ensures attempt != 0 ==> Report(w, runner, id, attempt, res, now).w == w
    ensures attempt == w.jobs[id].attempt ==> Report(w, runner, id, 0, res, now).w == w
  {
    hide Reachable, Report, Endings;
    NoAttemptEndsTwice(opts, w, id, attempt);
    if attempt != 0 && Report(w, runner, id, attempt, res, now).w != w {
      OnlyTheLeaseHolderReports(opts, w, runner, id, attempt, res, now);
      assert false;
    }
    if attempt == w.jobs[id].attempt && Report(w, runner, id, 0, res, now).w != w {
      OnlyTheLeaseHolderReports(opts, w, runner, id, 0, res, now);
      assert false;
    }
  }

  lemma RetryFacts(w: World, i: nat)
    requires Inv(w) && i < |w.events| && w.events[i].kind == Retried
    ensures w.events[i].jobID in w.jobs && WaitsAsPlanned(w, i)
    ensures w.events[i].jobID in w.queue && w.events[i].attempt == w.jobs[w.events[i].jobID].attempt ==>
      w.queue[w.events[i].jobID].notBefore == w.events[i].until
  {
    hide WaitsAsPlanned;
  }

  lemma RetryCounts(events: seq<Event>, i: nat)
    requires i < |events| && events[i].kind == Retried
    ensures RetriesLogged(events[..i + 1], events[i].jobID) >= 1
  {
    assert events[..i + 1] == events[..i] + [events[i]];
    RetriesAppended(events[..i], events[i], events[i].jobID);
  }

  /** The n-th retry of a job since it was last re-run opens its attempt only after the pause
      that the job's policy asks for before a next try number n + 1; the row that waits for a
      runner is not claimable until then. */
  lemma RetriesWaitTheirPause(opts: Options, w: World, i: nat, pj: PlannedJob)
    requires Reachable(opts, w) && i < |w.events| && w.events[i].kind == Retried
    requires w.events[i].jobID in w.jobs ==> PlannedAs(w, w.jobs[w.events[i].jobID], pj)
    ensures var e := w.events[i];
      var n := RetriesLogged(w.events[..i + 1], e.jobID);
      && e.jobID in w.jobs && n >= 1
      && (InRange(pj.retry, n + 1) ==> e.until == e.at + Pause(pj.retry, n + 1))
      && (e.jobID in w.queue && e.attempt == w.jobs[e.jobID].attempt ==> w.queue[e.jobID].notBefore == e.until)
  {
    hide Reachable, Inv, Delay, Pause, InRange, RetriesLogged, PlannedAs;
    ReachableIsSafe(opts, w);
    RetryFacts(w, i);
    RetryCounts(w.events, i);
    var n := RetriesLogged(w.events[..i + 1], w.events[i].jobID);
    if InRange(pj.retry, n + 1) {
      DelayIsThePause(pj.retry, n + 1);
    }
  }

  /** A retried attempt never reaches a runner before its backoff is over. */
  lemma BackoffIsWaitedOut(opts: Options, w: World, i: nat, k: nat, pj: PlannedJob)
    requires Reachable(opts, w) && i < |w.events| && k < |w.events|
    requires w.events[i].kind == Retried && w.events[k].kind == Dispatched
    requires w.events[i].jobID == w.events[k].jobID && w.events[i].attempt == w.events[k].attempt
    requires w.events[i].jobID in w.jobs ==> PlannedAs(w, w.jobs[w.events[i].jobID], pj)
    ensures w.events[i].until <= w.events[k].at
    ensures var n := RetriesLogged(w.events[..i + 1], w.events[i].jobID) + 1;
      InRange(pj.retry, n) ==> w.events[k].at >= w.events[i].at + Pause(pj.retry, n)
  {
    hide Reachable, Pause, InRange, RetriesLogged;
    RetriesWaitTheirPause(opts, w, i, pj);
    ReachableIsSafe(opts, w);
    assert SameAttempt(w.events[i], w.events[k]);
  }

  /** Between reruns a job is retried at most attempts - 1 times. */
  lemma RetriesAreBounded(opts: Options, w: World, id: int, pj: PlannedJob)
    requires Reachable(opts, w) && id in w.jobs && w.jobs[id].runID in w.origin
    requires Find(w.origin[w.jobs[id].runID].jobs, w.jobs[id].key, w.jobs[id].matrixKey) == Some(pj)
    ensures 0 <= w.jobs[id].infraRetryCount <= pj.retry.attempts - 1
  {
    hide Reachable, Inv, RowsAgree;
    ReachableIsSafe(opts, w);
    JobFacts(w, id);
    assert PlannedAs(w, w.jobs[id], pj);
  }

  /** No admitted job is lost and no finished one can start again: a job has a queue
      row exactly while it is admitted and unfinished, and a lease exactly while it
      runs. */
  lemma NoJobIsLost(opts: Options, w: World, id: int)
    requires Reachable(opts, w) && id in w.jobs
    ensures id in w.queue <==> !w.jobs[id].status.Completed? && w.jobs[id].queuedAt.Some?
    ensures id in w.queue && w.queue[id].leased <==> w.jobs[id].status.InProgress?
    ensures w.jobs[id].status.Completed? <==> w.jobs[id].conclusion != NoConclusion
  {
    hide Reachable, Inv, RetryBound;
    ReachableIsSafe(opts, w);
    JobFacts(w, id);
  }
}
