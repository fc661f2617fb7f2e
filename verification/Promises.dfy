/** Two promises the source's comments make and its code keeps only under a condition:
    each with the exact condition. Traces.dfy and the last lemma have the inputs. */
module Promises {
  import opened Model
  import opened Retry
  import opened Entities
  import opened Steps

  // ------------------------------------------------ A cancelled run has a reason

  /** The run row says it is never without a reason when it ends cancelled. That holds
      of a run that is being closed exactly when the run itself was cancelled, or no job
      was, or some job failed. */
  lemma CancelledRunsNameAReasonExactlyWhen(w: World, run: Run, jobs: seq<Job>, now: int)
    requires run.completedAt.None? && AllCompleted(jobs) && forall j :: j in jobs ==> j.conclusion.Valid()
    ensures var closed := FinalizeIfComplete(w, run, jobs, now).run;
      (closed.conclusion == Cancelled ==> closed.cancel.Some?)
      <==> (run.cancel.Some? || (forall j :: j in jobs ==> j.conclusion != Cancelled)
            || (exists j :: j in jobs && j.conclusion.IsFailure()))
  {
    var cs := Conclusions(jobs);
    ConclusionsOfFinished(jobs);
    AggregateIsSuccessExactlyWhenAllSucceeded(cs);
    if Cancelled in cs {
      var k :| 0 <= k < |cs| && cs[k] == Cancelled;
      assert jobs[k] in jobs;
    }
    forall j | j in jobs ensures j.conclusion in cs {
      var k :| 0 <= k < |jobs| && jobs[k] == j;
      assert cs[k] == j.conclusion;
    }
    forall c | c in cs ensures exists j :: j in jobs && j.conclusion == c {
      var k :| 0 <= k < |cs| && cs[k] == c;
      assert jobs[k] in jobs;
    }
  }

  lemma {:induction false} ConclusionsOfFinished(jobs: seq<Job>)
    requires AllCompleted(jobs)
    ensures |Conclusions(jobs)| == |jobs|
    ensures forall k :: 0 <= k < |jobs| ==> Conclusions(jobs)[k] == jobs[k].conclusion
    decreases |jobs|
  {
    if jobs != [] {
      ConclusionsOfFinished(jobs[1..]);
    }
  }

  const OneJob := Job(1, 1, "build", "", [], [], 1, Queued, NoConclusion, ClassNone, None, "", false, 0, "",
                      false, map[], None, None, None, None, None, 0)

  // ------------------------------------------------- Exactly one status is true

  function ResultOfNeed(jobs: seq<Job>, key: string): NeedResult {
    NeedsResult(GatingConclusions(LegsOf(jobs, key)))
  }

  ghost predicate SomeNeed(needs: seq<string>, jobs: seq<Job>, result: NeedResult) {
    exists n :: n in needs && ResultOfNeed(jobs, n) == result
  }

  lemma {:induction false} NeedsFlags(needs: seq<string>, jobs: seq<Job>, st: NeedsState)
    requires st.ready && NeedsFrom(needs, jobs, st).NeedsOk? && NeedsFrom(needs, jobs, st).state.ready
    ensures var r := NeedsFrom(needs, jobs, st).state;
      && (r.success <==> st.success && forall n :: n in needs ==> ResultOfNeed(jobs, n) == NeedSuccess)
      && (r.failure <==> st.failure || SomeNeed(needs, jobs, NeedFailure))
      && (r.cancelled <==> st.cancelled || SomeNeed(needs, jobs, NeedCancelled))
    decreases |needs|
  {
    if needs != [] {
      var next := AddNeed(st, needs[0], LegsOf(jobs, needs[0]));
      NeedsFlags(needs[1..], jobs, next);
      assert forall n :: n in needs <==> n == needs[0] || n in needs[1..];
      SomeNeedSplits(needs, jobs, NeedFailure);
      SomeNeedSplits(needs, jobs, NeedCancelled);
    }
  }

  lemma SomeNeedSplits(needs: seq<string>, jobs: seq<Job>, result: NeedResult)
    requires needs != []
    ensures SomeNeed(needs, jobs, result) <==> ResultOfNeed(jobs, needs[0]) == result || SomeNeed(needs[1..], jobs, result)
  {
    assert forall n :: n in needs <==> n == needs[0] || n in needs[1..];
  }

  predicate ExactlyOne(a: bool, b: bool, c: bool) {
    (a && !b && !c) || (!a && b && !c) || (!a && !b && c)
  }

  /** success(), failure() and cancelled() are meant to be exclusive and exhaustive.
      They are, unless something failed while something was cancelled, or a need was
      skipped and nothing else went wrong. */
  lemma ExactlyOneStatusExactlyWhen(pj: PlannedJob, jobs: seq<Job>, runCancelled: bool)
    requires ComputeNeeds(pj, jobs, runCancelled).NeedsOk? && ComputeNeeds(pj, jobs, runCancelled).state.ready
    ensures var st := ComputeNeeds(pj, jobs, runCancelled).state;
      var cancelled := runCancelled || SomeNeed(pj.needs, jobs, NeedCancelled);
      var failed := SomeNeed(pj.needs, jobs, NeedFailure);
      ExactlyOne(st.success, st.failure, st.cancelled)
      <==> !(failed && cancelled) && (SomeNeed(pj.needs, jobs, NeedSkipped) ==> failed || cancelled)
  {
    NeedsFlags(pj.needs, jobs, NoNeeds);
  }

  function LegThat(id: int, key: string, conclusion: Conclusion): Job {
    OneJob.(id := id, key := key, status := Completed, conclusion := conclusion)
  }

  const NeedsBuild := PlannedJob("deploy", "", ["build"], [], "", false, RetryPolicy(1, [], BackoffNone, 0, 0), "", false, false, 0, false, 0)

  /** One skipped need makes none of the three true; a failed need of a cancelled run
      makes two of them true. */
  lemma StatusesAreNotExclusive()
    ensures var none := ComputeNeeds(NeedsBuild, [LegThat(1, "build", Skipped)], false).state;
      !none.success && !none.failure && !none.cancelled
    ensures var two := ComputeNeeds(NeedsBuild, [LegThat(1, "build", Failure)], true).state;
      two.failure && two.cancelled
  {
    var skipped, failed := [LegThat(1, "build", Skipped)], [LegThat(1, "build", Failure)];
    assert LegsOf(skipped, "build") == skipped && LegsOf(failed, "build") == failed;
    assert GatingConclusions(skipped) == [Skipped] && GatingConclusions(failed) == [Failure];
    assert [Failure][0] in [Failure];
    assert NeedsFrom(["build"], skipped, NoNeeds) == NeedsFrom([], skipped, AddNeed(NoNeeds, "build", skipped));
    assert NeedsFrom(["build"], failed, NoNeeds) == NeedsFrom([], failed, AddNeed(NoNeeds, "build", failed));
  }
}
