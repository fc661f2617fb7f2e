/** What the dispatch decision comes to for one job, said of the rows of its run and not of the
    functions that decide: what its needs tell it, when it may run, when it is skipped, and when it
    waits for a slot or for its group. */
module Deciding {
  import opened Model
  import opened Entities
  import opened Steps
  import opened Invariants
  import opened Moves
  import opened Attempts
  import opened Admissions

  // -------------------------------------------------------------------- Needs

  /** The leg counts against its dependents. */
  predicate FailedRow(j: Job) {
    && j.conclusion in {Failure, TimedOut, InfraFailure, ConfigError, ActionRequired}
    && !j.continueOnError
  }

  ghost predicate SomeFailed(jobs: seq<Job>, n: string) {
    exists k :: 0 <= k < |jobs| && jobs[k].key == n && FailedRow(jobs[k])
  }

  ghost predicate SomeCancelled(jobs: seq<Job>, n: string) {
    exists k :: 0 <= k < |jobs| && jobs[k].key == n && jobs[k].conclusion == Cancelled
  }

  ghost predicate SomeRan(jobs: seq<Job>, n: string) {
    exists k :: 0 <= k < |jobs| && jobs[k].key == n && jobs[k].conclusion != Skipped
  }

  /** Nothing failed that counts, nothing was cancelled, and not everything was skipped. */
  ghost predicate MetBy(jobs: seq<Job>, n: string) {
    !SomeFailed(jobs, n) && !SomeCancelled(jobs, n) && SomeRan(jobs, n)
  }

  /** Every need has legs, and all of them are done. */
  ghost predicate NeedsDone(jobs: seq<Job>, needs: seq<string>) {
    forall n :: n in needs ==> (exists k :: 0 <= k < |jobs| && jobs[k].key == n) && LegsDone(jobs, n)
  }

  predicate LegsDone(jobs: seq<Job>, n: string) {
    forall k :: 0 <= k < |jobs| && jobs[k].key == n ==> jobs[k].status.Completed?
  }

  /** Row k is the last of its legs to set the output. */
  predicate LastToSet(jobs: seq<Job>, n: string, name: string, k: nat) {
    && k < |jobs| && jobs[k].key == n && name in jobs[k].outputs
    && forall m :: k < m < |jobs| && jobs[m].key == n ==> name !in jobs[m].outputs
  }

  /** The outputs of the legs together; where several legs set one, the last of them wins. */
  ghost predicate OutputsTell(jobs: seq<Job>, n: string, outputs: map<string, string>) {
    && (forall name :: name in outputs <==> exists k: nat :: LastToSet(jobs, n, name, k))
    && (forall name, k: nat :: LastToSet(jobs, n, name, k) ==> name in outputs && outputs[name] == jobs[k].outputs[name])
  }

  predicate ResultTells(failed: bool, cancelled: bool, ran: bool, r: NeedResult) {
    r == if failed then NeedFailure else if cancelled then NeedCancelled else if ran then NeedSuccess else NeedSkipped
  }

  ghost predicate EntryTells(jobs: seq<Job>, n: string, entry: NeedEntry) {
    && ResultTells(SomeFailed(jobs, n), SomeCancelled(jobs, n), SomeRan(jobs, n), entry.result)
    && OutputsTell(jobs, n, entry.outputs)
  }

  /** What an if: is told of finished needs. */
  ghost predicate NeedsTell(jobs: seq<Job>, needs: seq<string>, told: NeedsState) {
    && told.ready
    && (told.success <==> forall n :: n in needs ==> MetBy(jobs, n))
    && (told.failure <==> exists n :: n in needs && SomeFailed(jobs, n))
    && (told.cancelled <==> exists n :: n in needs && !SomeFailed(jobs, n) && SomeCancelled(jobs, n))
    && told.context.Keys == (set n | n in needs)
    && forall n :: n in needs ==> EntryTells(jobs, n, told.context[n])
  }

  lemma {:induction false} SomeLastToSet(jobs: seq<Job>, n: string, name: string, k: nat) returns (last: nat)
    requires k < |jobs| && jobs[k].key == n && name in jobs[k].outputs
    ensures LastToSet(jobs, n, name, last)
    decreases |jobs| - k
  {
    if m :| k < m < |jobs| && jobs[m].key == n && name in jobs[m].outputs {
      last := SomeLastToSet(jobs, n, name, m);
    } else {
      last := k;
    }
  }

  lemma SameOutputs(jobs: seq<Job>, n: string, a: map<string, string>, b: map<string, string>)
    requires OutputsTell(jobs, n, a) && OutputsTell(jobs, n, b)
    ensures a == b
  {
    hide LastToSet;
    forall name | name in a ensures name in b && a[name] == b[name] {
      var k: nat :| LastToSet(jobs, n, name, k);
    }
    forall name | name in b ensures name in a {
      var k: nat :| LastToSet(jobs, n, name, k);
    }
    assert a.Keys == b.Keys;
  }

  /** The rows leave no doubt about what an if: is told. */
  lemma NeedsTellOneThing(jobs: seq<Job>, needs: seq<string>, a: NeedsState, b: NeedsState)
    requires NeedsTell(jobs, needs, a) && NeedsTell(jobs, needs, b)
    ensures a == b
  {
    hide SomeFailed, SomeCancelled, SomeRan, OutputsTell, MetBy;
    forall n | n in needs ensures n in a.context && n in b.context && a.context[n] == b.context[n] {
      assert EntryTells(jobs, n, a.context[n]) && EntryTells(jobs, n, b.context[n]);
      SameOutputs(jobs, n, a.context[n].outputs, b.context[n].outputs);
    }
    assert a.context == b.context;
  }

  // ------------------------------------------------ The code tells the same

  lemma {:induction false} LegsFromTheBack(jobs: seq<Job>, n: string)
    requires jobs != []
    ensures var front, last := jobs[..|jobs| - 1], jobs[|jobs| - 1];
      LegsOf(jobs, n) == LegsOf(front, n) + (if last.key == n then [last] else [])
    decreases |jobs|
  {
    if |jobs| > 1 {
      LegsFromTheBack(jobs[1..], n);
      assert jobs[1..][..|jobs| - 2] == jobs[..|jobs| - 1][1..];
    }
  }

  lemma PlaceOfLast(jobs: seq<Job>, n: string, name: string, k: nat)
    requires LastToSet(jobs, n, name, k)
    ensures k < |jobs| && jobs[k].key == n && name in jobs[k].outputs
  {
  }

  lemma LastOfMore(jobs: seq<Job>, n: string, name: string, k: nat)
    requires k + 1 < |jobs|
    ensures var front, last := jobs[..|jobs| - 1], jobs[|jobs| - 1];
      LastToSet(jobs, n, name, k) <==> LastToSet(front, n, name, k) && !(last.key == n && name in last.outputs)
  {
    var m := |jobs| - 1;
    assert forall i :: 0 <= i < m ==> jobs[..m][i] == jobs[i];
    if LastToSet(jobs, n, name, k) && jobs[m].key == n {
      assert name !in jobs[m].outputs;
    }
  }

  lemma OutputsOneMore(jobs: seq<Job>, n: string, before: map<string, string>)
    requires jobs != [] && OutputsTell(jobs[..|jobs| - 1], n, before)
    ensures var last := jobs[|jobs| - 1]; OutputsTell(jobs, n, if last.key == n then before + last.outputs else before)
  {
    var m := |jobs| - 1;
    var front, last := jobs[..m], jobs[m];
    var after := if last.key == n then before + last.outputs else before;
    forall name, k: nat | k < m ensures LastToSet(jobs, n, name, k) <==>
      LastToSet(front, n, name, k) && !(last.key == n && name in last.outputs)
    {
      LastOfMore(jobs, n, name, k);
    }
    forall name ensures LastToSet(jobs, n, name, m) <==> last.key == n && name in last.outputs {
    }
    hide LastToSet;
    forall name, k: nat | LastToSet(jobs, n, name, k) ensures name in after && after[name] == jobs[k].outputs[name] {
      assert k <= m by {
        PlaceOfLast(jobs, n, name, k);
      }
      assert k < m ==> LastToSet(front, n, name, k);
    }
    forall name | name in after ensures exists k: nat :: LastToSet(jobs, n, name, k) {
      if last.key == n && name in last.outputs {
        assert LastToSet(jobs, n, name, m);
      } else {
        var k: nat :| LastToSet(front, n, name, k);
        PlaceOfLast(front, n, name, k);
        assert LastToSet(jobs, n, name, k);
      }
    }
  }

  lemma {:induction false} MergedOutputsTell(jobs: seq<Job>, n: string)
    ensures OutputsTell(jobs, n, MergeOutputs(LegsOf(jobs, n)))
    decreases |jobs|
  {
    if jobs == [] {
      assert MergeOutputs(LegsOf(jobs, n)) == map[];
    } else {
      var front, last := jobs[..|jobs| - 1], jobs[|jobs| - 1];
      MergedOutputsTell(front, n);
      LegsFromTheBack(jobs, n);
      hide LegsOf, OutputsTell;
      OutputsOneMore(jobs, n, MergeOutputs(LegsOf(front, n)));
      var legs := LegsOf(jobs, n);
      if last.key == n {
        assert legs[..|legs| - 1] == LegsOf(front, n) && legs[|legs| - 1] == last;
      } else {
        assert legs == LegsOf(front, n);
      }
    }
  }

  lemma LegsAreTheRows(jobs: seq<Job>, n: string)
    ensures LegsOf(jobs, n) != [] <==> exists k :: 0 <= k < |jobs| && jobs[k].key == n
    ensures AllCompleted(LegsOf(jobs, n)) <==> LegsDone(jobs, n)
  {
    hide LegsOf;
    var legs := LegsOf(jobs, n);
    if legs != [] {
      assert legs[0] in legs;
    }
    forall k | 0 <= k < |jobs| && jobs[k].key == n ensures jobs[k] in legs && legs != [] {
    }
    if LegsDone(jobs, n) {
      forall m | 0 <= m < |legs| ensures legs[m].status.Completed? {
        assert legs[m] in legs;
      }
    }
    if AllCompleted(legs) {
      forall k | 0 <= k < |jobs| && jobs[k].key == n ensures jobs[k].status.Completed? {
        assert jobs[k] in legs;
        var m :| 0 <= m < |legs| && legs[m] == jobs[k];
      }
    }
  }

  lemma GatingTells(j: Job)
    ensures Gating(j).IsFailure() <==> FailedRow(j)
    ensures Gating(j) == Cancelled <==> j.conclusion == Cancelled
    ensures Gating(j) == Skipped <==> j.conclusion == Skipped
  {
  }

  lemma GatedLeg(jobs: seq<Job>, n: string, k: nat)
    requires k < |jobs| && jobs[k].key == n
    ensures Gating(jobs[k]) in GatingConclusions(LegsOf(jobs, n))
  {
    hide LegsOf, Gating;
    var legs := LegsOf(jobs, n);
    assert jobs[k] in legs;
    var m :| 0 <= m < |legs| && legs[m] == jobs[k];
    assert GatingConclusions(legs)[m] == Gating(jobs[k]);
  }

  lemma LegOfGated(jobs: seq<Job>, n: string, c: Conclusion) returns (k: nat)
    requires c in GatingConclusions(LegsOf(jobs, n))
    ensures k < |jobs| && jobs[k].key == n && Gating(jobs[k]) == c
  {
    hide LegsOf, Gating;
    var legs := LegsOf(jobs, n);
    var cs := GatingConclusions(legs);
    var m :| 0 <= m < |cs| && cs[m] == c;
    assert legs[m] in legs && legs[m] in jobs;
    k :| 0 <= k < |jobs| && jobs[k] == legs[m];
  }

  lemma NeedResultTells(jobs: seq<Job>, n: string)
    requires LegsOf(jobs, n) != []
    ensures var cs := GatingConclusions(LegsOf(jobs, n));
      && ((exists c :: c in cs && c.IsFailure()) <==> SomeFailed(jobs, n))
      && (Cancelled in cs <==> SomeCancelled(jobs, n))
      && ((exists c :: c in cs && c != Skipped) <==> SomeRan(jobs, n))
      && cs != []
  {
    hide LegsOf, FailedRow, Gating, GatingConclusions;
    var cs := GatingConclusions(LegsOf(jobs, n));
    assert |cs| == |LegsOf(jobs, n)|;
    if c :| c in cs && c.IsFailure() {
      var k := LegOfGated(jobs, n, c);
      GatingTells(jobs[k]);
    }
    if c :| c in cs && c != Skipped {
      var k := LegOfGated(jobs, n, c);
      GatingTells(jobs[k]);
    }
    if Cancelled in cs {
      var k := LegOfGated(jobs, n, Cancelled);
      GatingTells(jobs[k]);
    }
    forall k | 0 <= k < |jobs| && jobs[k].key == n ensures Gating(jobs[k]) in cs
      && (FailedRow(jobs[k]) <==> Gating(jobs[k]).IsFailure())
      && (jobs[k].conclusion == Cancelled <==> Gating(jobs[k]) == Cancelled)
      && (jobs[k].conclusion == Skipped <==> Gating(jobs[k]) == Skipped)
    {
      GatedLeg(jobs, n, k);
      GatingTells(jobs[k]);
    }
  }

  /** One need reduced as the code does it. */
  function Entry(jobs: seq<Job>, n: string): NeedEntry {
    NeedEntry(MergeOutputs(LegsOf(jobs, n)), NeedsResult(GatingConclusions(LegsOf(jobs, n))))
  }

  lemma EntryIsTold(jobs: seq<Job>, n: string)
    requires LegsOf(jobs, n) != []
    ensures EntryTells(jobs, n, Entry(jobs, n)) && (Entry(jobs, n).result == NeedSuccess <==> MetBy(jobs, n))
    ensures Entry(jobs, n).result == NeedFailure <==> SomeFailed(jobs, n)
    ensures Entry(jobs, n).result == NeedCancelled <==> !SomeFailed(jobs, n) && SomeCancelled(jobs, n)
  {
    hide SomeFailed, SomeCancelled, SomeRan, OutputsTell, LegsOf, GatingConclusions;
    NeedResultTells(jobs, n);
    MergedOutputsTell(jobs, n);
  }

  /** What a fold over the needs adds to what was known before. */
  ghost predicate Adds(needs: seq<string>, jobs: seq<Job>, before: NeedsState, after: NeedsState) {
    && (after.success <==> before.success && forall n :: n in needs ==> Entry(jobs, n).result == NeedSuccess)
    && (after.failure <==> before.failure || exists n :: n in needs && Entry(jobs, n).result == NeedFailure)
    && (after.cancelled <==> before.cancelled || exists n :: n in needs && Entry(jobs, n).result == NeedCancelled)
    && after.context.Keys == before.context.Keys + (set n | n in needs)
    && (forall n :: n in needs ==> after.context[n] == Entry(jobs, n))
    && (forall n :: n in before.context && n !in needs ==> after.context[n] == before.context[n])
  }

  lemma {:induction false} NeedsAdd(needs: seq<string>, jobs: seq<Job>, st: NeedsState)
    requires st.ready
    ensures var r := NeedsFrom(needs, jobs, st);
      && (r.NeedsOk? && r.state.ready <==> NeedsDone(jobs, needs))
      && (NeedsDone(jobs, needs) ==> Adds(needs, jobs, st, r.state))
    decreases |needs|
  {
    hide LegsOf, GatingConclusions, MergeOutputs, NeedsResult, AllCompleted, LegsDone;
    if needs != [] {
      var n, rest := needs[0], needs[1..];
      assert needs == [n] + rest;
      LegsAreTheRows(jobs, n);
      NeedsAdd(rest, jobs, AddNeed(st, n, LegsOf(jobs, n)));
      if NeedsDone(jobs, needs) {
        assert NeedsDone(jobs, rest);
        AddsOneMore(needs, jobs, st, NeedsFrom(needs, jobs, st).state);
      }
    }
  }

  lemma AddsOneMore(needs: seq<string>, jobs: seq<Job>, st: NeedsState, after: NeedsState)
    requires needs != [] && Adds(needs[1..], jobs, AddNeed(st, needs[0], LegsOf(jobs, needs[0])), after)
    ensures Adds(needs, jobs, st, after)
  {
    hide LegsOf, GatingConclusions, MergeOutputs, NeedsResult;
    assert needs == [needs[0]] + needs[1..];
    var mid := AddNeed(st, needs[0], LegsOf(jobs, needs[0]));
    assert mid.context == st.context[needs[0] := Entry(jobs, needs[0])];
  }

  /** The code waits until every leg of every need is done, and then tells what they came to. */
  lemma NeedsAreTold(pj: PlannedJob, jobs: seq<Job>)
    ensures var r := ComputeNeeds(pj, jobs, false);
      && (r.NeedsOk? && r.state.ready <==> NeedsDone(jobs, pj.needs))
      && (NeedsDone(jobs, pj.needs) ==> NeedsTell(jobs, pj.needs, r.state))
  {
    hide NeedsFrom, LegsDone, Entry, SomeFailed, SomeCancelled, SomeRan, MetBy;
    NeedsAdd(pj.needs, jobs, NoNeeds);
    if NeedsDone(jobs, pj.needs) {
      forall n | n in pj.needs ensures EntryTells(jobs, n, Entry(jobs, n))
        && (Entry(jobs, n).result == NeedSuccess <==> MetBy(jobs, n))
        && (Entry(jobs, n).result == NeedFailure <==> SomeFailed(jobs, n))
        && (Entry(jobs, n).result == NeedCancelled <==> !SomeFailed(jobs, n) && SomeCancelled(jobs, n))
      {
        LegsAreTheRows(jobs, n);
        EntryIsTold(jobs, n);
      }
    }
  }

  // ------------------------------------------------------------------ One turn

  ghost predicate NeedsMet(jobs: seq<Job>, pj: PlannedJob) {
    forall n :: n in pj.needs ==> MetBy(jobs, n)
  }

  /** The if: says yes, if there is one; and unless it names a status function the needs say
      yes too. */
  ghost predicate MayRun(opts: Options, p: Plan, pj: PlannedJob, jobs: seq<Job>, told: NeedsState) {
    && (pj.cond == "" || opts.eval(p, pj, told) == Some(true))
    && ((pj.cond != "" && pj.namesStatus) || NeedsMet(jobs, pj))
  }

  /** The if: says no, or leaves it to needs that were not met. */
  ghost predicate MayNotRun(opts: Options, p: Plan, pj: PlannedJob, jobs: seq<Job>, told: NeedsState) {
    || (pj.cond != "" && opts.eval(p, pj, told) == Some(false))
    || (!(pj.cond != "" && pj.namesStatus) && !NeedsMet(jobs, pj) && (pj.cond == "" || opts.eval(p, pj, told) != None))
  }

  lemma ShouldRunTells(opts: Options, p: Plan, pj: PlannedJob, jobs: seq<Job>, told: NeedsState)
    requires NeedsTell(jobs, pj.needs, told)
    ensures ShouldRun(opts, p, pj, told) == Some(true) <==> MayRun(opts, p, pj, jobs, told)
    ensures ShouldRun(opts, p, pj, told) == Some(false) <==> MayNotRun(opts, p, pj, jobs, told)
  {
    hide MetBy, SomeFailed, SomeCancelled, EntryTells;
  }

  /** A slot is left among the legs of the job. */
  predicate SlotLeft(a: Admission, j: Job, pj: PlannedJob) {
    pj.maxParallel <= 0 || !(j.key in a.inFlight) || a.inFlight[j.key] < pj.maxParallel
  }

  /** The places of the listed legs that are queued or running. */
  ghost function InFlightAt(jobs: seq<Job>, key: string): set<int> {
    set k | 0 <= k < |jobs| && jobs[k].key == key && !jobs[k].status.Completed? && jobs[k].queuedAt.Some?
  }

  lemma OneMorePlace(jobs: seq<Job>, key: string)
    requires jobs != []
    ensures var m := |jobs| - 1;
      && m !in InFlightAt(jobs[..m], key)
      && InFlightAt(jobs, key) == InFlightAt(jobs[..m], key) + (if jobs[m].key == key && InFlight(jobs[m]) then {m} else {})
  {
  }

  /** The pass begins with every slot in use counted once. */
  lemma {:induction false} SlotsAreCountedOnce(jobs: seq<Job>, key: string)
    ensures Count(CountInFlight(jobs), key) == |InFlightAt(jobs, key)|
    decreases |jobs|
  {
    if jobs == [] {
      assert InFlightAt(jobs, key) == {};
    } else {
      SlotsAreCountedOnce(jobs[..|jobs| - 1], key);
      OneMorePlace(jobs, key);
      hide InFlightAt;
    }
  }

  /** Another unfinished job of the group is queued or running. */
  ghost predicate GroupHeld(w: World, j: Job) {
    exists id :: id in w.jobs && id != j.id && w.jobs[id].group == j.group && !w.jobs[id].status.Completed?
      && (w.jobs[id].queuedAt.Some? || w.jobs[id].status.InProgress?)
  }

  /** The job may have its group: nobody took it in this pass, and nobody has it, or it cancels
      whoever has. */
  ghost predicate GroupOpen(a: Admission, j: Job, pj: PlannedJob) {
    j.group == "" || (j.group !in a.taken && (pj.cancelInProgress || !GroupHeld(a.w, j)))
  }

  /** The row of a job that was skipped. */
  function SkippedRow(j: Job, now: int): Job {
    j.(status := Completed, conclusion := Skipped, fault := ClassNone, cancel := None, completedAt := Some(now),
       runnerID := "", leaseExpiresAt := None)
  }

  function QueuedRow(j: Job, now: int): Job {
    j.(status := Queued, queuedAt := Some(now))
  }

  /** The pass goes on as if it had not looked at the job. */
  predicate LeftAlone(a: Admission, a': Admission) {
    a'.w == a.w && a'.jobs == a.jobs && a'.inFlight == a.inFlight && a'.taken == a.taken
  }

  lemma HoldersHold(w: World, j: Job)
    requires Structure(w)
    ensures HoldersOf(LiveBelow(w.jobs, w.nextJob, j.group), j.id) != [] <==> GroupHeld(w, j)
    ensures forall h :: h in HoldersOf(LiveBelow(w.jobs, w.nextJob, j.group), j.id) ==> InStep(w, h) && h.group == j.group && Holds(h)
  {
    hide LiveBelow, HoldersOf;
    HoldersAreAll(w, j);
    LiveAreOfTheGroup(w, w.nextJob, j.group);
    var holders := HoldersOf(LiveBelow(w.jobs, w.nextJob, j.group), j.id);
    if holders != [] {
      assert holders[0] in holders;
      assert holders[0] in LiveBelow(w.jobs, w.nextJob, j.group);
    }
    if GroupHeld(w, j) {
      var id :| id in w.jobs && id != j.id && w.jobs[id].group == j.group && !w.jobs[id].status.Completed?
        && (w.jobs[id].queuedAt.Some? || w.jobs[id].status.InProgress?);
      assert w.jobs[id] in holders;
    }
  }

  lemma {:induction false} LiveAreOfTheGroup(w: World, n: int, group: string)
    ensures forall j :: j in LiveBelow(w.jobs, n, group) ==> j.group == group
    decreases n
  {
    if n > 0 {
      LiveAreOfTheGroup(w, n - 1, group);
    }
  }

  /** A job that admission has nothing to say about, or that still waits for a need, is left
      alone; so is the whole pass where the plan, a need or the if: is in error. */
  lemma UndecidedJobsAreLeftAlone(opts: Options, run: Run, p: Plan, i: nat, a: Admission, now: int)
    requires i < |a.jobs| && run.cancel.None?
    ensures var a' := AdmitOne(opts, run, p, i, a, now); var j := a.jobs[i];
      var found := Find(p.jobs, j.key, j.matrixKey);
      && (!Pending(j) ==> a' == a)
      && (Pending(j) && found.None? ==> a' == a.(ok := false))
      && (Pending(j) && found.Some? && !NeedsDone(a.jobs, found.value.needs) ==> LeftAlone(a, a'))
      && (Pending(j) && found.Some? && NeedsDone(a.jobs, found.value.needs) ==> forall told ::
           NeedsTell(a.jobs, found.value.needs, told) && found.value.cond != "" && opts.eval(p, found.value, told).None?
           ==> a' == a.(ok := false))
  {
    hide Find, ComputeNeeds, NeedsTell, NeedsDone, FinishAttempt, Place;
    var j := a.jobs[i];
    var found := Find(p.jobs, j.key, j.matrixKey);
    if Pending(j) && found.Some? {
      NeedsAreTold(found.value, a.jobs);
      if NeedsDone(a.jobs, found.value.needs) {
        var told := ComputeNeeds(found.value, a.jobs, false).state;
        forall other | NeedsTell(a.jobs, found.value.needs, other) ensures other == told {
          NeedsTellOneThing(a.jobs, found.value.needs, told, other);
        }
      }
    }
  }

  /** A job whose needs are done and whose if: says no, or leaves it to needs that were not
      met, is skipped, and only such a job is. */
  lemma SkippedExactlyWhenToldNo(opts: Options, run: Run, p: Plan, i: nat, a: Admission, now: int, pj: PlannedJob,
                                 told: NeedsState)
    requires Pass(a, run, p) && i < |a.jobs| && run.cancel.None? && Pending(a.jobs[i])
    requires Find(p.jobs, a.jobs[i].key, a.jobs[i].matrixKey) == Some(pj)
    requires NeedsDone(a.jobs, pj.needs) ==> NeedsTell(a.jobs, pj.needs, told)
    ensures var a' := AdmitOne(opts, run, p, i, a, now); var j := a.jobs[i];
      && (a'.jobs[i].status.Completed? <==> NeedsDone(a.jobs, pj.needs) && MayNotRun(opts, p, pj, a.jobs, told))
      && (a'.jobs[i].status.Completed? ==>
           && a'.jobs == a.jobs[i := SkippedRow(j, now)] && a'.w.jobs == a.w.jobs[j.id := SkippedRow(j, now)]
           && a'.w.events == a.w.events + [Event(JobSkipped, j.runID, j.id, j.attempt, now, 0)]
           && a'.w.queue == a.w.queue && a'.w.nextJob == a.w.nextJob && a'.inFlight == a.inFlight && a'.taken == a.taken)
  {
    hide Find, ComputeNeeds, NeedsTell, NeedsDone, FinishAttempt, Place, MayRun, MayNotRun, ShouldRun, Inv, Snapshot, SlotsCounted;
    var j := a.jobs[i];
    NeedsAreTold(pj, a.jobs);
    PlaceDoesNotEnd(i, pj, a, now);
    SkipShape(a.w, pj, j, now);
    PendingIsNotQueued(a, run, p, i);
    if NeedsDone(a.jobs, pj.needs) {
      NeedsTellOneThing(a.jobs, pj.needs, told, ComputeNeeds(pj, a.jobs, false).state);
      ShouldRunTells(opts, p, pj, a.jobs, told);
    }
  }

  lemma PendingIsNotQueued(a: Admission, run: Run, p: Plan, i: nat)
    requires Pass(a, run, p) && i < |a.jobs| && Pending(a.jobs[i])
    ensures var j := a.jobs[i];
      InStep(a.w, j) && j.id !in a.w.queue && j.runID == run.id && !InFlight(j)
  {
    hide Inv, Snapshot, SlotsCounted;
    InvHasStructure(a.w);
    PendingCopiesAreInStep(a.w, a.jobs, run.id, i);
    JobFacts(a.w, a.jobs[i].id);
  }

  lemma SkipShape(w: World, pj: PlannedJob, j: Job, now: int)
    ensures var f := FinishAttempt(w, Some(pj), j, SkipResult, now, false);
      && f.ok && f.job == SkippedRow(j, now) && f.w.jobs == w.jobs[j.id := SkippedRow(j, now)]
      && f.w.events == w.events + [Event(JobSkipped, j.runID, j.id, j.attempt, now, 0)]
      && f.w.queue == w.queue - {j.id} && f.w.nextJob == w.nextJob
  {
  }

  lemma PlaceDoesNotEnd(i: nat, pj: PlannedJob, a: Admission, now: int)
    requires i < |a.jobs| && Pending(a.jobs[i])
    ensures !Place(i, pj, a, now).jobs[i].status.Completed?
  {
    hide DisplaceAll, HoldersOf, LiveBelow;
  }

  /** What becomes of a job whose group is taken over. */
  predicate TakenOver(j: Job, j': Job, now: int) {
    j' == j.(status := Completed, conclusion := Cancelled, fault := ClassNone, cancel := j'.cancel, completedAt := Some(now),
             runnerID := "", leaseExpiresAt := None)
    && j'.cancel.Some? && j'.cancel.value.actor == ActorConcurrencyGroup
  }

  lemma DisplaceShape(w: World, h: Job, now: int)
    ensures var f := StopJob(w, None, h, Because(ActorConcurrencyGroup), Cancelled, ClassNone, now, false);
      && f.ok && TakenOver(h, f.job, now) && f.w.jobs == w.jobs[h.id := f.job] && f.w.queue == w.queue - {h.id}
      && f.w.nextJob == w.nextJob
      && f.w.events == w.events + [Event(JobCancelled, h.runID, h.id, h.attempt, now, 0)]
  {
  }

  ghost predicate AllTakenOver(w: World, w': World, ids: set<int>, now: int) {
    && w'.jobs.Keys == w.jobs.Keys && w'.queue == w.queue - ids && w'.nextJob == w.nextJob
    && forall id :: id in w.jobs ==> if id in ids then TakenOver(w.jobs[id], w'.jobs[id], now) else w'.jobs[id] == w.jobs[id]
  }

  /** Nothing but the cancellation of these jobs is logged. */
  predicate OnlyCancellations(w: World, w': World) {
    w.events <= w'.events && forall i :: |w.events| <= i < |w'.events| ==> w'.events[i].kind == JobCancelled
  }

  lemma {:induction false} DisplacingTakesOver(w: World, holders: seq<Job>, id: int, now: int)
    requires Displaceable(w, holders, id)
    ensures var w' := DisplaceAll(w, holders, now);
      AllTakenOver(w, w', IdsOf(holders), now) && OnlyCancellations(w, w')
    decreases |holders|
  {
    hide StopJob, TakenOver;
    if holders == [] {
      assert IdsOf(holders) == {};
      assert w.queue - {} == w.queue;
    } else {
      var h := holders[0];
      assert h in holders;
      DisplaceShape(w, h, now);
      var f := StopJob(w, None, h, Because(ActorConcurrencyGroup), Cancelled, ClassNone, now, false);
      IdsOfHeadAndTail(holders);
      assert f.job.id == h.id by {
        TakenOverKeepsId(h, f.job, now);
      }
      RestDisplaceable(w, f.w, holders, id);
      DisplacingTakesOver(f.w, holders[1..], id, now);
      var w' := DisplaceAll(f.w, holders[1..], now);
      assert w.queue - IdsOf(holders) == (w.queue - {h.id}) - IdsOf(holders[1..]);
    }
  }

  lemma TakenOverKeepsId(j: Job, j': Job, now: int)
    requires TakenOver(j, j', now)
    ensures j'.id == j.id
  {
  }

  lemma RestDisplaceable(w: World, w1: World, holders: seq<Job>, id: int)
    requires Displaceable(w, holders, id) && holders != [] && holders[0].id in w.jobs
    requires w1.jobs.Keys == w.jobs.Keys && forall k :: k in w.jobs && k != holders[0].id ==> w1.jobs[k] == w.jobs[k]
    ensures Displaceable(w1, holders[1..], id)
  {
    forall h | h in holders[1..] ensures InStep(w1, h) && Holds(h) && h.id != id {
      var m :| 0 <= m < |holders[1..]| && holders[1..][m] == h;
      assert holders[m + 1] == h && h in holders;
    }
  }

  /** The jobs that have to make room: those that hold the group. */
  ghost function Evicted(w: World, j: Job): set<int> {
    if j.group == "" then {} else set id | id in w.jobs && id != j.id && w.jobs[id].group == j.group && Holds(w.jobs[id])
  }

  lemma HoldersAreEvicted(w: World, j: Job)
    requires Structure(w) && j.group != ""
    ensures IdsOf(HoldersOf(LiveBelow(w.jobs, w.nextJob, j.group), j.id)) == Evicted(w, j)
    ensures Displaceable(w, HoldersOf(LiveBelow(w.jobs, w.nextJob, j.group), j.id), j.id)
  {
    hide LiveBelow, HoldersOf;
    HoldersAreAll(w, j);
    HoldersHold(w, j);
    var holders := HoldersOf(LiveBelow(w.jobs, w.nextJob, j.group), j.id);
    forall id | id in Evicted(w, j) ensures id in IdsOf(holders) {
      assert w.jobs[id] in holders && w.jobs[id].id == id;
    }
  }

  /** What admission to the group comes to. */
  lemma GroupDecides(a: Admission, j: Job, pj: PlannedJob, now: int)
    requires Structure(a.w) && InStep(a.w, j)
    ensures var g := AdmitToGroup(a.w, j, pj, a.taken, now);
      && (g.admitted <==> GroupOpen(a, j, pj))
      && (g.admitted ==>
           && g.job == j && AllTakenOver(a.w, g.w, Evicted(a.w, j), now) && OnlyCancellations(a.w, g.w)
           && g.taken == (if j.group == "" then a.taken else a.taken + {j.group}))
      && (!g.admitted ==> g.w == HoldForGroup(a.w, j, now).w && g.job == HoldForGroup(a.w, j, now).job && g.taken == a.taken)
  {
    hide LiveBelow, HoldersOf, TakenOver, HoldForGroup, DisplaceAll;
    if j.group == "" {
      assert a.w.queue - {} == a.w.queue;
    } else if j.group !in a.taken {
      HoldersHold(a.w, j);
      HoldersAreEvicted(a.w, j);
      DisplacingTakesOver(a.w, HoldersOf(LiveBelow(a.w.jobs, a.w.nextJob, j.group), j.id), j.id, now);
    }
  }

  lemma QueueShape(w: World, j: Job, now: int)
    requires j.id in w.jobs && j.id !in w.queue && !j.status.Completed?
    ensures var f := AdmitToQueue(w, j, now);
      && f.job == QueuedRow(j, now) && f.w.jobs == w.jobs[j.id := QueuedRow(j, now)]
      && f.w.queue == w.queue[j.id := Row(j.labels, j.group, now, now, false, "", 0)] && f.w.nextJob == w.nextJob
      && f.w.events == w.events + [Event(JobQueued, j.runID, j.id, j.attempt, now, 0)]
  {
  }

  lemma PlaceDecides(i: nat, pj: PlannedJob, a: Admission, now: int)
    requires Structure(a.w) && i < |a.jobs| && InStep(a.w, a.jobs[i]) && Pending(a.jobs[i]) && a.jobs[i].id !in a.w.queue
    ensures var a' := Place(i, pj, a, now); var j := a.jobs[i];
      && (a'.jobs[i].queuedAt.Some? <==> SlotLeft(a, j, pj) && GroupOpen(a, j, pj))
      && (a'.jobs[i].queuedAt.Some? ==> Let(a, a', j, now, i))
      && (!SlotLeft(a, j, pj) ==> a' == a)
      && (SlotLeft(a, j, pj) && !GroupOpen(a, j, pj) ==> Parked(a, a', j, now, i))
  {
    hide AdmitToGroup, AdmitToQueue, GroupOpen, TakenOver, Let, Parked, OnlyCancellations, AllTakenOver, HoldForGroup;
    var j := a.jobs[i];
    GroupDecides(a, j, pj, now);
    var g := AdmitToGroup(a.w, j, pj, a.taken, now);
    if g.admitted && SlotLeft(a, j, pj) {
      NowQueued(a, g, i, now);
    } else if SlotLeft(a, j, pj) {
      NowParked(a, i, now);
    }
  }

  lemma NowQueued(a: Admission, g: GroupDecision, i: nat, now: int)
    requires i < |a.jobs| && InStep(a.w, a.jobs[i]) && Pending(a.jobs[i]) && a.jobs[i].id !in a.w.queue
    requires g.job == a.jobs[i] && AllTakenOver(a.w, g.w, Evicted(a.w, g.job), now) && OnlyCancellations(a.w, g.w)
    requires g.taken == (if g.job.group == "" then a.taken else a.taken + {g.job.group})
    ensures var j := a.jobs[i]; var f := AdmitToQueue(g.w, j, now);
      var a' := Admission(f.w, a.jobs[i := f.job], a.inFlight[j.key := Count(a.inFlight, j.key) + 1], g.taken, a.ok);
      Let(a, a', j, now, i) && a'.jobs[i].queuedAt.Some?
  {
    hide AdmitToQueue, TakenOver;
    var j := a.jobs[i];
    QueueShape(g.w, j, now);
    var f := AdmitToQueue(g.w, j, now);
    forall k | |a.w.events| <= k < |f.w.events| - 1 ensures f.w.events[k].kind == JobCancelled {
      assert f.w.events[k] == g.w.events[k];
    }
  }

  lemma NowParked(a: Admission, i: nat, now: int)
    requires i < |a.jobs| && InStep(a.w, a.jobs[i]) && Pending(a.jobs[i])
    ensures var j := a.jobs[i]; var h := HoldForGroup(a.w, j, now);
      Parked(a, a.(w := h.w, jobs := a.jobs[i := h.job]), j, now, i) && h.job.queuedAt.None?
  {
    var j := a.jobs[i];
    if j.status.Waiting? {
      assert a.jobs[i := j] == a.jobs && a.w.jobs[j.id := j] == a.w.jobs;
    }
  }

  /** The job is on the queue, for runners with its labels; whoever held its group is not. */
  ghost predicate Let(a: Admission, a': Admission, j: Job, now: int, i: nat)
    requires i < |a.jobs|
  {
    && a'.jobs == a.jobs[i := QueuedRow(j, now)] && a'.ok == a.ok && a'.w.nextJob == a.w.nextJob
    && j.id in a'.w.jobs && a'.w.jobs[j.id] == QueuedRow(j, now) && a'.w.jobs.Keys == a.w.jobs.Keys
    && j.id in a'.w.queue && a'.w.queue[j.id] == Row(j.labels, j.group, now, now, false, "", 0)
    && (forall id :: id in a.w.jobs && id != j.id ==>
         if id in Evicted(a.w, j) then TakenOver(a.w.jobs[id], a'.w.jobs[id], now) && id !in a'.w.queue
         else a'.w.jobs[id] == a.w.jobs[id] && (id in a'.w.queue <==> id in a.w.queue))
    && a'.inFlight == a.inFlight[j.key := (if j.key in a.inFlight then a.inFlight[j.key] else 0) + 1]
    && a'.taken == (if j.group == "" then a.taken else a.taken + {j.group})
    && |a'.w.events| > |a.w.events| && a.w.events <= a'.w.events
    && a'.w.events[|a'.w.events| - 1] == Event(JobQueued, j.runID, j.id, j.attempt, now, 0)
    && forall k :: |a.w.events| <= k < |a'.w.events| - 1 ==> a'.w.events[k].kind == JobCancelled
  }

  /** The job waits for its group, which is logged when it begins to. */
  predicate Parked(a: Admission, a': Admission, j: Job, now: int, i: nat)
    requires i < |a.jobs|
  {
    && a'.jobs == a.jobs[i := j.(status := Waiting)] && a'.w.jobs == a.w.jobs[j.id := j.(status := Waiting)]
    && a'.w.queue == a.w.queue && a'.w.nextJob == a.w.nextJob
    && a'.inFlight == a.inFlight && a'.taken == a.taken && a'.ok == a.ok
    && a'.w.events == a.w.events + if j.status.Waiting? then [] else [Event(JobWaiting, j.runID, j.id, j.attempt, now, 0)]
  }

  /** A job comes onto the queue exactly when its needs are done, its if: and its needs say yes,
      a slot is left and its group is open. One that is only short of a slot is left alone,
      one that is only short of its group waits. */
  lemma QueuedExactlyWhenToldYes(opts: Options, run: Run, p: Plan, i: nat, a: Admission, now: int, pj: PlannedJob,
                                 told: NeedsState)
    requires Pass(a, run, p) && i < |a.jobs| && run.cancel.None? && Pending(a.jobs[i])
    requires Find(p.jobs, a.jobs[i].key, a.jobs[i].matrixKey) == Some(pj)
    requires NeedsDone(a.jobs, pj.needs) ==> NeedsTell(a.jobs, pj.needs, told)
    ensures var a' := AdmitOne(opts, run, p, i, a, now); var j := a.jobs[i];
      var yes := NeedsDone(a.jobs, pj.needs) && MayRun(opts, p, pj, a.jobs, told);
      && (a'.jobs[i].queuedAt.Some? <==> yes && SlotLeft(a, j, pj) && GroupOpen(a, j, pj))
      && (a'.jobs[i].queuedAt.Some? ==> Let(a, a', j, now, i))
      && (yes && !SlotLeft(a, j, pj) ==> a' == a)
      && (yes && SlotLeft(a, j, pj) && !GroupOpen(a, j, pj) ==> Parked(a, a', j, now, i))
  {
    hide Find, ComputeNeeds, NeedsTell, NeedsDone, FinishAttempt, Place, MayRun, MayNotRun, ShouldRun, Inv, Snapshot, SlotsCounted,
      SlotLeft, GroupOpen, Let, Parked;
    var j := a.jobs[i];
    NeedsAreTold(pj, a.jobs);
    InvHasStructure(a.w);
    PendingIsNotQueued(a, run, p, i);
    PlaceDecides(i, pj, a, now);
    SkipShape(a.w, pj, j, now);
    if NeedsDone(a.jobs, pj.needs) {
      NeedsTellOneThing(a.jobs, pj.needs, told, ComputeNeeds(pj, a.jobs, false).state);
      ShouldRunTells(opts, p, pj, a.jobs, told);
    }
  }
}
