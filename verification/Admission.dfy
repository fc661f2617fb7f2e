/** The dispatch decision: whatever one pass over a run's jobs admits, skips, holds or
    displaces, the invariants survive it. The pass keeps its own counts of slots and groups
    taken; what ties them to the rows in the store is the invariant of the pass. */
module Admissions {
  import opened Model
  import opened Retry
  import opened Entities
  import opened Steps
  import opened Invariants
  import opened Moves
  import opened Attempts
  import opened Sweeps

  // -------------------------------------------------------------------- Slots

  /** The counted slots are never fewer than the jobs in flight. */
  ghost predicate SlotsCounted(w: World, inFlight: map<string, int>, r: int) {
    forall key :: |FlightOf(w, r, key)| <= Count(inFlight, key)
  }

  ghost function FlightListed(jobs: seq<Job>, key: string): set<int> {
    set j | j in jobs && InFlight(j) && j.key == key :: j.id
  }

  lemma {:induction false} CountingCoversTheList(jobs: seq<Job>, key: string)
    ensures |FlightListed(jobs, key)| <= Count(CountInFlight(jobs), key)
    decreases |jobs|
  {
    if jobs == [] {
      assert FlightListed(jobs, key) == {};
    } else {
      var front, j := jobs[..|jobs| - 1], jobs[|jobs| - 1];
      assert jobs == front + [j];
      CountingCoversTheList(front, key);
      if InFlight(j) && j.key == key {
        assert FlightListed(jobs, key) <= FlightListed(front, key) + {j.id};
        Fewer(FlightListed(jobs, key), FlightListed(front, key) + {j.id});
      } else {
        assert FlightListed(jobs, key) <= FlightListed(front, key);
        Fewer(FlightListed(jobs, key), FlightListed(front, key));
      }
    }
  }

  lemma SlotsAreCountedAtTheStart(w: World, jobs: seq<Job>, r: int)
    requires Structure(w) && Exact(w, jobs, r)
    ensures SlotsCounted(w, CountInFlight(jobs), r)
  {
    SnapshotFacts(w, jobs, r);
    forall key ensures |FlightOf(w, r, key)| <= Count(CountInFlight(jobs), key) {
      CountingCoversTheList(jobs, key);
      forall id | id in FlightOf(w, r, key) ensures id in FlightListed(jobs, key) {
        var k :| 0 <= k < |jobs| && jobs[k].id == id;
        assert InStep(w, jobs[k]) && jobs[k] in jobs;
      }
      Fewer(FlightOf(w, r, key), FlightListed(jobs, key));
    }
  }

  // -------------------------------------------------------------------- Needs

  ghost predicate NeedListedMet(jobs: seq<Job>, key: string) {
    var legs := LegsOf(jobs, key);
    legs != [] && AllCompleted(legs) && NeedsResult(GatingConclusions(legs)) == NeedSuccess
  }

  lemma {:induction false} SuccessMeansEveryNeed(needs: seq<string>, jobs: seq<Job>, st: NeedsState)
    requires NeedsFrom(needs, jobs, st).NeedsOk?
    requires NeedsFrom(needs, jobs, st).state.ready && NeedsFrom(needs, jobs, st).state.success
    ensures st.success && forall n :: n in needs ==> NeedListedMet(jobs, n)
    decreases |needs|
  {
    hide LegsOf, GatingConclusions, MergeOutputs, NeedsResult, AllCompleted;
    if needs != [] {
      var legs := LegsOf(jobs, needs[0]);
      SuccessMeansEveryNeed(needs[1..], jobs, AddNeed(st, needs[0], legs));
      assert NeedListedMet(jobs, needs[0]);
      assert needs == [needs[0]] + needs[1..];
    }
  }

  lemma LegsOfAMetNeed(w: World, jobs: seq<Job>, r: int, key: string, l: Job)
    requires Structure(w) && Snapshot(w, jobs, r) && NeedListedMet(jobs, key) && l in LegsOf(jobs, key)
    ensures InStep(w, l) && l.runID == r && l.key == key && l.status.Completed?
    ensures !Gating(l).IsFailure() && Gating(l) != Cancelled && l.conclusion != Cancelled
  {
    hide NeedListedMet, LegsOf, Gating;
    MetLegsAreDone(jobs, key, l);
    SnapshotFacts(w, jobs, r);
    var k :| 0 <= k < |jobs| && jobs[k] == l;
  }

  lemma MetLegsAreDone(jobs: seq<Job>, key: string, l: Job)
    requires NeedListedMet(jobs, key) && l in LegsOf(jobs, key)
    ensures l in jobs && l.key == key && l.status.Completed?
    ensures !Gating(l).IsFailure() && Gating(l) != Cancelled && l.conclusion != Cancelled
  {
    hide LegsOf;
    var legs := LegsOf(jobs, key);
    var cs := GatingConclusions(legs);
    var m :| 0 <= m < |legs| && legs[m] == l;
    assert legs[m].status.Completed?;
    assert cs[m] == Gating(l) && cs[m] in cs;
  }

  lemma NeedListedIsMet(w: World, jobs: seq<Job>, r: int, key: string)
    requires Structure(w) && Snapshot(w, jobs, r) && NeedListedMet(jobs, key)
    ensures NeedMet(w, r, key)
  {
    hide Snapshot, Structure, LegsOf, Gating;
    SnapshotFacts(w, jobs, r);
    var legs := LegsOf(jobs, key);
    var cs := GatingConclusions(legs);
    forall id | IsLeg(w, id, r, key)
      ensures w.jobs[id].status.Completed? && !Gating(w.jobs[id]).IsFailure() && w.jobs[id].conclusion != Cancelled
    {
      LegIsListed(w, jobs, r, key, id);
      LegsOfAMetNeed(w, jobs, r, key, w.jobs[id]);
    }
    var c :| c in cs && c != Skipped;
    var m :| 0 <= m < |cs| && cs[m] == c;
    LegsOfAMetNeed(w, jobs, r, key, legs[m]);
    assert IsLeg(w, legs[m].id, r, key) && Gating(w.jobs[legs[m].id]) != Skipped;
  }

  lemma LegIsListed(w: World, jobs: seq<Job>, r: int, key: string, id: int)
    requires Structure(w) && Snapshot(w, jobs, r) && NeedListedMet(jobs, key) && IsLeg(w, id, r, key)
    ensures w.jobs[id] in LegsOf(jobs, key)
  {
    SnapshotFacts(w, jobs, r);
    var k :| 0 <= k < |jobs| && jobs[k].id == id;
    assert jobs[k] in LegsOf(jobs, key);
    var m :| 0 <= m < |LegsOf(jobs, key)| && LegsOf(jobs, key)[m] == jobs[k];
    assert LegsOf(jobs, key)[m].status.Completed?;
  }

  /** Running a job without an if: means all its needs came out a success. */
  lemma DecidingToRunMeansNeedsHold(opts: Options, w: World, run: Run, p: Plan, pj: PlannedJob, jobs: seq<Job>, j: Job)
    requires Structure(w) && Snapshot(w, jobs, run.id) && run.id in w.origin && p == w.origin[run.id]
    requires InStep(w, j) && j.runID == run.id && Find(p.jobs, j.key, j.matrixKey) == Some(pj)
    requires ComputeNeeds(pj, jobs, run.cancel.Some?).NeedsOk?
    requires ComputeNeeds(pj, jobs, run.cancel.Some?).state.ready
    requires ShouldRun(opts, p, pj, ComputeNeeds(pj, jobs, run.cancel.Some?).state) == Some(true)
    ensures NeedsHold(w, j)
  {
    hide Snapshot, NeedMet, NeedListedMet;
    if Gated(w, j) {
      var own :| PlannedAs(w, j, own) && Plain(own);
      assert own == pj;
      SuccessMeansEveryNeed(pj.needs, jobs, NoNeeds);
      var same :| PlannedAs(w, w.jobs[j.id], same) && w.jobs[j.id].needs == same.needs;
      assert j.needs == pj.needs;
      forall n | n in j.needs ensures NeedMet(w, j.runID, n) {
        NeedListedIsMet(w, jobs, run.id, n);
      }
    }
  }

  // ------------------------------------------------------------------ Holders

  ghost predicate DistinctIds(jobs: seq<Job>) {
    forall k, l :: 0 <= k < l < |jobs| ==> jobs[k].id != jobs[l].id
  }

  lemma {:induction false} LiveBelowIs(w: World, n: int, group: string)
    requires RowsFit(w)
    ensures var live := LiveBelow(w.jobs, n, group);
      && (forall j :: j in live ==> InStep(w, j) && j.id < n)
      && (forall id :: id in w.jobs && id < n && w.jobs[id].group == group && !w.jobs[id].status.Completed? ==> w.jobs[id] in live)
      && DistinctIds(live)
    decreases n
  {
    if n > 0 {
      LiveBelowIs(w, n - 1, group);
      var front := LiveBelow(w.jobs, n - 1, group);
      forall k | 0 <= k < |front| ensures front[k].id < n - 1 {
        assert front[k] in front;
      }
    }
  }

  lemma {:induction false} HoldersDistinct(live: seq<Job>, id: int)
    requires DistinctIds(live)
    ensures DistinctIds(HoldersOf(live, id))
    decreases |live|
  {
    if live != [] {
      HoldersDistinct(live[1..], id);
      var rest := HoldersOf(live[1..], id);
      forall k | 0 <= k < |rest| ensures rest[k].id != live[0].id {
        assert rest[k] in rest;
        var m :| 0 <= m < |live[1..]| && live[1..][m] == rest[k];
        assert live[m + 1].id != live[0].id;
      }
    }
  }

  /** Live admitted jobs to displace, none of them job id. */
  ghost predicate Displaceable(w: World, holders: seq<Job>, id: int) {
    DistinctIds(holders)
    && forall h :: h in holders ==> InStep(w, h) && Holds(h) && h.id != id
  }

  lemma HoldersAreAll(w: World, j: Job)
    requires Structure(w)
    ensures var holders := HoldersOf(LiveBelow(w.jobs, w.nextJob, j.group), j.id);
      && Displaceable(w, holders, j.id)
      && forall id :: id in w.jobs && id != j.id && w.jobs[id].group == j.group && Holds(w.jobs[id]) ==> w.jobs[id] in holders
  {
    LiveBelowIs(w, w.nextJob, j.group);
    HoldersDistinct(LiveBelow(w.jobs, w.nextJob, j.group), j.id);
  }

  /** What displacing jobs leaves alone. */
  ghost predicate Displaced(w: World, w': World, ids: set<int>) {
    && SameRuns(w, w') && w'.nextJob == w.nextJob
    && w'.jobs.Keys == w.jobs.Keys
    && (forall id :: id in w.jobs && id !in ids ==> w'.jobs[id] == w.jobs[id])
    && (forall id :: id in w.jobs && id in ids ==>
         SameIdentity(w.jobs[id], w'.jobs[id]) && w'.jobs[id].status.Completed?)
  }

  ghost function IdsOf(jobs: seq<Job>): set<int> {
    set j | j in jobs :: j.id
  }

  lemma NeedsSurvive(w: World, w': World, j: Job, k: Job)
    requires Updates(w, w', j) && !w.jobs[j.id].status.Completed? && NeedsHold(w, k)
    ensures NeedsHold(w', k)
  {
    if Gated(w', k) {
      var pj :| PlannedAs(w', k, pj) && Plain(pj);
      assert PlannedAs(w, k, pj);
      forall n | n in k.needs ensures NeedMet(w', k.runID, n) {
        NeedStaysMet(w, w', j, k.runID, n);
      }
    }
  }

  lemma DisplacedStep(w: World, w1: World, w2: World, h: Job, ids: set<int>)
    requires Updates(w, w1, h) && h.status.Completed? && Displaced(w1, w2, ids) && h.id !in ids
    ensures Displaced(w, w2, ids + {h.id})
  {
  }

  lemma UpdatesMeansDisplaced(w: World, w1: World, h: Job)
    requires Updates(w, w1, h) && h.status.Completed?
    ensures Displaced(w, w1, {h.id})
  {
  }

  lemma {:induction false} DisplaceKeepsInv(w: World, holders: seq<Job>, jobs: seq<Job>, j: Job, now: int, r: int)
    requires Inv(w) && Snapshot(w, jobs, r) && Displaceable(w, holders, j.id) && NeedsHold(w, j)
    ensures var w' := DisplaceAll(w, holders, now);
      Inv(w') && Snapshot(w', jobs, r) && Displaced(w, w', IdsOf(holders)) && NeedsHold(w', j)
    decreases |holders|
  {
    hide Inv, Snapshot, StopJob, Updates, NeedsHold, Displaced;
    if holders == [] {
      NothingDisplaced(w, IdsOf(holders));
    } else {
      var h := holders[0];
      assert h in holders;
      StopKeepsInv(w, h, Because(ActorConcurrencyGroup), Cancelled, ClassNone, now);
      var f := StopJob(w, None, h, Because(ActorConcurrencyGroup), Cancelled, ClassNone, now, false);
      InvParts(w);
      SnapshotOvertaken(w, f.w, jobs, f.job, r);
      NeedsSurvive(w, f.w, f.job, j);
      UpdatesMeansDisplaced(w, f.w, f.job);
      StillDisplaceable(w, f.w, holders, j.id, f.job);
      DisplaceKeepsInv(f.w, holders[1..], jobs, j, now, r);
      IdsOfHeadAndTail(holders);
      DisplacedStep(w, f.w, DisplaceAll(f.w, holders[1..], now), f.job, IdsOf(holders[1..]));
    }
  }

  lemma IdsOfHeadAndTail(holders: seq<Job>)
    requires holders != [] && DistinctIds(holders)
    ensures holders[0].id !in IdsOf(holders[1..]) && IdsOf(holders) == IdsOf(holders[1..]) + {holders[0].id}
  {
    forall k | k in holders[1..] ensures k.id != holders[0].id {
      var m :| 0 <= m < |holders[1..]| && holders[1..][m] == k;
      assert holders[m + 1] == k;
    }
    assert holders == [holders[0]] + holders[1..];
  }

  lemma NothingDisplaced(w: World, ids: set<int>)
    requires ids == {}
    ensures Displaced(w, w, ids)
  {
  }

  lemma InvParts(w: World)
    requires Inv(w)
    ensures Structure(w) && NoJobLost(w)
  {
  }

  lemma StillDisplaceable(w: World, w1: World, holders: seq<Job>, id: int, done: Job)
    requires Displaceable(w, holders, id) && holders != [] && Displaced(w, w1, {holders[0].id})
    ensures Displaceable(w1, holders[1..], id)
  {
    forall h | h in holders[1..] ensures InStep(w1, h) && Holds(h) && h.id != id {
      var m :| 0 <= m < |holders[1..]| && holders[1..][m] == h;
      assert holders[m + 1] == h && h in holders;
    }
  }

  // ---------------------------------------------------------------- One group

  lemma GroupIsFreed(w: World, w': World, j: Job, holders: seq<Job>)
    requires RowsFit(w) && Displaced(w, w', IdsOf(holders))
    requires forall id :: id in w.jobs && id != j.id && w.jobs[id].group == j.group && Holds(w.jobs[id]) ==> w.jobs[id] in holders
    requires forall h :: h in holders ==> InStep(w, h)
    ensures GroupFree(w', j)
  {
    forall id | id in w'.jobs && id != j.id && w'.jobs[id].group == j.group ensures !Holds(w'.jobs[id]) {
      assert w.jobs[id] in holders ==> w.jobs[id].id in IdsOf(holders);
    }
  }

  lemma SlotsStayCounted(w: World, w': World, ids: set<int>, inFlight: map<string, int>, r: int)
    requires Displaced(w, w', ids) && SlotsCounted(w, inFlight, r)
    ensures SlotsCounted(w', inFlight, r)
  {
    forall key ensures |FlightOf(w', r, key)| <= Count(inFlight, key) {
      forall id | id in FlightOf(w', r, key) ensures id in FlightOf(w, r, key) {
        assert id !in ids;
      }
      Fewer(FlightOf(w', r, key), FlightOf(w, r, key));
    }
  }

  /** What the group decision promises to the admission that follows it. */
  ghost predicate Decided(w: World, jobs: seq<Job>, j: Job, inFlight: map<string, int>, r: int, g: GroupDecision) {
    && Inv(g.w) && SlotsCounted(g.w, inFlight, r) && SameRuns(w, g.w)
    && (if g.admitted
        then Snapshot(g.w, jobs, r) && g.job == j && InStep(g.w, j) && GroupFree(g.w, j) && NeedsHold(g.w, j)
        else (g.w == w && g.job == j) || Updates(w, g.w, g.job))
  }

  lemma HoldSameRuns(w: World, j: Job, now: int)
    ensures SameRuns(w, HoldForGroup(w, j, now).w)
    ensures HoldForGroup(w, j, now).w == w ==> HoldForGroup(w, j, now).job == j
  {
    if !j.status.Waiting? {
      var held := j.(status := Waiting);
      assert |HoldForGroup(w, j, now).w.events| == |w.events| + 1;
    }
  }

  lemma FlightOfHeld(w: World, w': World, j: Job, inFlight: map<string, int>, r: int)
    requires Updates(w, w', j) && SlotsCounted(w, inFlight, r) && !InFlight(j)
    ensures SlotsCounted(w', inFlight, r)
  {
    forall key ensures |FlightOf(w', r, key)| <= Count(inFlight, key) {
      FlightMoves(w, w', j, r, key);
      Fewer(FlightOf(w', r, key), FlightOf(w, r, key));
    }
  }

  lemma HoldDecides(w: World, jobs: seq<Job>, j: Job, taken: set<string>, inFlight: map<string, int>, now: int, r: int)
    requires Inv(w) && InStep(w, j) && Pending(j) && SlotsCounted(w, inFlight, r)
    ensures var h := HoldForGroup(w, j, now);
      Decided(w, jobs, j, inFlight, r, GroupDecision(h.w, h.job, taken, false))
  {
    hide Inv, Updates, SlotsCounted, HoldForGroup, SameRuns;
    HoldKeepsInv(w, j, now);
    HoldSameRuns(w, j, now);
    var h := HoldForGroup(w, j, now);
    FlightOfHeld(w, h.w, h.job, inFlight, r);
  }

  lemma GroupDecisionIsSafe(w: World, jobs: seq<Job>, j: Job, pj: PlannedJob, taken: set<string>,
                            inFlight: map<string, int>, now: int, r: int)
    requires Inv(w) && Snapshot(w, jobs, r) && InStep(w, j) && Pending(j) && NeedsHold(w, j)
    requires SlotsCounted(w, inFlight, r)
    ensures Decided(w, jobs, j, inFlight, r, AdmitToGroup(w, j, pj, taken, now))
  {
    hide Inv, Snapshot, SlotsCounted, HoldForGroup, NeedsHold, Updates, DisplaceAll, Displaced, Decided;
    var g := AdmitToGroup(w, j, pj, taken, now);
    HoldDecides(w, jobs, j, taken, inFlight, now, r);
    if j.group == "" {
      AlreadyFree(w, jobs, j, inFlight, r, g);
    } else if j.group !in taken {
      InvParts(w);
      HoldersAreAll(w, j);
      var holders := HoldersOf(LiveBelow(w.jobs, w.nextJob, j.group), j.id);
      if holders == [] || pj.cancelInProgress {
        DisplaceKeepsInv(w, holders, jobs, j, now, r);
        var w' := DisplaceAll(w, holders, now);
        GroupIsFreed(w, w', j, holders);
        SlotsStayCounted(w, w', IdsOf(holders), inFlight, r);
        DisplacementDecides(w, jobs, j, inFlight, r, g, holders);
      }
    }
  }

  lemma AlreadyFree(w: World, jobs: seq<Job>, j: Job, inFlight: map<string, int>, r: int, g: GroupDecision)
    requires Inv(w) && Snapshot(w, jobs, r) && InStep(w, j) && NeedsHold(w, j) && SlotsCounted(w, inFlight, r)
    requires j.group == "" && g.w == w && g.job == j && g.admitted
    ensures Decided(w, jobs, j, inFlight, r, g)
  {
    hide Inv, Snapshot, NeedsHold, SlotsCounted;
  }

  lemma DisplacementDecides(w: World, jobs: seq<Job>, j: Job, inFlight: map<string, int>, r: int, g: GroupDecision,
                            holders: seq<Job>)
    requires InStep(w, j) && Displaced(w, g.w, IdsOf(holders)) && Displaceable(w, holders, j.id)
    requires Inv(g.w) && Snapshot(g.w, jobs, r) && NeedsHold(g.w, j) && SlotsCounted(g.w, inFlight, r)
    requires GroupFree(g.w, j) && g.job == j && g.admitted
    ensures Decided(w, jobs, j, inFlight, r, g)
  {
    hide Inv, Snapshot, NeedsHold, SlotsCounted, GroupFree;
    assert j.id !in IdsOf(holders);
  }

  // ------------------------------------------------------------------ One job

  ghost predicate Pass(a: Admission, run: Run, p: Plan) {
    && Inv(a.w) && Snapshot(a.w, a.jobs, run.id) && SlotsCounted(a.w, a.inFlight, run.id)
    && run.id in a.w.origin && p == a.w.origin[run.id]
  }

  lemma SlotIsFree(w: World, j: Job, pj: PlannedJob, inFlight: map<string, int>, r: int)
    requires SlotsCounted(w, inFlight, r) && j.runID == r && PlannedAs(w, j, pj)
    requires pj.maxParallel > 0 ==> Count(inFlight, j.key) < pj.maxParallel
    ensures SlotFree(w, j)
  {
    forall own | PlannedAs(w, j, own) && own.maxParallel > 0 ensures |FlightOf(w, r, j.key)| < own.maxParallel {
      assert own == pj;
    }
  }

  lemma SlotsAfterAdmission(w: World, w': World, j: Job, inFlight: map<string, int>, r: int)
    requires Updates(w, w', j) && SlotsCounted(w, inFlight, r)
    ensures SlotsCounted(w', inFlight[j.key := Count(inFlight, j.key) + 1], r)
  {
    forall key ensures |FlightOf(w', r, key)| <= Count(inFlight[j.key := Count(inFlight, j.key) + 1], key) {
      FlightMoves(w, w', j, r, key);
      if key == j.key {
        Fewer(FlightOf(w', r, key), FlightOf(w, r, key) + {j.id});
      } else {
        Fewer(FlightOf(w', r, key), FlightOf(w, r, key));
      }
    }
  }

  /** A move of the i-th job carries the pass on. */
  lemma PassMoves(a: Admission, a': Admission, run: Run, p: Plan, i: nat, j: Job)
    requires Pass(a, run, p) && i < |a.jobs| && a.jobs[i].id == j.id
    requires Updates(a.w, a'.w, j) && Inv(a'.w) && a'.jobs == a.jobs[i := j]
    requires SlotsCounted(a'.w, a'.inFlight, run.id)
    ensures Pass(a', run, p)
  {
    hide Inv, Snapshot, SlotsCounted;
    InvHasStructure(a.w);
    SnapshotMoves(a.w, a'.w, a.jobs, i, j, run.id);
  }

  lemma SkipKeepsThePass(a: Admission, run: Run, p: Plan, i: nat, pj: PlannedJob, now: int)
    requires Pass(a, run, p) && i < |a.jobs| && InStep(a.w, a.jobs[i]) && Pending(a.jobs[i])
    ensures var f := FinishAttempt(a.w, Some(pj), a.jobs[i], SkipResult, now, false);
      Pass(a.(w := f.w, jobs := a.jobs[i := f.job]), run, p)
  {
    hide Inv, Snapshot, SlotsCounted, FinishAttempt;
    var j := a.jobs[i];
    FinishAttemptKeepsInv(a.w, Some(pj), j, SkipResult, now, false);
    SkipIsDone(a.w, pj, j, now);
    var f := FinishAttempt(a.w, Some(pj), j, SkipResult, now, false);
    FlightOfHeld(a.w, f.w, f.job, a.inFlight, run.id);
    PassMoves(a, a.(w := f.w, jobs := a.jobs[i := f.job]), run, p, i, f.job);
  }

  lemma SkipIsDone(w: World, pj: PlannedJob, j: Job, now: int)
    ensures var f := FinishAttempt(w, Some(pj), j, SkipResult, now, false);
      f.ok && f.job.id == j.id && f.job.status.Completed?
  {
  }

  lemma QueueingKeepsThePass(a: Admission, g: GroupDecision, run: Run, p: Plan, i: nat, pj: PlannedJob, now: int)
    requires Pass(a, run, p) && i < |a.jobs| && InStep(a.w, a.jobs[i]) && Pending(a.jobs[i]) && a.jobs[i].runID == run.id
    requires Find(p.jobs, a.jobs[i].key, a.jobs[i].matrixKey) == Some(pj)
    requires pj.maxParallel > 0 ==> Count(a.inFlight, a.jobs[i].key) < pj.maxParallel
    requires g.admitted && Decided(a.w, a.jobs, a.jobs[i], a.inFlight, run.id, g)
    ensures var f := AdmitToQueue(g.w, g.job, now);
      Pass(Admission(f.w, a.jobs[i := f.job], a.inFlight[a.jobs[i].key := Count(a.inFlight, a.jobs[i].key) + 1], g.taken, true), run, p)
  {
    hide Inv, Snapshot, SlotsCounted, NeedsHold, GroupFree, AdmitToQueue, Updates;
    var j := a.jobs[i];
    SlotIsFree(g.w, j, pj, a.inFlight, run.id);
    AdmitKeepsInv(g.w, j, now);
    var f := AdmitToQueue(g.w, j, now);
    QueuedKeepsId(g.w, j, now);
    SlotsAfterAdmission(g.w, f.w, f.job, a.inFlight, run.id);
    var mid := a.(w := g.w);
    PassMoves(mid, Admission(f.w, a.jobs[i := f.job], a.inFlight[j.key := Count(a.inFlight, j.key) + 1], g.taken, true), run, p, i, f.job);
  }

  lemma QueuedKeepsId(w: World, j: Job, now: int)
    ensures AdmitToQueue(w, j, now).job.id == j.id && AdmitToQueue(w, j, now).job.key == j.key
  {
  }

  lemma WaitingKeepsThePass(a: Admission, g: GroupDecision, run: Run, p: Plan, i: nat)
    requires Pass(a, run, p) && i < |a.jobs| && !g.admitted && g.job.id == a.jobs[i].id
    requires Decided(a.w, a.jobs, a.jobs[i], a.inFlight, run.id, g)
    ensures Pass(a.(w := g.w, jobs := a.jobs[i := g.job], taken := g.taken), run, p)
  {
    hide Inv, Snapshot, SlotsCounted;
    if g.w == a.w && g.job == a.jobs[i] {
      assert a.jobs[i := g.job] == a.jobs;
    } else {
      PassMoves(a, a.(w := g.w, jobs := a.jobs[i := g.job], taken := g.taken), run, p, i, g.job);
    }
  }

  lemma GroupKeepsId(w: World, j: Job, pj: PlannedJob, taken: set<string>, now: int)
    ensures AdmitToGroup(w, j, pj, taken, now).job.id == j.id
  {
  }

  lemma PendingCopiesAreInStep(w: World, jobs: seq<Job>, r: int, i: nat)
    requires Structure(w) && Snapshot(w, jobs, r) && i < |jobs| && Pending(jobs[i])
    ensures InStep(w, jobs[i]) && jobs[i].runID == r
  {
    SnapshotFacts(w, jobs, r);
  }

  lemma AdmitOneKeepsThePass(opts: Options, run: Run, p: Plan, i: nat, a: Admission, now: int)
    requires Pass(a, run, p) && i < |a.jobs|
    ensures Pass(AdmitOne(opts, run, p, i, a, now), run, p)
  {
    hide Inv, Snapshot, SlotsCounted, NeedsHold, AdmitToGroup, AdmitToQueue, FinishAttempt, ShouldRun, ComputeNeeds, Decided, Find;
    var j := a.jobs[i];
    if Pending(j) {
      InvHasStructure(a.w);
      PendingCopiesAreInStep(a.w, a.jobs, run.id, i);
      var found := Find(p.jobs, j.key, j.matrixKey);
      if found.Some? {
        var pj := found.value;
        var needs := ComputeNeeds(pj, a.jobs, run.cancel.Some?);
        if needs.NeedsOk? && needs.state.ready {
          var verdict := ShouldRun(opts, p, pj, needs.state);
          if verdict == Some(false) {
            SkipKeepsThePass(a, run, p, i, pj, now);
          } else if verdict == Some(true) && !(pj.maxParallel > 0 && Count(a.inFlight, j.key) >= pj.maxParallel) {
            DecidingToRunMeansNeedsHold(opts, a.w, run, p, pj, a.jobs, j);
            GroupDecisionIsSafe(a.w, a.jobs, j, pj, a.taken, a.inFlight, now, run.id);
            var g := AdmitToGroup(a.w, j, pj, a.taken, now);
            GroupKeepsId(a.w, j, pj, a.taken, now);
            if g.admitted {
              QueueingKeepsThePass(a, g, run, p, i, pj, now);
            } else {
              WaitingKeepsThePass(a, g, run, p, i);
            }
          }
        }
      }
    }
  }

  lemma {:induction false} AdmitFromKeepsThePass(opts: Options, run: Run, p: Plan, i: nat, a: Admission, now: int)
    requires Pass(a, run, p)
    ensures Pass(AdmitFrom(opts, run, p, i, a, now), run, p)
    decreases |a.jobs| - i
  {
    hide Pass, AdmitOne;
    if i < |a.jobs| {
      AdmitOneKeepsThePass(opts, run, p, i, a, now);
      var next := AdmitOne(opts, run, p, i, a, now);
      if next.ok {
        AdmitFromKeepsThePass(opts, run, p, i + 1, next, now);
      }
    }
  }
}
