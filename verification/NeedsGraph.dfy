/** The graph a workflow's needs: entries draw: cycles, orders that respect it, and
    what a greedy order is worth. */
module NeedsGraph {

  /** order is the declaration order of the job keys; needs holds each job's own list. */
  datatype Workflow = Workflow(order: seq<string>, needs: map<string, seq<string>>)

  predicate Edge(wf: Workflow, a: string, b: string) {
    a in wf.needs && b in wf.needs && b in wf.needs[a]
  }

  predicate IsWalk(wf: Workflow, c: seq<string>) {
    forall i, j :: 0 <= i < |c| && 0 <= j < |c| && j == i + 1 ==> Edge(wf, c[i], c[j])
  }

  /** A walk along needs that ends where it starts. */
  predicate IsCycle(wf: Workflow, c: seq<string>) {
    |c| >= 2 && c[0] == c[|c| - 1] && IsWalk(wf, c)
  }

  ghost predicate Acyclic(wf: Workflow) {
    forall c :: !IsCycle(wf, c)
  }

  function Elements(s: seq<string>): set<string> {
    set k | k in s
  }

  predicate NoDup(s: seq<string>) {
    forall i, j :: 0 <= i < j < |s| ==> s[i] != s[j]
  }

  /** The declaration order names every job once. */
  ghost predicate Listed(wf: Workflow) {
    NoDup(wf.order) && forall k :: k in wf.order <==> k in wf.needs
  }

  /** Every need is the key of a job. */
  predicate Defined(wf: Workflow) {
    forall k, n :: k in wf.needs && n in wf.needs[k] ==> n in wf.needs
  }

  ghost predicate RespectsNeeds(wf: Workflow, o: seq<string>) {
    forall i, n :: 0 <= i < |o| && Edge(wf, o[i], n) ==> n in o[..i]
  }

  /** A permutation of the jobs that puts needs before the jobs they are for. */
  ghost predicate ValidOrder(wf: Workflow, o: seq<string>) {
    NoDup(o) && (forall k :: k in o <==> k in wf.needs) && RespectsNeeds(wf, o)
  }

  function Position(o: seq<string>, k: string): (i: nat)
    requires k in o
    ensures i < |o| && o[i] == k && k !in o[..i]
    decreases |o|
  {
    if o[|o| - 1] == k && k !in o[..|o| - 1] then |o| - 1
    else
      assert o == o[..|o| - 1] + [o[|o| - 1]];
      var i := Position(o[..|o| - 1], k);
      assert o[..|o| - 1][..i] == o[..i];
      i
  }

  // ------------------------------------------------------- Orders and cycles

  /** Along needs, positions in the order only fall. */
  lemma {:induction false} WalksDescend(wf: Workflow, o: seq<string>, c: seq<string>, i: nat)
    requires RespectsNeeds(wf, o) && IsWalk(wf, c) && i < |c| && c[0] in o
    ensures c[i] in o && Position(o, c[i]) + i <= Position(o, c[0])
    decreases i
  {
    if i > 0 {
      WalksDescend(wf, o, c, i - 1);
      assert Edge(wf, c[i - 1], c[i]);
      var p := Position(o, c[i - 1]);
      assert c[i] in o[..p];
      var q :| 0 <= q < p && o[q] == c[i];
      assert Position(o, c[i]) <= q;
    }
  }

  /** A job on a cycle has no place in an order that respects needs. */
  lemma CyclesAreNotPlaced(wf: Workflow, o: seq<string>, c: seq<string>, k: string)
    requires RespectsNeeds(wf, o) && IsCycle(wf, c) && k in c
    ensures k !in o
  {
    if k in o {
      var i :| 0 <= i < |c| && c[i] == k;
      var tail := c[i..];
      assert IsWalk(wf, tail);
      WalksDescend(wf, o, tail, |tail| - 1);
      assert c[0] in o;
      WalksDescend(wf, o, c, |c| - 1);
    }
  }

  lemma AnOrderRulesOutCycles(wf: Workflow, o: seq<string>)
    requires ValidOrder(wf, o)
    ensures Acyclic(wf)
  {
    forall c | IsCycle(wf, c) ensures false {
      assert Edge(wf, c[0], c[1]);
      CyclesAreNotPlaced(wf, o, c, c[0]);
    }
  }

  /** Every job of the set needs another of the set. */
  ghost predicate Stuck(wf: Workflow, jobs: set<string>) {
    forall k {:trigger NeedsOneOf(wf, k, jobs)} :: k in jobs ==> NeedsOneOf(wf, k, jobs)
  }

  ghost predicate NeedsOneOf(wf: Workflow, k: string, jobs: set<string>) {
    exists n :: n in jobs && Edge(wf, k, n)
  }

  lemma StuckNext(wf: Workflow, jobs: set<string>, k: string) returns (n: string)
    requires Stuck(wf, jobs) && k in jobs
    ensures n in jobs && Edge(wf, k, n)
  {
    assert NeedsOneOf(wf, k, jobs);
    n :| n in jobs && Edge(wf, k, n);
  }

  /** A walk of the given length that starts at k. */
  lemma {:induction false} StuckStart(wf: Workflow, jobs: set<string>, k: string, n: nat) returns (c: seq<string>)
    requires Stuck(wf, jobs) && k in jobs
    ensures |c| == n + 2 && c[0] == k && IsWalk(wf, c) && forall x :: x in c ==> x in jobs
    decreases n
  {
    hide Stuck, Edge;
    var next := StuckNext(wf, jobs, k);
    if n == 0 {
      c := [k, next];
    } else {
      var rest := StuckStart(wf, jobs, next, n - 1);
      c := [k] + rest;
    }
  }

  lemma {:induction false} Pigeonhole(s: seq<string>, holes: set<string>) returns (i: nat, j: nat)
    requires |s| > |holes| && forall x :: x in s ==> x in holes
    ensures i < j < |s| && s[i] == s[j]
    decreases |s|
  {
    var last := s[|s| - 1];
    var rest := s[..|s| - 1];
    if last in rest {
      i :| 0 <= i < |rest| && rest[i] == last;
      j := |s| - 1;
    } else {
      assert last in holes;
      assert |holes - {last}| == |holes| - 1;
      i, j := Pigeonhole(rest, holes - {last});
    }
  }

  lemma StuckJobsHideACycle(wf: Workflow, jobs: set<string>)
    requires Stuck(wf, jobs) && jobs != {}
    ensures !Acyclic(wf)
  {
    hide Stuck, Edge;
    var k :| k in jobs;
    var c := StuckStart(wf, jobs, k, |jobs|);
    var i, j := Pigeonhole(c, jobs);
    assert IsCycle(wf, c[i..j + 1]);
  }

  // --------------------------------------------------------- Waiting for a cycle

  ghost predicate OnACycle(wf: Workflow, k: string) {
    exists c :: IsCycle(wf, c) && k in c
  }

  /** A walk from the job to one that is on a cycle, possibly of no step at all. */
  ghost predicate WalkToACycle(wf: Workflow, c: seq<string>, k: string) {
    c != [] && c[0] == k && IsWalk(wf, c) && OnACycle(wf, c[|c| - 1])
  }

  ghost predicate WaitsForACycle(wf: Workflow, k: string) {
    exists c :: WalkToACycle(wf, c, k)
  }

  /** Whoever needs a job on a cycle is on one too. */
  ghost predicate NobodyElseWaits(wf: Workflow) {
    forall a, b :: Edge(wf, a, b) && OnACycle(wf, b) ==> OnACycle(wf, a)
  }

  /** Jobs that all need one of their own lead into a cycle, each of them. */
  lemma StuckJobsWait(wf: Workflow, jobs: set<string>, k: string)
    requires Stuck(wf, jobs) && k in jobs
    ensures WaitsForACycle(wf, k)
  {
    hide Stuck, Edge;
    var c := StuckStart(wf, jobs, k, |jobs|);
    var i, j := Pigeonhole(c, jobs);
    var around := c[i..j + 1];
    assert IsCycle(wf, around) && around[0] == c[i];
    assert OnACycle(wf, c[i]);
    assert WalkToACycle(wf, c[..i + 1], k);
  }

  /** Whoever waits for a cycle has no place in an order that respects needs. */
  lemma {:induction false} WaitingJobsAreNotPlaced(wf: Workflow, o: seq<string>, c: seq<string>, k: string)
    requires RespectsNeeds(wf, o) && WalkToACycle(wf, c, k)
    ensures k !in o && k in wf.needs
    decreases |c|
  {
    if |c| == 1 {
      var around :| IsCycle(wf, around) && k in around;
      CyclesAreNotPlaced(wf, o, around, k);
      OnACycleIsAJob(wf, around, k);
    } else {
      assert Edge(wf, c[0], c[1]);
      WaitingJobsAreNotPlaced(wf, o, c[1..], c[1]);
      assert forall i :: 0 <= i < |o| && o[i] == k ==> c[1] in o[..i];
    }
  }

  lemma OnACycleIsAJob(wf: Workflow, c: seq<string>, k: string)
    requires IsCycle(wf, c) && k in c
    ensures k in wf.needs && exists x :: Edge(wf, x, k)
  {
    var i :| 0 <= i < |c| && c[i] == k;
    assert Edge(wf, c[if i == 0 then |c| - 2 else i - 1], k);
  }

  lemma {:induction false} WaitingStaysOnCycles(wf: Workflow, c: seq<string>, k: string)
    requires NobodyElseWaits(wf) && WalkToACycle(wf, c, k)
    ensures OnACycle(wf, k)
    decreases |c|
  {
    hide OnACycle;
    if |c| > 1 {
      assert Edge(wf, c[0], c[1]);
      WaitingStaysOnCycles(wf, c[1..], c[1]);
    }
  }

  /** The jobs that wait for a cycle are those on one exactly when nobody else needs them. */
  lemma OnlyMembersWaitExactlyWhen(wf: Workflow)
    ensures (forall k :: WaitsForACycle(wf, k) ==> OnACycle(wf, k)) <==> NobodyElseWaits(wf)
  {
    hide OnACycle;
    if forall k :: WaitsForACycle(wf, k) ==> OnACycle(wf, k) {
      forall a, b | Edge(wf, a, b) && OnACycle(wf, b) ensures OnACycle(wf, a) {
        assert WalkToACycle(wf, [a, b], a);
      }
    }
    if NobodyElseWaits(wf) {
      forall k | WaitsForACycle(wf, k) ensures OnACycle(wf, k) {
        var c :| WalkToACycle(wf, c, k);
        WaitingStaysOnCycles(wf, c, k);
      }
    }
  }

  /** Two jobs that need each other and a third that needs one of them. */
  const Bystander := Workflow(["a", "b", "c"], map["a" := ["b"], "b" := ["a"], "c" := ["a"]])

  /** The third waits for the cycle and is not on it. */
  lemma TheThirdOnlyWaits()
    ensures Listed(Bystander) && Defined(Bystander)
    ensures OnACycle(Bystander, "a") && OnACycle(Bystander, "b")
    ensures WaitsForACycle(Bystander, "c") && !OnACycle(Bystander, "c")
  {
    var wf := Bystander;
    var around := ["a", "b", "a"];
    assert IsCycle(wf, around) && around[0] == "a" && around[1] == "b";
    assert WalkToACycle(wf, ["c", "a"], "c");
    if OnACycle(wf, "c") {
      var c :| IsCycle(wf, c) && "c" in c;
      OnACycleIsAJob(wf, c, "c");
      assert false;
    }
  }

  // ------------------------------------------------------------ Greedy orders

  predicate Ready(wf: Workflow, placed: seq<string>, k: string) {
    k in wf.needs && k !in placed && forall n :: n in wf.needs[k] ==> n in placed
  }

  /** Each place is taken by the ready job declared first. */
  ghost predicate Greedy(wf: Workflow, o: seq<string>)
    requires Listed(wf)
  {
    forall p | 0 <= p < |o| ::
      && Ready(wf, o[..p], o[p])
      && forall k :: k in wf.needs && Ready(wf, o[..p], k) ==> Position(wf.order, o[p]) <= Position(wf.order, k)
  }

  /** Of two valid orders the greedy one comes first: where they part, it holds the job
      declared earlier. */
  lemma GreedyIsLexicographicallyLeast(wf: Workflow, o: seq<string>, other: seq<string>) returns (p: nat)
    requires Listed(wf) && Defined(wf) && ValidOrder(wf, o) && Greedy(wf, o) && ValidOrder(wf, other) && o != other
    ensures |o| == |other| && p < |o| && o[..p] == other[..p]
    ensures Position(wf.order, o[p]) < Position(wf.order, other[p])
  {
    hide RespectsNeeds, Defined, Ready, Edge, Position, NoDup;
    SameLength(o, other);
    p := FirstDifference(o, other);
    PlacedNextIsReady(wf, other, p);
  }

  /** Whatever comes next in a valid order was ready by then. */
  lemma PlacedNextIsReady(wf: Workflow, o: seq<string>, p: nat)
    requires Defined(wf) && ValidOrder(wf, o) && p < |o|
    ensures Ready(wf, o[..p], o[p])
  {
    assert o[p] in o;
    forall n | n in wf.needs[o[p]] ensures n in o[..p] {
      assert Edge(wf, o[p], n);
    }
  }

  lemma SameLength(a: seq<string>, b: seq<string>)
    requires NoDup(a) && NoDup(b) && forall k :: k in a <==> k in b
    ensures |a| == |b|
  {
    CountDistinct(a);
    CountDistinct(b);
    assert Elements(a) == Elements(b);
  }

  lemma {:induction false} CountDistinct(a: seq<string>)
    requires NoDup(a)
    ensures |Elements(a)| == |a|
    decreases |a|
  {
    if a != [] {
      var rest := a[..|a| - 1];
      CountDistinct(rest);
      assert a == rest + [a[|a| - 1]];
      assert Elements(a) == Elements(rest) + {a[|a| - 1]};
    }
  }

  lemma {:induction false} FirstDifference(a: seq<string>, b: seq<string>) returns (p: nat)
    requires |a| == |b| && a != b
    ensures p < |a| && a[..p] == b[..p] && a[p] != b[p]
    decreases |a|
  {
    var n := |a| - 1;
    if a[..n] == b[..n] {
      p := n;
    } else {
      p := FirstDifference(a[..n], b[..n]);
      assert a[..n][..p] == a[..p] && b[..n][..p] == b[..p];
    }
  }
}
