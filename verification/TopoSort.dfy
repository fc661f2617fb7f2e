/** The planner's ordering of job keys: every job after everything it needs, ties broken
    by declaration. */
module TopoSorting {
  import opened NeedsGraph
  import CycleSearch

  datatype Sorting =
    | Sorted(keys: seq<string>)
    | BadOrder
    | BadNeed(job: string, need: string)
    | Cyclic(stuck: seq<string>)

  function NeedSet(wf: Workflow, k: string): set<string>
    requires k in wf.needs
  {
    set n | n in wf.needs[k]
  }

  function Count(indeg: map<string, int>, k: string): int {
    if k in indeg then indeg[k] else 0
  }

  function Dependents(dependents: map<string, seq<string>>, n: string): seq<string> {
    if n in dependents then dependents[n] else []
  }

  ghost predicate NoSelfNeed(wf: Workflow) {
    forall k :: k in wf.needs ==> k !in wf.needs[k]
  }

  // ---------------------------------------------------------------- Checking

  lemma SubsetOfSameSize(a: set<string>, b: set<string>)
    requires a <= b && |a| == |b|
    ensures a == b
  {
    if k :| k in b && k !in a {
      assert a <= b - {k};
      SubsetIsSmaller(a, b - {k});
    }
  }

  lemma {:induction false} SubsetIsSmaller(a: set<string>, b: set<string>)
    requires a <= b
    ensures |a| <= |b|
    decreases |a|
  {
    if a != {} {
      var k :| k in a;
      SubsetIsSmaller(a - {k}, b - {k});
    }
  }

  method CheckOrder(wf: Workflow) returns (ok: bool)
    ensures ok <==> Listed(wf)
  {
    var keys := wf.order;
    if |keys| != |wf.needs| {
      ListedCounts(wf);
      return false;
    }
    var index: map<string, int> := map[];
    for i := 0 to |keys|
      invariant NoDup(keys[..i]) && (forall k :: k in index <==> k in keys[..i])
      invariant forall k :: k in keys[..i] ==> k in wf.needs
    {
      var k := keys[i];
      assert keys[..i + 1] == keys[..i] + [k];
      if k !in wf.needs || k in index {
        return false;
      }
      index := index[k := i];
    }
    assert keys[..|keys|] == keys;
    CountDistinct(keys);
    SubsetOfSameSize(Elements(keys), wf.needs.Keys);
    assert forall k :: k in Elements(keys) <==> k in wf.needs.Keys;
    ok := true;
  }

  lemma ListedCounts(wf: Workflow)
    ensures Listed(wf) ==> |wf.order| == |wf.needs|
  {
    if Listed(wf) {
      CountDistinct(wf.order);
      assert Elements(wf.order) == wf.needs.Keys;
    }
  }

  // ------------------------------------------------------------ Counting needs

  /** What the first pass has recorded of the jobs in done. */
  ghost predicate Linked(wf: Workflow, done: seq<string>, indeg: map<string, int>, dependents: map<string, seq<string>>) {
    && (forall k :: k in wf.needs ==> Count(indeg, k) == if k in done then |NeedSet(wf, k)| else 0)
    && (forall n :: ListsDependents(wf, done, n, Dependents(dependents, n)))
  }

  /** The list names, once each, the jobs in done that need n. */
  ghost predicate ListsDependents(wf: Workflow, done: seq<string>, n: string, list: seq<string>) {
    NoDup(list) && forall x :: x in list <==> x in done && x in wf.needs && n in wf.needs[x]
  }

  method LinkNeeds(wf: Workflow)
    returns (bad: Sorting, indeg: map<string, int>, dependents: map<string, seq<string>>)
    requires Listed(wf)
    ensures bad.BadNeed? || bad == Sorted([])
    ensures bad.BadNeed? ==> Unusable(wf, bad.job, bad.need)
    ensures bad.BadNeed? <==> !(Defined(wf) && NoSelfNeed(wf))
    ensures bad.Sorted? ==> Linked(wf, wf.order, indeg, dependents)
  {
    hide Linked;
    bad, indeg, dependents := Sorted([]), map[], map[];
    var keys := wf.order;
    NothingLinked(wf);
    for i := 0 to |keys|
      invariant bad == Sorted([]) && Linked(wf, keys[..i], indeg, dependents)
      invariant forall j, n :: 0 <= j < i && n in wf.needs[keys[j]] ==> !Unusable(wf, keys[j], n)
    {
      assert keys[..i + 1] == keys[..i] + [keys[i]];
      bad, indeg, dependents := LinkJob(wf, keys[..i], keys[i], indeg, dependents);
      if bad.BadNeed? {
        return;
      }
    }
    assert keys[..|keys|] == keys;
    forall k, n | k in wf.needs && n in wf.needs[k] ensures !Unusable(wf, k, n) {
      assert k in keys;
    }
  }

  predicate Unusable(wf: Workflow, k: string, n: string) {
    k in wf.needs && n in wf.needs[k] && (n == k || n !in wf.needs)
  }

  lemma NothingLinked(wf: Workflow)
    ensures Linked(wf, [], map[], map[])
  {
  }

  /** The needs of one job, a repeated one counted once. */
  method LinkJob(wf: Workflow, done: seq<string>, k: string, indeg0: map<string, int>, dependents0: map<string, seq<string>>)
    returns (bad: Sorting, indeg: map<string, int>, dependents: map<string, seq<string>>)
    requires k in wf.needs && k !in done && Linked(wf, done, indeg0, dependents0)
    ensures bad.BadNeed? || bad == Sorted([])
    ensures bad.BadNeed? ==> Unusable(wf, bad.job, bad.need)
    ensures bad.Sorted? ==> Linked(wf, done + [k], indeg, dependents)
    ensures bad.Sorted? ==> forall n :: n in wf.needs[k] ==> !Unusable(wf, k, n)
  {
    hide Linked, PartLinked;
    bad, indeg, dependents := Sorted([]), indeg0, dependents0;
    var needs := wf.needs[k];
    var seen: set<string> := {};
    FirstLink(wf, done, k, indeg0, dependents0);
    for j := 0 to |needs|
      invariant bad == Sorted([]) && seen == Elements(needs[..j])
      invariant forall n :: n in needs[..j] ==> !Unusable(wf, k, n)
      invariant PartLinked(wf, done, k, seen, indeg, dependents)
    {
      var n := needs[j];
      assert needs[..j + 1] == needs[..j] + [n];
      if n == k || n !in wf.needs {
        return BadNeed(k, n), indeg, dependents;
      }
      if n in seen {
        continue;
      }
      LinkOne(wf, done, k, seen, n, indeg, dependents);
      seen := seen + {n};
      indeg := indeg[k := Count(indeg, k) + 1];
      dependents := dependents[n := Dependents(dependents, n) + [k]];
    }
    assert needs[..|needs|] == needs;
    LastLink(wf, done, k, indeg, dependents);
  }

  /** As Linked, with the needs of k that have been seen already. */
  ghost predicate PartLinked(wf: Workflow, done: seq<string>, k: string, seen: set<string>, indeg: map<string, int>,
                             dependents: map<string, seq<string>>)
  {
    && (forall x :: x in wf.needs ==>
         Count(indeg, x) == if x == k then |seen| else if x in done then |NeedSet(wf, x)| else 0)
    && (forall n :: ListsPart(wf, done, k, seen, n, Dependents(dependents, n)))
  }

  ghost predicate ListsPart(wf: Workflow, done: seq<string>, k: string, seen: set<string>, n: string, list: seq<string>) {
    && NoDup(list)
    && forall x :: x in list <==> (x in done && x in wf.needs && n in wf.needs[x]) || (x == k && n in seen)
  }

  lemma FirstLink(wf: Workflow, done: seq<string>, k: string, indeg: map<string, int>, dependents: map<string, seq<string>>)
    requires Linked(wf, done, indeg, dependents) && k !in done && k in wf.needs
    ensures PartLinked(wf, done, k, {}, indeg, dependents)
  {
    forall n ensures ListsPart(wf, done, k, {}, n, Dependents(dependents, n)) {
      assert ListsDependents(wf, done, n, Dependents(dependents, n));
    }
  }

  lemma LinkOne(wf: Workflow, done: seq<string>, k: string, seen: set<string>, n: string, indeg: map<string, int>,
                dependents: map<string, seq<string>>)
    requires PartLinked(wf, done, k, seen, indeg, dependents) && k !in done && n !in seen
    ensures PartLinked(wf, done, k, seen + {n}, indeg[k := Count(indeg, k) + 1],
                       dependents[n := Dependents(dependents, n) + [k]])
  {
    var after := dependents[n := Dependents(dependents, n) + [k]];
    forall m ensures ListsPart(wf, done, k, seen + {n}, m, Dependents(after, m)) {
      assert ListsPart(wf, done, k, seen, m, Dependents(dependents, m));
    }
  }

  lemma LastLink(wf: Workflow, done: seq<string>, k: string, indeg: map<string, int>, dependents: map<string, seq<string>>)
    requires k in wf.needs && PartLinked(wf, done, k, Elements(wf.needs[k]), indeg, dependents)
    ensures Linked(wf, done + [k], indeg, dependents)
  {
    assert Elements(wf.needs[k]) == NeedSet(wf, k);
    forall n ensures ListsDependents(wf, done + [k], n, Dependents(dependents, n)) {
      assert ListsPart(wf, done, k, Elements(wf.needs[k]), n, Dependents(dependents, n));
    }
  }

  // ---------------------------------------------------------------- The queue

  ghost predicate Counted(wf: Workflow, placed: seq<string>, indeg: map<string, int>) {
    forall k :: k in wf.needs ==> Count(indeg, k) == |NeedSet(wf, k) - Elements(placed)|
  }

  ghost predicate Holds(wf: Workflow, placed: seq<string>, ready: seq<string>) {
    NoDup(ready) && forall k :: k in ready <==> Ready(wf, placed, k)
  }

  ghost predicate InDeclarationOrder(wf: Workflow, ready: seq<string>)
    requires Listed(wf)
  {
    && (forall i :: 0 <= i < |ready| ==> ready[i] in wf.order)
    && (forall i, j :: 0 <= i < j < |ready| ==> NoLater(wf, ready[i], ready[j]))
  }

  /** a is declared no later than b. */
  predicate NoLater(wf: Workflow, a: string, b: string) {
    a in wf.order && b in wf.order && Position(wf.order, a) <= Position(wf.order, b)
  }

  method SortByDeclaration(wf: Workflow, ready: seq<string>) returns (s: seq<string>)
    requires Listed(wf) && NoDup(ready) && forall k :: k in ready ==> k in wf.order
    ensures NoDup(s) && (forall k :: k in s <==> k in ready) && InDeclarationOrder(wf, s)
  {
    s := [];
    for i := 0 to |ready|
      invariant NoDup(s) && (forall k :: k in s <==> k in ready[..i]) && InDeclarationOrder(wf, s)
    {
      var k := ready[i];
      assert ready[..i + 1] == ready[..i] + [k];
      s := Insert(wf, s, k);
    }
    assert ready[..|ready|] == ready;
  }

  method Insert(wf: Workflow, s: seq<string>, k: string) returns (r: seq<string>)
    requires Listed(wf) && NoDup(s) && InDeclarationOrder(wf, s) && k in wf.order && k !in s
    ensures NoDup(r) && (forall x :: x in r <==> x in s || x == k) && InDeclarationOrder(wf, r)
  {
    var j := |s|;
    while j > 0 && Position(wf.order, s[j - 1]) > Position(wf.order, k)
      invariant 0 <= j <= |s|
      invariant forall i :: j <= i < |s| ==> Position(wf.order, s[i]) > Position(wf.order, k)
    {
      j := j - 1;
    }
    assert forall i :: j <= i < |s| ==> NoLater(wf, k, s[i]);
    InsertedInOrder(wf, s, k, j);
    r := s[..j] + [k] + s[j..];
  }

  lemma InsertedInOrder(wf: Workflow, s: seq<string>, k: string, j: nat)
    requires Listed(wf) && NoDup(s) && InDeclarationOrder(wf, s) && k in wf.order && k !in s && j <= |s|
    requires forall i :: j <= i < |s| ==> NoLater(wf, k, s[i])
    requires j > 0 ==> NoLater(wf, s[j - 1], k)
    ensures var r := s[..j] + [k] + s[j..];
      NoDup(r) && (forall x :: x in r <==> x in s || x == k) && InDeclarationOrder(wf, r)
  {
    hide Listed, NoLater, NoDup;
    var r := s[..j] + [k] + s[j..];
    InsertedOnce(s, k, j);
    forall a, b | 0 <= a < b < |r| ensures NoLater(wf, r[a], r[b]) {
      InsertedPair(wf, s, k, j, a, b);
    }
  }

  lemma InsertedOnce(s: seq<string>, k: string, j: nat)
    requires NoDup(s) && k !in s && j <= |s|
    ensures var r := s[..j] + [k] + s[j..]; NoDup(r) && forall x :: x in r <==> x in s || x == k
  {
    assert s == s[..j] + s[j..];
  }

  lemma InsertedPair(wf: Workflow, s: seq<string>, k: string, j: nat, a: nat, b: nat)
    requires j <= |s| && a < b <= |s| && forall x, y :: 0 <= x < y < |s| ==> NoLater(wf, s[x], s[y])
    requires forall i :: j <= i < |s| ==> NoLater(wf, k, s[i])
    requires j > 0 ==> NoLater(wf, s[j - 1], k)
    ensures var r := s[..j] + [k] + s[j..]; NoLater(wf, r[a], r[b])
  {
    hide NoLater;
    var r := s[..j] + [k] + s[j..];
    assert r[a] == if a < j then s[a] else if a == j then k else s[a - 1];
    assert r[b] == if b < j then s[b] else if b == j then k else s[b - 1];
    if b == j && a < j - 1 {
      NoLaterIsTransitive(wf, s[a], s[j - 1], k);
    }
  }

  lemma NoLaterIsTransitive(wf: Workflow, a: string, b: string, c: string)
    requires NoLater(wf, a, b) && NoLater(wf, b, c)
    ensures NoLater(wf, a, c)
  {
  }

  /** One placed job is taken off the counts of its dependents; those left without an
      outstanding need join the queue. */
  method Release(list: seq<string>, indeg0: map<string, int>, ready0: seq<string>)
    returns (indeg: map<string, int>, ready: seq<string>)
    requires NoDup(list) && NoDup(ready0) && forall d :: d in list ==> d !in ready0
    ensures forall x :: Count(indeg, x) == if x in list then Count(indeg0, x) - 1 else Count(indeg0, x)
    ensures NoDup(ready) && forall x :: x in ready <==> x in ready0 || (x in list && Count(indeg0, x) == 1)
  {
    indeg, ready := indeg0, ready0;
    for j := 0 to |list|
      invariant forall x :: Count(indeg, x) == if x in list[..j] then Count(indeg0, x) - 1 else Count(indeg0, x)
      invariant NoDup(ready)
      invariant forall x :: x in ready <==> x in ready0 || (x in list[..j] && Count(indeg0, x) == 1)
    {
      var d := list[j];
      assert d in list && d !in list[..j] && list[..j + 1] == list[..j] + [d];
      indeg := indeg[d := Count(indeg, d) - 1];
      if indeg[d] == 0 {
        ready := ready + [d];
      }
    }
    assert list[..|list|] == list;
  }

  lemma CountsFall(wf: Workflow, placed: seq<string>, k: string, list: seq<string>, indeg0: map<string, int>,
                   indeg: map<string, int>)
    requires k in wf.needs && k !in placed && ListsDependents(wf, wf.order, k, list) && Listed(wf)
    requires Counted(wf, placed, indeg0)
    requires forall x :: x in wf.needs ==> Count(indeg, x) == if x in list then Count(indeg0, x) - 1 else Count(indeg0, x)
    ensures Counted(wf, placed + [k], indeg)
  {
    hide NeedSet, ListsDependents, Listed;
    forall x | x in wf.needs ensures Count(indeg, x) == |NeedSet(wf, x) - Elements(placed + [k])| {
      CountFalls(wf, placed, k, list, x);
    }
  }

  lemma CountFalls(wf: Workflow, placed: seq<string>, k: string, list: seq<string>, x: string)
    requires k in wf.needs && k !in placed && ListsDependents(wf, wf.order, k, list) && Listed(wf) && x in wf.needs
    ensures |NeedSet(wf, x) - Elements(placed + [k])| == |NeedSet(wf, x) - Elements(placed)| - (if x in list then 1 else 0)
  {
    var before, after := NeedSet(wf, x) - Elements(placed), NeedSet(wf, x) - Elements(placed + [k]);
    assert x in wf.order;
    if x in list {
      assert k in before && after == before - {k};
    } else {
      assert k !in NeedSet(wf, x) && after == before;
    }
  }

  lemma ReadyGrows(wf: Workflow, placed: seq<string>, k: string, list: seq<string>, indeg0: map<string, int>,
                   ready0: seq<string>, ready: seq<string>)
    requires k in wf.needs && k !in placed && ListsDependents(wf, wf.order, k, list) && Listed(wf) && NoSelfNeed(wf)
    requires RespectsNeeds(wf, placed) && Defined(wf) && Counted(wf, placed, indeg0)
    requires forall x :: x in ready0 <==> Ready(wf, placed, x) && x != k
    requires NoDup(ready) && forall x :: x in ready <==> x in ready0 || (x in list && Count(indeg0, x) == 1)
    ensures Holds(wf, placed + [k], ready)
  {
    hide Ready, ListsDependents, Listed, NoSelfNeed, RespectsNeeds, Defined, Counted, NeedSet;
    forall x ensures x in ready <==> Ready(wf, placed + [k], x) {
      ReadyGrowsAt(wf, placed, k, list, indeg0, x);
    }
  }

  lemma ReadyGrowsAt(wf: Workflow, placed: seq<string>, k: string, list: seq<string>, indeg0: map<string, int>, x: string)
    requires k in wf.needs && k !in placed && ListsDependents(wf, wf.order, k, list) && Listed(wf) && NoSelfNeed(wf)
    requires RespectsNeeds(wf, placed) && Defined(wf) && Counted(wf, placed, indeg0)
    ensures Ready(wf, placed + [k], x) <==> (Ready(wf, placed, x) && x != k) || (x in list && Count(indeg0, x) == 1)
    ensures x in list ==> !Ready(wf, placed, x)
  {
    hide RespectsNeeds, Defined;
    if x in wf.needs {
      assert x in wf.order;
      if x in list {
        OneNeedLeft(wf, placed, k, x);
        if x in placed {
          NeedsArePlaced(wf, placed, x, k);
        }
      }
    }
  }

  lemma OneNeedLeft(wf: Workflow, placed: seq<string>, k: string, x: string)
    requires x in wf.needs && k in wf.needs[x] && k !in placed
    ensures |NeedSet(wf, x) - Elements(placed)| == 1 <==> forall n :: n in wf.needs[x] ==> n in placed + [k]
  {
    var left := NeedSet(wf, x) - Elements(placed);
    assert k in left;
    if |left| == 1 {
      SubsetOfSameSize({k}, left);
      forall n | n in wf.needs[x] ensures n in placed + [k] {
        assert n in left || n in placed;
      }
    }
    if forall n :: n in wf.needs[x] ==> n in placed + [k] {
      assert left == {k};
    }
  }

  lemma NeedsArePlaced(wf: Workflow, placed: seq<string>, x: string, n: string)
    requires RespectsNeeds(wf, placed) && x in placed && Edge(wf, x, n)
    ensures n in placed
  {
    var i :| 0 <= i < |placed| && placed[i] == x;
    assert n in placed[..i];
  }

  // ----------------------------------------------------------------- The sort

  method TopoSort(wf: Workflow) returns (r: Sorting)
    ensures r.Sorted? <==> Listed(wf) && Defined(wf) && Acyclic(wf)
    ensures r.Sorted? ==> ValidOrder(wf, r.keys) && Greedy(wf, r.keys)
    ensures r.BadOrder? <==> !Listed(wf)
    ensures r.BadNeed? ==> Unusable(wf, r.job, r.need)
    ensures r.Cyclic? ==> r.stuck != [] && Stuck(wf, Elements(r.stuck))
    ensures r.Cyclic? ==> forall c, k :: IsCycle(wf, c) && k in c ==> k in r.stuck
    ensures r.Cyclic? ==> forall k :: k in r.stuck <==> WaitsForACycle(wf, k)
    ensures r.Cyclic? ==> ((forall k :: k in r.stuck ==> OnACycle(wf, k)) <==> NobodyElseWaits(wf))
  {
    hide Linked, ValidOrder, Unusable, WaitsForACycle, OnACycle, NobodyElseWaits;
    var ok := CheckOrder(wf);
    if !ok {
      return BadOrder;
    }
    var bad, indeg, dependents := LinkNeeds(wf);
    if bad.BadNeed? {
      UnusableNeedIsFatal(wf, bad.job, bad.need);
      return bad;
    }
    var out;
    out, indeg := RunQueue(wf, indeg, dependents);
    CycleMembersAreLeft(wf, out);
    if |out| != |wf.order| {
      var stuck := StuckJobs(wf, indeg);
      LeftAreStuck(wf, out, indeg, stuck);
      StuckAreTheWaiting(wf, out, stuck);
      OnlyMembersWaitExactlyWhen(wf);
      r := Cyclic(stuck);
    } else {
      AllPlaced(wf, out);
      AnOrderRulesOutCycles(wf, out);
      r := Sorted(out);
    }
  }

  method StuckJobs(wf: Workflow, indeg: map<string, int>) returns (stuck: seq<string>)
    ensures forall k :: k in stuck <==> k in wf.order && Count(indeg, k) > 0
  {
    stuck := [];
    for i := 0 to |wf.order|
      invariant forall k :: k in stuck <==> k in wf.order[..i] && Count(indeg, k) > 0
    {
      assert wf.order[..i + 1] == wf.order[..i] + [wf.order[i]];
      if Count(indeg, wf.order[i]) > 0 {
        stuck := stuck + [wf.order[i]];
      }
    }
    assert wf.order[..|wf.order|] == wf.order;
  }

  /** The queue runs dry with a greedy order of everything that could be placed. */
  method RunQueue(wf: Workflow, indeg0: map<string, int>, dependents: map<string, seq<string>>)
    returns (out: seq<string>, indeg: map<string, int>)
    requires Listed(wf) && Defined(wf) && NoSelfNeed(wf) && Linked(wf, wf.order, indeg0, dependents)
    ensures Placed(wf, out) && Counted(wf, out, indeg)
    ensures forall k :: !Ready(wf, out, k)
  {
    hide Counted, RespectsNeeds, Greedy, NoSelfNeed, Ready, Defined;
    indeg, out := indeg0, [];
    AllOutstanding(wf, indeg, dependents);
    var ready := FirstReady(wf, indeg);
    while |ready| > 0
      invariant Placed(wf, out) && Counted(wf, out, indeg)
      invariant Holds(wf, out, ready) && InDeclarationOrder(wf, ready)
      decreases |wf.order| - |out|
    {
      var k := ready[0];
      PlaceNext(wf, out, ready);
      var rest := ready[1..];
      assert forall x :: x in rest <==> x in ready && x != k;
      var list := Dependents(dependents, k);
      ghost var before := indeg;
      DependentsAreNotReady(wf, out, k, list, rest, indeg);
      indeg, ready := Release(list, indeg, rest);
      CountsFall(wf, out, k, list, before, indeg);
      ReadyGrows(wf, out, k, list, before, rest, ready);
      out := out + [k];
      ready := SortByDeclaration(wf, ready);
      FitsTheOrder(wf, out);
    }
  }

  /** out is a greedy beginning of an order that respects needs. */
  ghost predicate Placed(wf: Workflow, out: seq<string>)
    requires Listed(wf)
  {
    NoDup(out) && (forall k :: k in out ==> k in wf.needs) && RespectsNeeds(wf, out) && Greedy(wf, out)
  }

  lemma UnusableNeedIsFatal(wf: Workflow, k: string, n: string)
    requires Unusable(wf, k, n)
    ensures !(Defined(wf) && Acyclic(wf))
  {
    if n == k {
      assert IsCycle(wf, [k, k]);
    }
  }

  lemma AllOutstanding(wf: Workflow, indeg: map<string, int>, dependents: map<string, seq<string>>)
    requires Listed(wf) && Linked(wf, wf.order, indeg, dependents)
    ensures Placed(wf, []) && Counted(wf, [], indeg)
    ensures forall n :: ListsDependents(wf, wf.order, n, Dependents(dependents, n))
  {
    forall k | k in wf.needs ensures Count(indeg, k) == |NeedSet(wf, k) - Elements([])| {
      assert k in wf.order && NeedSet(wf, k) - Elements([]) == NeedSet(wf, k);
    }
  }

  method FirstReady(wf: Workflow, indeg: map<string, int>) returns (ready: seq<string>)
    requires Listed(wf) && Counted(wf, [], indeg)
    ensures Holds(wf, [], ready) && InDeclarationOrder(wf, ready)
  {
    hide Counted, Listed;
    ready := [];
    var keys := wf.order;
    for i := 0 to |keys|
      invariant NoDup(ready) && (forall k :: k in ready <==> k in keys[..i] && Count(indeg, k) == 0)
      invariant InDeclarationOrder(wf, ready)
      invariant forall j :: 0 <= j < |ready| ==> ready[j] in keys && Position(keys, ready[j]) < i
    {
      var k := keys[i];
      assert keys[..i + 1] == keys[..i] + [k];
      PositionIs(wf, i);
      if Count(indeg, k) == 0 {
        ready := ready + [k];
      }
    }
    assert keys[..|keys|] == keys;
    NoneOutstanding(wf, indeg);
  }

  lemma PositionIs(wf: Workflow, i: nat)
    requires Listed(wf) && i < |wf.order|
    ensures Position(wf.order, wf.order[i]) == i && wf.order[i] !in wf.order[..i]
  {
  }

  lemma NoneOutstanding(wf: Workflow, indeg: map<string, int>)
    requires Listed(wf) && Counted(wf, [], indeg)
    ensures forall k :: k in wf.order && Count(indeg, k) == 0 <==> Ready(wf, [], k)
  {
    forall k | k in wf.needs ensures Count(indeg, k) == 0 <==> Ready(wf, [], k) {
      var left := NeedSet(wf, k) - Elements([]);
      if left != {} {
        var n :| n in left;
        assert n in wf.needs[k];
      }
      if n :| n in wf.needs[k] {
        assert n in left;
      }
    }
  }

  lemma PlaceNext(wf: Workflow, out: seq<string>, ready: seq<string>)
    requires Listed(wf) && Placed(wf, out) && Holds(wf, out, ready) && InDeclarationOrder(wf, ready) && ready != []
    ensures Placed(wf, out + [ready[0]]) && ready[0] in wf.needs && ready[0] !in out && |out| < |wf.order|
    ensures NoDup(ready[1..]) && ready[0] !in ready[1..]
  {
    hide Position, RespectsNeeds, Greedy, Ready;
    var k := ready[0];
    assert k in ready;
    NextRespectsNeeds(wf, out, k);
    forall x | Ready(wf, out, x) ensures NoLater(wf, k, x) {
      FirstIsNoLater(wf, ready, x);
    }
    NextIsGreedy(wf, out, k);
    FitsTheOrder(wf, out + [k]);
  }

  lemma FirstIsNoLater(wf: Workflow, ready: seq<string>, x: string)
    requires Listed(wf) && InDeclarationOrder(wf, ready) && x in ready
    ensures NoLater(wf, ready[0], x)
  {
    var i :| 0 <= i < |ready| && ready[i] == x;
    assert i > 0 ==> NoLater(wf, ready[0], ready[i]);
  }

  lemma NextRespectsNeeds(wf: Workflow, out: seq<string>, k: string)
    requires NoDup(out) && RespectsNeeds(wf, out) && Ready(wf, out, k)
    ensures NoDup(out + [k]) && RespectsNeeds(wf, out + [k]) && k in wf.needs && k !in out
  {
    var next := out + [k];
    forall i, n | 0 <= i < |next| && Edge(wf, next[i], n) ensures n in next[..i] {
      if i < |out| {
        assert next[..i] == out[..i] && Edge(wf, out[i], n);
      } else {
        assert next[..i] == out;
      }
    }
  }

  lemma NextIsGreedy(wf: Workflow, out: seq<string>, k: string)
    requires Listed(wf) && Greedy(wf, out) && Ready(wf, out, k)
    requires forall x :: Ready(wf, out, x) ==> NoLater(wf, k, x)
    ensures Greedy(wf, out + [k])
  {
    hide Position, Listed;
    var next := out + [k];
    forall p | 0 <= p < |next|
      ensures Ready(wf, next[..p], next[p])
      ensures forall x :: x in wf.needs && Ready(wf, next[..p], x)
                ==> Position(wf.order, next[p]) <= Position(wf.order, x)
    {
      if p < |out| {
        assert next[..p] == out[..p];
      } else {
        assert next[..p] == out;
      }
    }
  }

  lemma FitsTheOrder(wf: Workflow, out: seq<string>)
    requires Listed(wf) && NoDup(out) && forall k :: k in out ==> k in wf.needs
    ensures |out| <= |wf.order|
  {
    CountDistinct(out);
    CountDistinct(wf.order);
    SubsetIsSmaller(Elements(out), Elements(wf.order));
  }

  lemma DependentsAreNotReady(wf: Workflow, placed: seq<string>, k: string, list: seq<string>, rest: seq<string>,
                              indeg: map<string, int>)
    requires k in wf.needs && k !in placed && ListsDependents(wf, wf.order, k, list) && Listed(wf) && NoSelfNeed(wf)
    requires RespectsNeeds(wf, placed) && Defined(wf) && Counted(wf, placed, indeg)
    requires forall x :: x in rest ==> Ready(wf, placed, x)
    ensures forall d :: d in list ==> d !in rest
  {
    hide Ready, ListsDependents, Listed, NoSelfNeed, RespectsNeeds, Defined, Counted, NeedSet;
    forall d | d in list ensures d !in rest {
      ReadyGrowsAt(wf, placed, k, list, indeg, d);
    }
  }

  lemma CycleMembersAreLeft(wf: Workflow, out: seq<string>)
    requires RespectsNeeds(wf, out)
    ensures forall c, k :: IsCycle(wf, c) && k in c ==> k in wf.needs && k !in out
  {
    hide RespectsNeeds;
    forall c, k | IsCycle(wf, c) && k in c ensures k in wf.needs && k !in out {
      CyclesAreNotPlaced(wf, out, c, k);
      var i :| 0 <= i < |c| && c[i] == k;
      if i < |c| - 1 {
        assert Edge(wf, c[i], c[i + 1]);
      } else {
        assert Edge(wf, c[0], c[1]);
      }
    }
  }

  lemma LeftAreStuck(wf: Workflow, out: seq<string>, indeg: map<string, int>, stuck: seq<string>)
    requires Listed(wf) && Defined(wf) && Placed(wf, out) && Counted(wf, out, indeg) && |out| != |wf.order|
    requires forall k :: !Ready(wf, out, k)
    requires forall k :: k in stuck <==> k in wf.order && Count(indeg, k) > 0
    ensures forall k :: k in stuck <==> k in wf.needs && k !in out
    ensures stuck != [] && Stuck(wf, Elements(stuck)) && !Acyclic(wf)
  {
    hide Greedy, RespectsNeeds, Ready, NeedSet, Counted;
    forall k | k in wf.needs ensures k in stuck <==> k !in out {
      var n := LeftWithNeeds(wf, out, indeg, k);
    }
    forall k | k in Elements(stuck) ensures NeedsOneOf(wf, k, Elements(stuck)) {
      var n := LeftWithNeeds(wf, out, indeg, k);
      assert n in Elements(stuck);
    }
    if stuck == [] {
      AllPlacedIsAll(wf, out);
    }
    assert stuck[0] in Elements(stuck);
    StuckJobsHideACycle(wf, Elements(stuck));
  }

  lemma StuckAreTheWaiting(wf: Workflow, out: seq<string>, stuck: seq<string>)
    requires RespectsNeeds(wf, out) && Stuck(wf, Elements(stuck)) && forall k :: k in stuck <==> k in wf.needs && k !in out
    ensures forall k :: k in stuck <==> WaitsForACycle(wf, k)
  {
    hide RespectsNeeds, Stuck, WalkToACycle;
    forall k ensures k in stuck <==> WaitsForACycle(wf, k) {
      if k in stuck {
        assert k in Elements(stuck);
        StuckJobsWait(wf, Elements(stuck), k);
      } else if WaitsForACycle(wf, k) {
        var c :| WalkToACycle(wf, c, k);
        WaitingJobsAreNotPlaced(wf, out, c, k);
      }
    }
  }

  /** A job left over is one with a count, and it needs another that is left over. */
  lemma LeftWithNeeds(wf: Workflow, out: seq<string>, indeg: map<string, int>, k: string) returns (n: string)
    requires k in wf.needs && Defined(wf) && RespectsNeeds(wf, out) && Counted(wf, out, indeg) && !Ready(wf, out, k)
    ensures Count(indeg, k) > 0 <==> k !in out
    ensures k !in out ==> Edge(wf, k, n) && n !in out
  {
    n := k;
    var left := NeedSet(wf, k) - Elements(out);
    if k in out {
      forall m | m in wf.needs[k] ensures m in out {
        NeedsArePlaced(wf, out, k, m);
      }
      assert left == {};
    } else {
      n :| n in wf.needs[k] && n !in out;
      assert n in left;
    }
  }

  lemma AllPlacedIsAll(wf: Workflow, out: seq<string>)
    requires Listed(wf) && NoDup(out) && forall k :: k in out <==> k in wf.needs
    ensures |out| == |wf.order|
  {
    SameLength(out, wf.order);
  }

  lemma AllPlaced(wf: Workflow, out: seq<string>)
    requires Listed(wf) && Placed(wf, out) && |out| == |wf.order|
    ensures ValidOrder(wf, out)
  {
    hide Greedy, RespectsNeeds;
    CountDistinct(out);
    CountDistinct(wf.order);
    assert Elements(wf.order) == wf.needs.Keys;
    SubsetOfSameSize(Elements(out), wf.needs.Keys);
    assert forall k :: k in out <==> k in Elements(out);
  }

  /** The validator's verdict and the planner's: a workflow whose jobs and needs are all
      there is ordered exactly when no cycle is reported, and then no other valid order
      comes before the one chosen. */
  method ValidateAndSort(wf: Workflow) returns (cycle: seq<string>, r: Sorting)
    requires Listed(wf) && Defined(wf)
    ensures cycle == [] <==> r.Sorted?
    ensures cycle != [] ==> IsCycle(wf, cycle) && NoDup(cycle[1..])
    ensures r.Sorted? ==> ValidOrder(wf, r.keys) && forall other :: ValidOrder(wf, other) ==> ComesFirst(wf, r.keys, other)
  {
    var finder := new CycleSearch.CycleFinder(wf);
    cycle := finder.FindCycle();
    r := TopoSort(wf);
    if r.Sorted? {
      forall other | ValidOrder(wf, other) ensures ComesFirst(wf, r.keys, other) {
        if other != r.keys {
          var p := GreedyIsLexicographicallyLeast(wf, r.keys, other);
        }
      }
    }
  }

  /** The same order, or earlier in the lexicographic order by declaration. */
  ghost predicate ComesFirst(wf: Workflow, o: seq<string>, other: seq<string>)
    requires Listed(wf) && ValidOrder(wf, o) && ValidOrder(wf, other)
  {
    o == other
    || (|o| == |other|
        && exists p | 0 <= p < |o| && o[..p] == other[..p] :: Position(wf.order, o[p]) < Position(wf.order, other[p]))
  }
}
