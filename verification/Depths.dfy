/** The columns of the job graph. The server and the browser each relax depths in place; both
    end at the longest path of every node. A pass sees some depths of the pass before and
    some of its own; the proof follows how long the walks are that it has accounted for. */
module Depths {
  import opened NeedsGraph

  /** One drawn job; the legs of a matrix share a key. */
  datatype Node = Node(key: string, needs: seq<string>)

  function Keys(nodes: seq<Node>): set<string> {
    set n | n in nodes :: n.key
  }

  /** The map's value, 0 where it has none. */
  function At(depth: map<string, int>, k: string): int {
    if k in depth then depth[k] else 0
  }

  function Deepest(needs: seq<string>, present: set<string>, depth: map<string, int>): (d: int)
    ensures d >= 0
    ensures forall n :: n in needs && n in present ==> At(depth, n) + 1 <= d
    ensures d == 0 || exists n :: n in needs && n in present && At(depth, n) + 1 == d
    decreases |needs|
  {
    if needs == [] then 0
    else
      var n := needs[|needs| - 1];
      var d := Deepest(needs[..|needs| - 1], present, depth);
      assert needs == needs[..|needs| - 1] + [n];
      if n in present && At(depth, n) + 1 > d then At(depth, n) + 1 else d
  }

  function RelaxNode(n: Node, present: set<string>, depth: map<string, int>): map<string, int> {
    var d := Deepest(n.needs, present, depth);
    if d > At(depth, n.key) then depth[n.key := d] else depth
  }

  /** One pass over the nodes, each seeing what those before it wrote. */
  function RelaxNodes(nodes: seq<Node>, present: set<string>, depth: map<string, int>): map<string, int>
    decreases |nodes|
  {
    if nodes == [] then depth
    else RelaxNode(nodes[|nodes| - 1], present, RelaxNodes(nodes[..|nodes| - 1], present, depth))
  }

  /** At most so many passes, fewer when one changes nothing. */
  function Passes(nodes: seq<Node>, depth: map<string, int>, limit: nat): map<string, int>
    decreases limit
  {
    if limit == 0 then depth
    else
      var next := RelaxNodes(nodes, Keys(nodes), depth);
      if next == depth then depth else Passes(nodes, next, limit - 1)
  }

  // -------------------------------------------------------------- The two loops

  /** The server's. */
  method BuildGraphDepths(nodes: seq<Node>) returns (depth: map<string, int>)
    ensures depth == Passes(nodes, map[], |nodes|)
  {
    hide Keys;
    var byKey: map<string, Node> := map[];
    KeysOfNone();
    for i := 0 to |nodes|
      invariant byKey.Keys == Keys(nodes[..i])
    {
      KeysOneMore(nodes, i);
      byKey := byKey[nodes[i].key := nodes[i]];
    }
    assert nodes[..|nodes|] == nodes;
    depth := map[];
    for pass := 0 to |nodes|
      invariant Passes(nodes, depth, |nodes| - pass) == Passes(nodes, map[], |nodes|)
    {
      var changed;
      depth, changed := RelaxJobs(nodes, byKey, depth);
      if !changed {
        return;
      }
    }
  }

  method RelaxJobs(nodes: seq<Node>, byKey: map<string, Node>, before: map<string, int>)
    returns (depth: map<string, int>, changed: bool)
    ensures depth == RelaxNodes(nodes, byKey.Keys, before)
    ensures changed <==> depth != before
  {
    hide Deepest;
    depth, changed := before, false;
    for i := 0 to |nodes|
      invariant depth == RelaxNodes(nodes[..i], byKey.Keys, before)
      invariant changed <==> depth != before
    {
      RelaxOneMore(nodes, i, byKey.Keys, before);
      var d := 0;
      var needs := nodes[i].needs;
      for j := 0 to |needs|
        invariant d == Deepest(needs[..j], byKey.Keys, depth)
      {
        DeepestOneMore(needs, j, byKey.Keys, depth);
        if needs[j] in byKey && At(depth, needs[j]) + 1 > d {
          d := At(depth, needs[j]) + 1;
        }
      }
      assert needs[..|needs|] == needs;
      if d > At(depth, nodes[i].key) {
        RaisedIsNew(nodes[..i], byKey.Keys, before, nodes[i].key, d);
        depth := depth[nodes[i].key := d];
        changed := true;
      }
    }
    assert nodes[..|nodes|] == nodes;
  }

  /** The browser's; its map starts with a zero for every node. */
  method ComputeDepths(nodes: seq<Node>) returns (depth: map<string, int>)
    ensures depth == Passes(nodes, map k | k in Keys(nodes) :: 0, |nodes|)
  {
    hide RelaxNodes;
    var present := set n | n in nodes :: n.key;
    depth := map k | k in present :: 0;
    ghost var zeros := depth;
    assert zeros == map k | k in Keys(nodes) :: 0;
    var pass := 0;
    while pass < |nodes|
      invariant 0 <= pass <= |nodes|
      invariant Passes(nodes, depth, |nodes| - pass) == Passes(nodes, zeros, |nodes|)
    {
      var changed;
      depth, changed := RelaxInputs(nodes, present, depth);
      if !changed {
        break;
      }
      pass := pass + 1;
    }
  }

  method RelaxInputs(nodes: seq<Node>, present: set<string>, before: map<string, int>)
    returns (depth: map<string, int>, changed: bool)
    ensures depth == RelaxNodes(nodes, present, before)
    ensures changed <==> depth != before
  {
    hide Deepest;
    depth, changed := before, false;
    for i := 0 to |nodes|
      invariant depth == RelaxNodes(nodes[..i], present, before)
      invariant changed <==> depth != before
    {
      RelaxOneMore(nodes, i, present, before);
      var d := 0;
      var needs := nodes[i].needs;
      for j := 0 to |needs|
        invariant d == Deepest(needs[..j], present, depth)
      {
        DeepestOneMore(needs, j, present, depth);
        if needs[j] !in present {
          continue;
        }
        d := if d >= At(depth, needs[j]) + 1 then d else At(depth, needs[j]) + 1;
      }
      assert needs[..|needs|] == needs;
      if d > At(depth, nodes[i].key) {
        RaisedIsNew(nodes[..i], present, before, nodes[i].key, d);
        depth := depth[nodes[i].key := d];
        changed := true;
      }
    }
    assert nodes[..|nodes|] == nodes;
  }

  lemma KeysOfNone()
    ensures Keys([]) == {}
  {
  }

  lemma KeysOneMore(nodes: seq<Node>, i: nat)
    requires i < |nodes|
    ensures Keys(nodes[..i + 1]) == Keys(nodes[..i]) + {nodes[i].key}
  {
    assert nodes[..i + 1] == nodes[..i] + [nodes[i]];
  }

  lemma DeepestOneMore(needs: seq<string>, j: nat, present: set<string>, depth: map<string, int>)
    requires j < |needs|
    ensures Deepest([], present, depth) == 0
    ensures Deepest(needs[..j + 1], present, depth)
         == (var d := Deepest(needs[..j], present, depth);
             if needs[j] in present && At(depth, needs[j]) + 1 > d then At(depth, needs[j]) + 1 else d)
  {
    assert needs[..j + 1][..j] == needs[..j];
  }

  lemma RelaxOneMore(nodes: seq<Node>, i: nat, present: set<string>, depth: map<string, int>)
    requires i < |nodes|
    ensures RelaxNodes(nodes[..i + 1], present, depth) == RelaxNode(nodes[i], present, RelaxNodes(nodes[..i], present, depth))
  {
    assert nodes[..i + 1][..i] == nodes[..i];
  }

  lemma {:induction false} DepthsGrow(nodes: seq<Node>, present: set<string>, depth: map<string, int>)
    ensures forall k :: At(RelaxNodes(nodes, present, depth), k) >= At(depth, k)
    ensures depth.Keys <= RelaxNodes(nodes, present, depth).Keys
    decreases |nodes|
  {
    if nodes != [] {
      DepthsGrow(nodes[..|nodes| - 1], present, depth);
    }
  }

  lemma RaisedIsNew(nodes: seq<Node>, present: set<string>, before: map<string, int>, k: string, d: int)
    requires d > At(RelaxNodes(nodes, present, before), k)
    ensures RelaxNodes(nodes, present, before)[k := d] != before
  {
    DepthsGrow(nodes, present, before);
    assert At(RelaxNodes(nodes, present, before)[k := d], k) == d;
  }

  // --------------------------------------------------------------- Longest paths

  /** Everything any node of a key needs. */
  function NeedsOf(nodes: seq<Node>, k: string): (needs: seq<string>)
    ensures forall n :: n in needs <==> exists i :: 0 <= i < |nodes| && nodes[i].key == k && n in nodes[i].needs
    decreases |nodes|
  {
    if nodes == [] then []
    else
      var rest := NeedsOf(nodes[..|nodes| - 1], k);
      var last := nodes[|nodes| - 1];
      assert nodes == nodes[..|nodes| - 1] + [last];
      if last.key == k then rest + last.needs else rest
  }

  function Graph(nodes: seq<Node>): Workflow {
    Workflow([], map k | k in Keys(nodes) :: NeedsOf(nodes, k))
  }

  /** A walk of d edges along needs starts at k. */
  ghost predicate Reaches(nodes: seq<Node>, k: string, d: int) {
    exists c :: WalkOf(nodes, k, d, c)
  }

  ghost predicate WalkOf(nodes: seq<Node>, k: string, d: int, c: seq<string>) {
    |c| == d + 1 && |c| > 0 && c[0] == k && IsWalk(Graph(nodes), c)
  }

  /** d is the number of edges on the longest path of needs from k. */
  ghost predicate LongestPath(nodes: seq<Node>, k: string, d: int) {
    Reaches(nodes, k, d) && forall e :: Reaches(nodes, k, e) ==> e <= d
  }

  ghost predicate AllReached(nodes: seq<Node>, depth: map<string, int>) {
    forall k :: At(depth, k) >= 0 && (k in Keys(nodes) ==> Reaches(nodes, k, At(depth, k)))
  }

  lemma {:induction false} RelaxingStaysReached(nodes: seq<Node>, part: seq<Node>, depth: map<string, int>)
    requires AllReached(nodes, depth) && forall i :: 0 <= i < |part| ==> part[i] in nodes
    ensures AllReached(nodes, RelaxNodes(part, Keys(nodes), depth))
    decreases |part|
  {
    hide AllReached, Deepest, Keys;
    if part != [] {
      RelaxingStaysReached(nodes, part[..|part| - 1], depth);
      RelaxedNodeIsReached(nodes, part[|part| - 1], RelaxNodes(part[..|part| - 1], Keys(nodes), depth));
    }
  }

  lemma RelaxedNodeIsReached(nodes: seq<Node>, n: Node, depth: map<string, int>)
    requires AllReached(nodes, depth) && n in nodes
    ensures AllReached(nodes, RelaxNode(n, Keys(nodes), depth))
  {
    hide IsWalk, NeedsOf, Graph, Reaches;
    var d := Deepest(n.needs, Keys(nodes), depth);
    if d > At(depth, n.key) {
      var m :| m in n.needs && m in Keys(nodes) && At(depth, m) + 1 == d;
      StepBack(nodes, n, m, d - 1);
      var next := RelaxNode(n, Keys(nodes), depth);
      forall k ensures At(next, k) >= 0 && (k in Keys(nodes) ==> Reaches(nodes, k, At(next, k))) {
        assert At(next, k) == if k == n.key then d else At(depth, k);
      }
    }
  }

  lemma StepBack(nodes: seq<Node>, n: Node, m: string, d: int)
    requires n in nodes && m in n.needs && m in Keys(nodes) && Reaches(nodes, m, d)
    ensures Reaches(nodes, n.key, d + 1)
  {
    var c :| WalkOf(nodes, m, d, c);
    var i :| 0 <= i < |nodes| && nodes[i] == n;
    assert Edge(Graph(nodes), n.key, m);
    assert WalkOf(nodes, n.key, d + 1, [n.key] + c);
  }

  /** Every walk of at most p edges is accounted for. */
  ghost predicate Covers(nodes: seq<Node>, depth: map<string, int>, p: int) {
    forall k, d | Reaches(nodes, k, d) && d <= p :: At(depth, k) >= d
  }

  /** A pass lifts a node over each of its needs. */
  lemma {:induction false} PassLifts(nodes: seq<Node>, present: set<string>, depth: map<string, int>, i: nat, m: string)
    requires i < |nodes| && m in nodes[i].needs && m in present
    ensures At(RelaxNodes(nodes, present, depth), nodes[i].key) >= At(depth, m) + 1
    decreases |nodes|
  {
    var rest := nodes[..|nodes| - 1];
    DepthsGrow(rest, present, depth);
    if i < |rest| {
      PassLifts(rest, present, depth, i, m);
    }
  }

  lemma PassCoversMore(nodes: seq<Node>, depth: map<string, int>, p: nat)
    requires Covers(nodes, depth, p) && forall k :: At(depth, k) >= 0
    ensures Covers(nodes, RelaxNodes(nodes, Keys(nodes), depth), p + 1)
  {
    hide Keys, Graph;
    var next := RelaxNodes(nodes, Keys(nodes), depth);
    DepthsGrow(nodes, Keys(nodes), depth);
    forall k, d | Reaches(nodes, k, d) && d <= p + 1 ensures At(next, k) >= d {
      if d > 0 {
        var i, m := StepOn(nodes, k, d);
        PassLifts(nodes, Keys(nodes), depth, i, m);
      }
    }
  }

  /** A longer walk goes on through a need of a node with its first key. */
  lemma StepOn(nodes: seq<Node>, k: string, d: int) returns (i: nat, m: string)
    requires Reaches(nodes, k, d) && d > 0
    ensures i < |nodes| && nodes[i].key == k && m in nodes[i].needs && m in Keys(nodes) && Reaches(nodes, m, d - 1)
  {
    var c :| WalkOf(nodes, k, d, c);
    m := c[1];
    assert Edge(Graph(nodes), c[0], m);
    assert m in NeedsOf(nodes, k);
    i :| 0 <= i < |nodes| && nodes[i].key == k && m in nodes[i].needs;
    assert WalkOf(nodes, m, d - 1, c[1..]);
  }

  lemma {:induction false} PassesCover(nodes: seq<Node>, depth: map<string, int>, limit: nat, p: nat)
    requires Covers(nodes, depth, p) && AllReached(nodes, depth)
    ensures Covers(nodes, Passes(nodes, depth, limit), p + limit)
    ensures AllReached(nodes, Passes(nodes, depth, limit))
    decreases limit
  {
    hide Covers, RelaxNodes, Reaches, Keys;
    if limit > 0 {
      var next := RelaxNodes(nodes, Keys(nodes), depth);
      PassCoversMore(nodes, depth, p);
      RelaxingStaysReached(nodes, nodes, depth);
      if next == depth {
        PassesCover(nodes, depth, limit - 1, p + 1);
        SettledStays(nodes, depth, limit - 1);
      } else {
        PassesCover(nodes, next, limit - 1, p + 1);
      }
    }
  }

  lemma SettledStays(nodes: seq<Node>, depth: map<string, int>, limit: nat)
    requires RelaxNodes(nodes, Keys(nodes), depth) == depth
    ensures Passes(nodes, depth, limit) == depth
  {
  }

  lemma AcyclicWalksAreShort(nodes: seq<Node>, k: string, d: int)
    requires Acyclic(Graph(nodes)) && Reaches(nodes, k, d)
    ensures d <= |nodes|
  {
    var c :| WalkOf(nodes, k, d, c);
    if |c| > |nodes| + 1 {
      FewKeys(nodes);
      forall x | x in c ensures x in Keys(nodes) {
        var i :| 0 <= i < |c| && c[i] == x;
        if i < |c| - 1 {
          assert Edge(Graph(nodes), c[i], c[i + 1]);
        } else {
          assert Edge(Graph(nodes), c[i - 1], c[i]);
        }
      }
      var i, j := Pigeonhole(c, Keys(nodes));
      assert IsCycle(Graph(nodes), c[i..j + 1]);
    }
  }

  lemma {:induction false} FewKeys(nodes: seq<Node>)
    ensures |Keys(nodes)| <= |nodes|
    decreases |nodes|
  {
    if nodes != [] {
      KeysOneMore(nodes, |nodes| - 1);
      assert nodes[..|nodes|] == nodes;
      FewKeys(nodes[..|nodes| - 1]);
    }
  }

  predicate Zero(depth: map<string, int>) {
    forall k :: k in depth ==> depth[k] == 0
  }

  /** As many passes as nodes are enough: on an acyclic graph the relaxation, from zero,
      ends at the exact longest path of every node. */
  lemma RelaxationFindsLongestPaths(nodes: seq<Node>, start: map<string, int>, k: string)
    requires Acyclic(Graph(nodes)) && Zero(start) && k in Keys(nodes)
    ensures LongestPath(nodes, k, At(Passes(nodes, start, |nodes|), k))
  {
    hide Passes, Graph, IsWalk, Keys;
    forall x | x in Keys(nodes) ensures Reaches(nodes, x, 0) {
      assert WalkOf(nodes, x, 0, [x]) by {
        OneNodeWalk(nodes, x);
      }
    }
    forall x, d | Reaches(nodes, x, d) && d <= 0 ensures At(start, x) >= d {
    }
    PassesCover(nodes, start, |nodes|, 0);
    forall d | Reaches(nodes, k, d) ensures d <= At(Passes(nodes, start, |nodes|), k) {
      AcyclicWalksAreShort(nodes, k, d);
    }
  }

  lemma OneNodeWalk(nodes: seq<Node>, k: string)
    ensures IsWalk(Graph(nodes), [k])
  {
  }

  /** Every drawn edge goes to a strictly deeper column. */
  lemma EdgesGoDeeper(nodes: seq<Node>, start: map<string, int>, n: Node, need: string)
    requires Acyclic(Graph(nodes)) && Zero(start) && n in nodes && need in n.needs && need in Keys(nodes)
    ensures At(Passes(nodes, start, |nodes|), n.key) > At(Passes(nodes, start, |nodes|), need)
  {
    hide Passes, Graph;
    assert n.key in Keys(nodes);
    RelaxationFindsLongestPaths(nodes, start, need);
    RelaxationFindsLongestPaths(nodes, start, n.key);
    StepBack(nodes, n, need, At(Passes(nodes, start, |nodes|), need));
  }

  // --------------------------------------------------------- The two loops agree

  ghost predicate SameDepths(a: map<string, int>, b: map<string, int>) {
    forall k :: At(a, k) == At(b, k)
  }

  lemma {:induction false} SameDeepest(needs: seq<string>, present: set<string>, a: map<string, int>, b: map<string, int>)
    requires SameDepths(a, b)
    ensures Deepest(needs, present, a) == Deepest(needs, present, b)
    decreases |needs|
  {
    if needs != [] {
      SameDeepest(needs[..|needs| - 1], present, a, b);
    }
  }

  lemma SameNode(n: Node, present: set<string>, a: map<string, int>, b: map<string, int>)
    requires SameDepths(a, b)
    ensures SameDepths(RelaxNode(n, present, a), RelaxNode(n, present, b))
  {
    SameDeepest(n.needs, present, a, b);
    forall k ensures At(RelaxNode(n, present, a), k) == At(RelaxNode(n, present, b), k) {
      assert At(a, k) == At(b, k) && At(a, n.key) == At(b, n.key);
    }
  }

  lemma {:induction false} SameRelaxed(nodes: seq<Node>, present: set<string>, a: map<string, int>, b: map<string, int>)
    requires SameDepths(a, b)
    ensures SameDepths(RelaxNodes(nodes, present, a), RelaxNodes(nodes, present, b))
    decreases |nodes|
  {
    if nodes != [] {
      var rest := nodes[..|nodes| - 1];
      SameRelaxed(rest, present, a, b);
      SameNode(nodes[|nodes| - 1], present, RelaxNodes(rest, present, a), RelaxNodes(rest, present, b));
    }
  }

  /** A pass that writes anything raises some depth. */
  lemma {:induction false} ChangesRaise(nodes: seq<Node>, present: set<string>, depth: map<string, int>)
    requires SameDepths(RelaxNodes(nodes, present, depth), depth)
    ensures RelaxNodes(nodes, present, depth) == depth
    decreases |nodes|
  {
    if nodes != [] {
      var rest, last := nodes[..|nodes| - 1], nodes[|nodes| - 1];
      DepthsGrow(rest, present, depth);
      var part := RelaxNodes(rest, present, depth);
      if Deepest(last.needs, present, part) > At(part, last.key) {
        assert false;
      }
      ChangesRaise(rest, present, depth);
    }
  }

  lemma {:induction false} SamePasses(nodes: seq<Node>, a: map<string, int>, b: map<string, int>, limit: nat)
    requires SameDepths(a, b)
    ensures SameDepths(Passes(nodes, a, limit), Passes(nodes, b, limit))
    decreases limit
  {
    hide RelaxNodes, Keys;
    if limit > 0 {
      var a', b' := RelaxNodes(nodes, Keys(nodes), a), RelaxNodes(nodes, Keys(nodes), b);
      SameRelaxed(nodes, Keys(nodes), a, b);
      if a' == a || b' == b {
        ChangesRaise(nodes, Keys(nodes), a);
        ChangesRaise(nodes, Keys(nodes), b);
      } else {
        SamePasses(nodes, a', b', limit - 1);
      }
    }
  }

  /** The server and the browser draw every graph alike, even one with a cycle. */
  lemma ServerAndBrowserAgree(nodes: seq<Node>, k: string)
    ensures At(Passes(nodes, map[], |nodes|), k) == At(Passes(nodes, map x | x in Keys(nodes) :: 0, |nodes|), k)
  {
    hide Passes;
    SamePasses(nodes, map[], map x | x in Keys(nodes) :: 0, |nodes|);
  }
}
