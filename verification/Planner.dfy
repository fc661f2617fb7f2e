/** From a workflow to the plan a run is driven by: jobs in an order that respects needs,
    one planned job per leg, policies checked. */
module Planner {
  import opened Model
  import opened Retry
  import opened Entities
  import opened Steps
  import opened Invariants
  import opened Moves
  import opened Settling
  import opened EntryPoints
  import opened RunEntry
  import NeedsGraph
  import TopoSorting
  import MatrixExpansion
  import MatrixLaws

  /** maxParallel is the evaluated value, None when it does not evaluate. */
  datatype Strategy = Strategy(failFast: Option<bool>, maxParallel: Option<int>, matrix: Option<MatrixExpansion.Matrix>)

  datatype JobIR = JobIR(
    key: string,
    needs: seq<string>,
    cond: string,
    namesStatus: bool,
    strategy: Option<Strategy>,
    retry: Option<RetryPolicy>,
    hasConcurrency: bool)

  /** What one leg's expressions evaluate to. */
  datatype Settings = Settings(
    labels: seq<string>,
    group: string,
    cancelInProgress: bool,
    continueOnError: bool,
    timeoutMinutes: int)

  /** Every expression of a workflow is evaluated by these; None stands for a failure. */
  datatype Env = Env(
    value: MatrixExpansion.Evaluator,
    literal: MatrixExpansion.Value -> bool,
    render: MatrixExpansion.Value -> string,
    settings: (JobIR, Option<MatrixExpansion.Leg>) -> Option<Settings>)

  const DEFAULT_RETRY := RetryPolicy(3, [ClassInfra], BackoffExponential, 5_000_000_000, 120_000_000_000)

  function PolicyOf(ir: JobIR): RetryPolicy {
    if ir.retry.Some? then ir.retry.value else DEFAULT_RETRY
  }

  /** At least one attempt, and only the platform's own failures retried. */
  predicate Honest(p: RetryPolicy) {
    p.attempts >= 1 && forall c :: c in p.on ==> c == ClassInfra
  }

  /** A job that declares no policy gets three attempts, for infrastructure alone, five seconds
      before the second and ten before the third; more would never wait over two minutes. */
  lemma TheDefaultPolicy(ir: JobIR, n: int)
    requires ir.retry.None?
    ensures var p := PolicyOf(ir);
      && p.attempts == 3 && Honest(p)
      && (forall kind, attempt :: Retries(p, kind, attempt) <==> kind == ClassInfra && attempt < 3)
      && Delay(p, 2) == 5_000_000_000 && Delay(p, 3) == 10_000_000_000 && 0 <= Delay(p, n) <= 120_000_000_000
  {
    DelayIsThePause(DEFAULT_RETRY, 2);
    DelayIsThePause(DEFAULT_RETRY, 3);
    assert Pow2(0) == 1 && Pow2(1) == 2;
    DelayIsThePause(DEFAULT_RETRY, n);
  }

  function CapOf(ir: JobIR): Option<int> {
    if ir.strategy.Some? then ir.strategy.value.maxParallel else Some(0)
  }

  function FailFastOf(ir: JobIR): bool {
    if ir.strategy.Some? && ir.strategy.value.failFast.Some? then ir.strategy.value.failFast.value else true
  }

  function MatrixOf(ir: JobIR): Option<MatrixExpansion.Matrix> {
    if ir.strategy.Some? then ir.strategy.value.matrix else None
  }

  function Shown(leg: MatrixExpansion.Leg, k: string, render: MatrixExpansion.Value -> string): string {
    if k in leg.values then render(leg.values[k]) else ""
  }

  /** A leg's identity: the keys that name it, each with its value. */
  function LegKey(leg: MatrixExpansion.Leg, keys: seq<string>, render: MatrixExpansion.Value -> string): string {
    if keys == [] then ""
    else
      var part := keys[0] + "=" + Shown(leg, keys[0], render);
      if |keys| == 1 then part else part + "," + LegKey(leg, keys[1..], render)
  }

  lemma LongerDiffers(x: string, p: string, y: string, q: string)
    requires |x| < |y| && ',' !in y && (p == [] || p[0] == ',')
    ensures x + p != y + q
  {
    if p != [] {
      assert (x + p)[|x|] == ',' && (y + q)[|x|] == y[|x|] && y[|x|] in y;
    }
  }

  /** A job without a strategy has one leg that fails fast and no cap; so does a strategy that
      says nothing of failing fast. */
  lemma StrategiesDefault(ir: JobIR)
    ensures ir.strategy.None? ==> FailFastOf(ir) && CapOf(ir) == Some(0) && MatrixOf(ir).None?
    ensures ir.strategy.Some? && ir.strategy.value.failFast.None? ==> FailFastOf(ir)
    ensures ir.strategy.Some? && ir.strategy.value.failFast.Some? ==> FailFastOf(ir) == ir.strategy.value.failFast.value
    ensures ir.strategy.Some? ==> CapOf(ir) == ir.strategy.value.maxParallel && MatrixOf(ir) == ir.strategy.value.matrix
  {
  }

  lemma Unjoined(x: string, p: string, y: string, q: string)
    requires ',' !in x && ',' !in y && (p == [] || p[0] == ',') && (q == [] || q[0] == ',')
    ensures x + p == y + q <==> x == y && p == q
  {
    if |x| < |y| {
      LongerDiffers(x, p, y, q);
    } else if |y| < |x| {
      LongerDiffers(y, q, x, p);
    } else {
      assert (x + p)[..|x|] == x && (y + q)[..|y|] == y && (x + p)[|x|..] == p && (y + q)[|y|..] == q;
    }
  }

  /** What a leg's identity goes on with after its first value. */
  function Tail(leg: MatrixExpansion.Leg, rest: seq<string>, render: MatrixExpansion.Value -> string): string {
    if rest == [] then "" else "," + LegKey(leg, rest, render)
  }

  lemma IdentityStarts(leg: MatrixExpansion.Leg, keys: seq<string>, render: MatrixExpansion.Value -> string)
    requires keys != []
    ensures LegKey(leg, keys, render) == keys[0] + "=" + (Shown(leg, keys[0], render) + Tail(leg, keys[1..], render))
  {
  }

  lemma SameTails(a: MatrixExpansion.Leg, b: MatrixExpansion.Leg, rest: seq<string>, render: MatrixExpansion.Value -> string)
    ensures Tail(a, rest, render) == Tail(b, rest, render) <==> LegKey(a, rest, render) == LegKey(b, rest, render)
  {
    hide LegKey;
    if rest == [] {
      NoName(a, render);
      NoName(b, render);
    } else {
      assert Tail(a, rest, render)[1..] == LegKey(a, rest, render) && Tail(b, rest, render)[1..] == LegKey(b, rest, render);
    }
  }

  lemma NoName(leg: MatrixExpansion.Leg, render: MatrixExpansion.Value -> string)
    ensures LegKey(leg, [], render) == ""
  {
  }

  predicate LooksTheSame(a: MatrixExpansion.Leg, b: MatrixExpansion.Leg, keys: seq<string>,
                         render: MatrixExpansion.Value -> string) {
    forall k :: k in keys ==> Shown(a, k, render) == Shown(b, k, render)
  }

  /** Legs named by the same keys, none of whose values shows a comma, share an identity
      exactly when every value looks the same. */
  lemma {:induction false} LegsShareAnIdentityExactlyWhen(a: MatrixExpansion.Leg, b: MatrixExpansion.Leg, keys: seq<string>,
                                                          render: MatrixExpansion.Value -> string)
    requires forall k :: k in keys ==> ',' !in Shown(a, k, render) && ',' !in Shown(b, k, render)
    ensures LegKey(a, keys, render) == LegKey(b, keys, render) <==> LooksTheSame(a, b, keys, render)
    decreases |keys|
  {
    hide LegKey, Shown, Tail;
    if keys == [] {
      NoName(a, render);
      NoName(b, render);
    } else {
      var x, y, rest := Shown(a, keys[0], render), Shown(b, keys[0], render), keys[1..];
      assert keys == [keys[0]] + rest;
      LegsShareAnIdentityExactlyWhen(a, b, rest, render);
      SameTails(a, b, rest, render);
      IdentityStarts(a, keys, render);
      IdentityStarts(b, keys, render);
      var p, q := Tail(a, rest, render), Tail(b, rest, render);
      TailsStartWithAComma(a, rest, render);
      TailsStartWithAComma(b, rest, render);
      Unjoined(x, p, y, q);
      var name := keys[0] + "=";
      assert (name + (x + p))[|name|..] == x + p && (name + (y + q))[|name|..] == y + q;
    }
  }

  lemma TailsStartWithAComma(leg: MatrixExpansion.Leg, rest: seq<string>, render: MatrixExpansion.Value -> string)
    ensures Tail(leg, rest, render) == [] || Tail(leg, rest, render)[0] == ','
  {
  }

  /** A number and a text that look alike name one leg, and so do values with commas in them
      that meet the next key half-way. */
  lemma DifferentLegsCanShareAnIdentity(render: MatrixExpansion.Value -> string)
    requires (forall s :: render(MatrixExpansion.Text(s)) == s) && render(MatrixExpansion.Int(1)) == "1"
    ensures var number := MatrixExpansion.Leg(map["a" := MatrixExpansion.Int(1)], ["a"], ["a"]);
      var text := MatrixExpansion.Leg(map["a" := MatrixExpansion.Text("1")], ["a"], ["a"]);
      LegKey(number, ["a"], render) == LegKey(text, ["a"], render)
    ensures var early := MatrixExpansion.Leg(map["a" := MatrixExpansion.Text("1,b=2"), "b" := MatrixExpansion.Text("3")], ["a", "b"], ["a", "b"]);
      var late := MatrixExpansion.Leg(map["a" := MatrixExpansion.Text("1"), "b" := MatrixExpansion.Text("2,b=3")], ["a", "b"], ["a", "b"]);
      LegKey(early, ["a", "b"], render) == LegKey(late, ["a", "b"], render)
  {
    assert ["a", "b"][1..] == ["b"];
    assert "a=" + "1,b=2" + "," + ("b=" + "3") == "a=" + "1" + "," + ("b=" + "2,b=3");
  }

  /** The planned job is a leg of this job. */
  predicate LegOf(ir: JobIR, pj: PlannedJob) {
    && pj.key == ir.key && pj.needs == ir.needs && pj.cond == ir.cond && pj.namesStatus == ir.namesStatus
    && pj.retry == PolicyOf(ir) && pj.failFast == FailFastOf(ir) && Some(pj.maxParallel) == CapOf(ir)
  }

  /** The jobs' policy is honest and their cap is a count. */
  predicate Acceptable(ir: JobIR) {
    && CapOf(ir).Some? && CapOf(ir).value >= 0
    && (ir.retry.Some? ==> Honest(ir.retry.value))
  }

  /** The leg's own expressions come out usable. */
  predicate Settles(ir: JobIR, env: Env, leg: Option<MatrixExpansion.Leg>) {
    match env.settings(ir, leg)
    case None => false
    case Some(s) => (ir.hasConcurrency ==> s.group != "") && s.timeoutMinutes >= 0
  }

  /** The planned job has what the leg's own expressions came to. */
  predicate SetAs(ir: JobIR, env: Env, leg: Option<MatrixExpansion.Leg>, pj: PlannedJob) {
    match env.settings(ir, leg)
    case None => false
    case Some(s) =>
      && pj.labels == s.labels && pj.continueOnError == s.continueOnError && pj.timeoutMinutes == s.timeoutMinutes
      && (if ir.hasConcurrency then pj.group == s.group != "" && pj.cancelInProgress == s.cancelInProgress
          else pj.group == "" && !pj.cancelInProgress)
  }

  /** One planned job a leg, in the order of the expansion. */
  ghost predicate MatchLegs(ir: JobIR, env: Env, legs: seq<MatrixExpansion.Leg>, jobs: seq<PlannedJob>) {
    && |legs| == |jobs|
    && forall i :: 0 <= i < |jobs| ==>
      && jobs[i].matrixKey == LegKey(legs[i], legs[i].nameKeys, env.render)
      && SetAs(ir, env, Some(legs[i]), jobs[i])
  }

  ghost predicate LegsMatch(ir: JobIR, env: Env, jobs: seq<PlannedJob>) {
    match MatrixOf(ir)
    case None => |jobs| == 1 && jobs[0].matrixKey == "" && SetAs(ir, env, None, jobs[0])
    case Some(m) =>
      && MatrixExpansion.Expandable(m, env.value, env.literal)
      && exists legs :: MatrixExpansion.IsExpansion(m, env.value, env.literal, legs) && MatchLegs(ir, env, legs, jobs)
  }

  /** Some leg comes out of the matrix, and every one can be set up. */
  ghost predicate LegsSettle(ir: JobIR, env: Env, m: MatrixExpansion.Matrix, legs: seq<MatrixExpansion.Leg>)
    requires MatrixExpansion.Evaluated(MatrixExpansion.Dims(m), MatrixExpansion.Values(m, env.value, env.literal))
  {
    && MatrixExpansion.IsExpansion(m, env.value, env.literal, legs) && legs != []
    && forall l :: l in legs ==> Settles(ir, env, Some(l))
  }

  ghost predicate Buildable(ir: JobIR, env: Env) {
    && CapOf(ir).Some? && CapOf(ir).value >= 0 && Honest(PolicyOf(ir))
    && match MatrixOf(ir)
       case None => Settles(ir, env, None)
       case Some(m) =>
         MatrixExpansion.Expandable(m, env.value, env.literal) && exists legs :: LegsSettle(ir, env, m, legs)
  }

  method BuildJob(ir: JobIR, env: Env) returns (out: Option<seq<PlannedJob>>)
    ensures out.Some? <==> Buildable(ir, env)
    ensures out.Some? ==> Acceptable(ir) && out.value != [] && LegsMatch(ir, env, out.value)
    ensures out.Some? ==> forall j :: j in out.value ==> LegOf(ir, j) && j.key == ir.key
  {
    hide MatrixExpansion.IsExpansion, MatrixExpansion.Expandable, MatrixExpansion.Evaluated, MatrixExpansion.Values;
    var failFast, maxParallel := true, 0;
    var legs: seq<MatrixExpansion.Leg> := [];
    if ir.strategy.Some? {
      if ir.strategy.value.failFast.Some? {
        failFast := ir.strategy.value.failFast.value;
      }
      if ir.strategy.value.maxParallel.None? {
        return None;
      }
      maxParallel := ir.strategy.value.maxParallel.value;
      if maxParallel < 0 {
        return None;
      }
      if ir.strategy.value.matrix.Some? {
        var m := ir.strategy.value.matrix.value;
        var r := MatrixExpansion.ExpandMatrix(m, env.value, env.literal);
        if r.Failed? {
          return None;
        }
        OnlyExpansion(ir, env, m, r.legs);
        if |r.legs| == 0 {
          return None;
        }
        legs := r.legs;
      }
    }
    var retry := CheckedPolicy(ir);
    if retry.None? {
      return None;
    }
    out := PlanLegs(ir, env, legs, retry.value, failFast, maxParallel);
  }

  /** What one expansion settles, every expansion settles: there is only one. */
  lemma OnlyExpansion(ir: JobIR, env: Env, m: MatrixExpansion.Matrix, legs: seq<MatrixExpansion.Leg>)
    requires MatrixExpansion.Expandable(m, env.value, env.literal)
    requires MatrixExpansion.IsExpansion(m, env.value, env.literal, legs)
    ensures (exists all :: LegsSettle(ir, env, m, all)) <==> LegsSettle(ir, env, m, legs)
  {
    hide MatrixExpansion.IsExpansion;
    if all :| LegsSettle(ir, env, m, all) {
      MatrixLaws.ExpansionIsDetermined(m, env.value, env.literal, legs, all);
    }
  }

  method CheckedPolicy(ir: JobIR) returns (retry: Option<RetryPolicy>)
    ensures retry.Some? <==> Honest(PolicyOf(ir))
    ensures retry.Some? <==> ir.retry.None? || (ir.retry.value.attempts >= 1 && forall c :: c in ir.retry.value.on ==> c == ClassInfra)
    ensures retry.Some? ==> retry.value == PolicyOf(ir)
  {
    if ir.retry.None? {
      return Some(DEFAULT_RETRY);
    }
    var p := ir.retry.value;
    if p.attempts < 1 {
      return None;
    }
    for i := 0 to |p.on|
      invariant forall k :: 0 <= k < i ==> p.on[k] == ClassInfra
    {
      if p.on[i] != ClassInfra {
        assert p.on[i] in p.on;
        return None;
      }
    }
    retry := Some(p);
  }

  method PlanLegs(ir: JobIR, env: Env, legs: seq<MatrixExpansion.Leg>, retry: RetryPolicy, failFast: bool, maxParallel: int)
    returns (out: Option<seq<PlannedJob>>)
    requires retry == PolicyOf(ir) && failFast == FailFastOf(ir) && CapOf(ir) == Some(maxParallel)
    ensures out.Some? <==> if legs == [] then Settles(ir, env, None) else forall l :: l in legs ==> Settles(ir, env, Some(l))
    ensures out.Some? ==> |out.value| == (if legs == [] then 1 else |legs|)
    ensures out.Some? ==> forall j :: j in out.value ==> LegOf(ir, j) && j.key == ir.key
    ensures out.Some? ==> forall i :: 0 <= i < |out.value| ==>
      && out.value[i].matrixKey == LegName(legs, i, env)
      && SetAs(ir, env, LegAt(legs, i), out.value[i])
  {
    hide LegKey;
    var total := if |legs| == 0 then 1 else |legs|;
    var jobs: seq<PlannedJob> := [];
    for i := 0 to total
      invariant |jobs| == i && forall j :: j in jobs ==> LegOf(ir, j) && j.key == ir.key
      invariant forall k :: 0 <= k < i ==>
        && jobs[k].matrixKey == LegName(legs, k, env)
        && SetAs(ir, env, LegAt(legs, k), jobs[k])
        && Settles(ir, env, LegAt(legs, k))
    {
      var leg := LegAt(legs, i);
      assert legs != [] ==> legs[i] in legs;
      var s := env.settings(ir, leg);
      if s.None? {
        return None;
      }
      if (ir.hasConcurrency && s.value.group == "") || s.value.timeoutMinutes < 0 {
        return None;
      }
      jobs := jobs + [PlannedJob(ir.key, LegName(legs, i, env), ir.needs, s.value.labels, ir.cond, ir.namesStatus, retry,
                                 if ir.hasConcurrency then s.value.group else "",
                                 ir.hasConcurrency && s.value.cancelInProgress, failFast, maxParallel,
                                 s.value.continueOnError, s.value.timeoutMinutes)];
    }
    assert forall k :: 0 <= k < |legs| ==> LegAt(legs, k) == Some(legs[k]);
    assert legs == [] ==> LegAt(legs, 0) == None;
    out := Some(jobs);
  }

  function LegAt(legs: seq<MatrixExpansion.Leg>, i: nat): Option<MatrixExpansion.Leg>
    requires legs == [] || i < |legs|
  {
    if legs == [] then None else Some(legs[i])
  }

  /** The i-th leg's identity, empty for a job without a matrix. */
  function LegName(legs: seq<MatrixExpansion.Leg>, i: nat, env: Env): string
    requires legs == [] || i < |legs|
  {
    if legs == [] then "" else LegKey(legs[i], legs[i].nameKeys, env.render)
  }

  // ----------------------------------------------------------------- The plan

  function GraphOf(order: seq<string>, irs: map<string, JobIR>): NeedsGraph.Workflow {
    NeedsGraph.Workflow(order, map k | k in irs :: irs[k].needs)
  }

  /** Whatever a job needs is listed before it. */
  predicate InNeedsOrder(jobs: seq<PlannedJob>) {
    forall k, m :: 0 <= k < |jobs| && 0 <= m < |jobs| && jobs[m].key in jobs[k].needs ==> m < k
  }

  predicate FromIRs(jobs: seq<PlannedJob>, irs: map<string, JobIR>) {
    forall j :: j in jobs ==> j.key in irs && Acceptable(irs[j.key]) && LegOf(irs[j.key], j)
  }

  predicate HasLeg(jobs: seq<PlannedJob>, k: string) {
    exists j :: j in jobs && j.key == k
  }

  lemma MoreLegs(irs: map<string, JobIR>, keys: seq<string>, i: nat, jobs: seq<PlannedJob>, legs: seq<PlannedJob>)
    requires i < |keys| && keys[i] in irs && irs[keys[i]].key == keys[i] && Acceptable(irs[keys[i]]) && legs != []
    requires FromIRs(jobs, irs) && (forall j :: j in jobs ==> j.key in keys[..i])
    requires forall j :: j in legs ==> LegOf(irs[keys[i]], j) && j.key == keys[i]
    requires forall k :: k in keys[..i] ==> HasLeg(jobs, k)
    ensures FromIRs(jobs + legs, irs) && (forall j :: j in jobs + legs ==> j.key in keys[..i + 1])
    ensures forall k :: k in keys[..i + 1] ==> HasLeg(jobs + legs, k)
  {
    hide Acceptable, LegOf;
    assert keys[..i + 1] == keys[..i] + [keys[i]];
    forall k | k in keys[..i + 1] ensures HasLeg(jobs + legs, k) {
      if k in keys[..i] {
        assert HasLeg(jobs, k);
        var j :| j in jobs && j.key == k;
        assert j in jobs + legs;
      } else {
        assert legs[0] in legs && legs[0] in jobs + legs;
      }
    }
  }

  method BuildPlan(order: seq<string>, irs: map<string, JobIR>, runGroup: Option<string>, runCancels: bool, env: Env)
    returns (plan: Option<Plan>, ghost keys: seq<string>, ghost parts: seq<seq<PlannedJob>>)
    requires forall k :: k in irs ==> irs[k].key == k
    ensures plan.Some? <==>
      && NeedsGraph.Listed(GraphOf(order, irs)) && NeedsGraph.Defined(GraphOf(order, irs)) && NeedsGraph.Acyclic(GraphOf(order, irs))
      && runGroup != Some("") && forall k :: k in irs ==> Buildable(irs[k], env)
    ensures plan.Some? ==>
      && plan.value.runGroup == (if runGroup.Some? then runGroup.value else "")
      && (plan.value.runCancelInProgress <==> runGroup.Some? && runCancels)
    ensures plan.Some? ==> InNeedsOrder(plan.value.jobs) && FromIRs(plan.value.jobs, irs)
    ensures plan.Some? ==> forall k :: k in irs ==> HasLeg(plan.value.jobs, k)
    ensures plan.Some? ==>
      && NeedsGraph.ValidOrder(GraphOf(order, irs), keys) && NeedsGraph.Greedy(GraphOf(order, irs), keys)
      && LegsInOrder(irs, env, keys, parts) && plan.value.jobs == Joined(parts)
  {
    hide NeedsGraph.Listed, NeedsGraph.Defined, NeedsGraph.Acyclic, NeedsGraph.Greedy, Acceptable, LegOf, LegsMatch, Buildable, LegsInOrder,
      Joined;
    NoParts(irs, env);
    var wf := GraphOf(order, irs);
    var sorted := TopoSorting.TopoSort(wf);
    keys, parts := [], [];
    if !sorted.Sorted? {
      return None, keys, parts;
    }
    if runGroup == Some("") {
      return None, keys, parts;
    }
    var ordered := sorted.keys;
    keys := ordered;
    var jobs: seq<PlannedJob> := [];
    for i := 0 to |ordered|
      invariant |parts| == i && LegsInOrder(irs, env, ordered[..i], parts) && jobs == Joined(parts)
      invariant InNeedsOrder(jobs) && FromIRs(jobs, irs)
      invariant forall j :: j in jobs ==> j.key in keys[..i]
      invariant forall k :: k in keys[..i] ==> HasLeg(jobs, k) && Buildable(irs[k], env)
    {
      var key := ordered[i];
      assert key in keys;
      var legs := BuildJob(irs[key], env);
      if legs.None? {
        return None, keys, parts;
      }
      OneMorePart(irs, env, keys, i, parts, legs.value);
      NextInOrder(wf, irs, keys, i, jobs, legs.value);
      MoreLegs(irs, keys, i, jobs, legs.value);
      jobs := jobs + legs.value;
      parts := parts + [legs.value];
    }
    assert keys[..|keys|] == keys;
    plan := Some(Plan(jobs, if runGroup.Some? then runGroup.value else "", runGroup.Some? && runCancels));
  }

  function Joined(parts: seq<seq<PlannedJob>>): seq<PlannedJob>
    decreases |parts|
  {
    if parts == [] then [] else Joined(parts[..|parts| - 1]) + parts[|parts| - 1]
  }

  /** The legs of each job in turn. */
  ghost predicate LegsInOrder(irs: map<string, JobIR>, env: Env, keys: seq<string>, parts: seq<seq<PlannedJob>>) {
    && |parts| == |keys|
    && forall i :: 0 <= i < |keys| ==>
      && keys[i] in irs && LegsMatch(irs[keys[i]], env, parts[i])
      && forall j :: j in parts[i] ==> LegOf(irs[keys[i]], j)
  }

  lemma NoParts(irs: map<string, JobIR>, env: Env)
    ensures LegsInOrder(irs, env, [], []) && Joined([]) == []
  {
  }

  lemma OneMorePart(irs: map<string, JobIR>, env: Env, keys: seq<string>, i: nat, parts: seq<seq<PlannedJob>>,
                    legs: seq<PlannedJob>)
    requires i < |keys| && LegsInOrder(irs, env, keys[..i], parts)
    requires keys[i] in irs && LegsMatch(irs[keys[i]], env, legs) && forall j :: j in legs ==> LegOf(irs[keys[i]], j)
    ensures LegsInOrder(irs, env, keys[..i + 1], parts + [legs]) && Joined(parts + [legs]) == Joined(parts) + legs
  {
    hide LegsMatch, LegOf;
    assert (parts + [legs])[..i] == parts;
    assert forall k :: 0 <= k < i ==> keys[..i + 1][k] == keys[..i][k];
  }

  lemma NextInOrder(wf: NeedsGraph.Workflow, irs: map<string, JobIR>, keys: seq<string>, i: nat, jobs: seq<PlannedJob>,
                    legs: seq<PlannedJob>)
    requires NeedsGraph.ValidOrder(wf, keys) && i < |keys| && wf == GraphOf(wf.order, irs)
    requires InNeedsOrder(jobs) && FromIRs(jobs, irs) && (forall j :: j in jobs ==> j.key in keys[..i])
    requires keys[i] in irs && irs[keys[i]].key == keys[i] && forall j :: j in legs ==> LegOf(irs[keys[i]], j)
    ensures InNeedsOrder(jobs + legs)
  {
    var all := jobs + legs;
    forall k, m | 0 <= k < |all| && 0 <= m < |all| && all[m].key in all[k].needs ensures m < k {
      assert k < |jobs| ==> all[k] in jobs;
      assert m < |jobs| ==> all[m] in jobs;
      assert m >= |jobs| ==> all[m] in legs;
      assert k >= |jobs| ==> all[k] in legs;
      if m >= |jobs| {
        var p := if k < |jobs| then KeyPlace(keys, i, all[k].key) else i;
        LaterKeyIsNotNeeded(wf, keys, p, i);
      }
    }
  }

  lemma LaterKeyIsNotNeeded(wf: NeedsGraph.Workflow, keys: seq<string>, p: nat, i: nat)
    requires NeedsGraph.ValidOrder(wf, keys) && p <= i < |keys|
    ensures keys[p] in wf.needs && keys[i] !in wf.needs[keys[p]]
  {
    assert keys[p] in keys && keys[i] in keys && keys[i] !in keys[..p];
    assert !NeedsGraph.Edge(wf, keys[p], keys[i]);
  }

  function KeyPlace(keys: seq<string>, i: nat, k: string): (p: nat)
    requires i <= |keys| && k in keys[..i]
    ensures p < i && keys[p] == k
  {
    NeedsGraph.Position(keys[..i], k)
  }

  /** A plan with a job in it is one the scheduler's guarantees are stated for. */
  lemma BuiltPlansAreWellFormed(p: Plan, irs: map<string, JobIR>)
    requires p.jobs != [] && FromIRs(p.jobs, irs)
    ensures WellFormedPlan(p)
  {
  }

  // ------------------------------------------------- The plan and its rows

  function RowsFor(id: int, run: Run, planned: seq<PlannedJob>, held: bool): seq<Job>
    decreases |planned|
  {
    if planned == [] then [] else [NewJob(id, run, planned[0], held)] + RowsFor(id + 1, run, planned[1..], held)
  }

  lemma {:induction false} RowsFollowThePlan(id: int, run: Run, planned: seq<PlannedJob>, held: bool)
    ensures var rows := RowsFor(id, run, planned, held);
      |rows| == |planned| && forall k :: 0 <= k < |planned| ==> rows[k].key == planned[k].key && rows[k].needs == planned[k].needs
    decreases |planned|
  {
    if planned != [] {
      RowsFollowThePlan(id + 1, run, planned[1..], held);
    }
  }

  /** Starting a run lists its rows in the order of the plan. */
  lemma {:induction false} CreatedRows(w: World, run: Run, planned: seq<PlannedJob>, held: bool)
    requires w.nextJob > 0 && forall id :: id in w.jobs ==> id < w.nextJob
    ensures var c := CreateJobs(w, run, planned, held);
      JobsOf(c, run.id) == JobsOf(w, run.id) + RowsFor(w.nextJob, run, planned, held)
    decreases |planned|
  {
    hide NewJob, JobsOf;
    if planned == [] {
      assert JobsOf(w, run.id) + [] == JobsOf(w, run.id);
    } else {
      var j := NewJob(w.nextJob, run, planned[0], held);
      var next := w.(jobs := w.jobs[j.id := j], nextJob := w.nextJob + 1);
      NewJobIs(w.nextJob, run, planned[0], held);
      CreatedRows(next, run, planned[1..], held);
      OneMoreListed(w, j, run.id);
      var rest := RowsFor(w.nextJob + 1, run, planned[1..], held);
      assert JobsOf(w, run.id) + ([j] + rest) == (JobsOf(w, run.id) + [j]) + rest;
    }
  }

  lemma NewJobIs(id: int, run: Run, pj: PlannedJob, held: bool)
    ensures NewJob(id, run, pj, held).id == id && NewJob(id, run, pj, held).runID == run.id
  {
  }

  lemma OneMoreListed(w: World, j: Job, r: int)
    requires w.nextJob > 0 && j.id == w.nextJob && j.runID == r && forall id :: id in w.jobs ==> id < w.nextJob
    ensures JobsOf(w.(jobs := w.jobs[j.id := j], nextJob := w.nextJob + 1), r) == JobsOf(w, r) + [j]
  {
    SameBelow(w.jobs, w.jobs[j.id := j], w.nextJob, r);
  }

  lemma {:induction false} SameBelow(a: map<int, Job>, b: map<int, Job>, n: int, r: int)
    requires forall id :: id < n ==> (id in a <==> id in b) && (id in a ==> a[id] == b[id])
    ensures JobsBelow(a, n, r) == JobsBelow(b, n, r)
    decreases n
  {
    if n > 0 {
      SameBelow(a, b, n - 1, r);
    }
  }

  lemma {:induction false} NoneListed(jobs: map<int, Job>, n: int, r: int)
    requires forall id :: id in jobs ==> jobs[id].runID != r
    ensures JobsBelow(jobs, n, r) == []
    decreases n
  {
    if n > 0 {
      NoneListed(jobs, n - 1, r);
    }
  }

  lemma RowsExtend(w: World)
    requires Inv(w)
    ensures w.nextJob > 0 && forall id :: id in w.jobs ==> id < w.nextJob
  {
    hide NoJobLost, GroupsExclusive, SlotsRespected, NoEarlyStart, VerdictsHonest, RetriesBounded, History, PlansFit;
  }

  /** A run started from a built plan lists its jobs in needs order, so that one admission
      pass is enough for a job all of whose needs are done in it. */
  lemma StartedRunsAreListedInOrder(opts: Options, w: World, r: int, p: Plan)
    requires Inv(w) && r in w.runs && r !in w.origin && InNeedsOrder(p.jobs) && StartRun(opts, w, w.runs[r], p).ok
    ensures ListedInOrder(JobsOf(StartRun(opts, w, w.runs[r], p).w, r))
  {
    hide Inv, SupersedeOlderRuns, CreateJobs, JobsBelow, NewJob;
    var run := w.runs[r];
    RunFacts(w, r);
    var s := SupersedeOlderRuns(w, run, p, run.createdAt);
    SupersedeOlderKeepsInv(w, run, p, run.createdAt);
    NoJobsYet(s.w, r);
    NoneListed(s.w.jobs, s.w.nextJob, r);
    RowsExtend(s.w);
    var held := run.forkPR && opts.requireForkApproval && !run.approved;
    CreatedRows(s.w, run, p.jobs, held);
    var rows := RowsFor(s.w.nextJob, run, p.jobs, held);
    assert JobsOf(StartRun(opts, w, run, p).w, r) == rows;
    RowsFollowThePlan(s.w.nextJob, run, p.jobs, held);
  }
}
