/** The depth-first search that reports one needs cycle of a workflow. */
module CycleSearch {
  import opened NeedsGraph

  datatype Mark = OnStack | Done

  class CycleFinder {
    const wf: Workflow
    var state: map<string, Mark>
    var stack: seq<string>
    /** The jobs done, in the order they were done. */
    ghost var finished: seq<string>

    ghost predicate Valid()
      reads this
    {
      && state.Keys <= wf.needs.Keys
      && NoDup(stack) && IsWalk(wf, stack)
      && (forall k :: k in stack <==> k in state && state[k] == OnStack)
      && NoDup(finished) && RespectsNeeds(wf, finished)
      && (forall k :: k in finished <==> k in state && state[k] == Done)
    }

    constructor (workflow: Workflow)
      ensures Valid() && wf == workflow && stack == [] && finished == []
    {
      wf, state, stack, finished := workflow, map[], [], [];
    }

    method Walk(key: string) returns (c: seq<string>)
      requires Valid() && key in wf.needs && key !in state
      requires stack != [] ==> Edge(wf, stack[|stack| - 1], key)
      modifies this
      ensures c != [] ==> IsCycle(wf, c) && NoDup(c[1..])
      ensures c == [] ==> Valid() && stack == old(stack) && key in finished
      ensures c == [] ==> old(state).Keys <= state.Keys && forall k :: k in old(finished) ==> k in finished
      decreases wf.needs.Keys - state.Keys
    {
      hide NoDup, IsWalk, RespectsNeeds, IsCycle;
      Enter(key);
      var needs := wf.needs[key];
      for i := 0 to |needs|
        invariant Valid() && stack == old(stack) + [key]
        invariant old(state).Keys + {key} <= state.Keys
        invariant forall k :: k in old(finished) ==> k in finished
        invariant forall j :: 0 <= j < i && needs[j] in wf.needs ==> needs[j] in finished
      {
        var need := needs[i];
        if need !in wf.needs {
          continue;
        }
        assert Edge(wf, key, need);
        if need in state && state[need] == OnStack {
          var at := Position(stack, need);
          CycleOnStack(wf, stack, need, at);
          return stack[at..] + [need];
        }
        if need !in state {
          c := Walk(need);
          if c != [] {
            return;
          }
        }
      }
      Leave(key);
      assert stack == old(stack);
      c := [];
    }

    method Enter(key: string)
      requires Valid() && key in wf.needs && key !in state
      requires stack != [] ==> Edge(wf, stack[|stack| - 1], key)
      modifies this`state, this`stack
      ensures Valid() && stack == old(stack) + [key] && state == old(state)[key := OnStack]
    {
      state := state[key := OnStack];
      stack := stack + [key];
    }

    method Leave(key: string)
      requires Valid() && stack != [] && stack[|stack| - 1] == key
      requires forall j :: 0 <= j < |wf.needs[key]| && wf.needs[key][j] in wf.needs ==> wf.needs[key][j] in finished
      modifies this
      ensures Valid() && stack == old(stack)[..|old(stack)| - 1]
      ensures state == old(state)[key := Done] && finished == old(finished) + [key]
    {
      hide RespectsNeeds;
      NeedsAreFinished(wf, finished, key);
      stack := stack[..|stack| - 1];
      state := state[key := Done];
      finished := finished + [key];
    }

    /** Closed and free of other repeats when there is a cycle, empty when there is none. */
    method FindCycle() returns (c: seq<string>)
      requires Valid() && stack == [] && finished == [] && Listed(wf)
      modifies this
      ensures c != [] ==> IsCycle(wf, c) && NoDup(c[1..])
      ensures c == [] <==> Acyclic(wf)
    {
      for i := 0 to |wf.order|
        invariant Valid() && stack == []
        invariant forall j :: 0 <= j < i ==> wf.order[j] in finished
      {
        var key := wf.order[i];
        if key !in state {
          c := Walk(key);
          if c != [] {
            return;
          }
        }
      }
      assert ValidOrder(wf, finished);
      AnOrderRulesOutCycles(wf, finished);
      c := [];
    }
  }

  lemma NeedsAreFinished(wf: Workflow, finished: seq<string>, key: string)
    requires RespectsNeeds(wf, finished) && key in wf.needs
    requires forall j :: 0 <= j < |wf.needs[key]| && wf.needs[key][j] in wf.needs ==> wf.needs[key][j] in finished
    ensures RespectsNeeds(wf, finished + [key])
  {
    var o := finished + [key];
    forall i, n | 0 <= i < |o| && Edge(wf, o[i], n) ensures n in o[..i] {
      if i < |finished| {
        assert n in finished[..i];
        assert o[..i] == finished[..i];
      } else {
        assert o[..i] == finished;
      }
    }
  }

  lemma CycleOnStack(wf: Workflow, stack: seq<string>, need: string, at: nat)
    requires IsWalk(wf, stack) && NoDup(stack) && at < |stack| && stack[at] == need
    requires Edge(wf, stack[|stack| - 1], need)
    ensures var c := stack[at..] + [need]; IsCycle(wf, c) && NoDup(c[1..])
  {
    var c := stack[at..] + [need];
    forall i, j | 0 <= i < |c| && 0 <= j < |c| && j == i + 1 ensures Edge(wf, c[i], c[j]) {
    }
  }
}
