/**
 * findDependencyCycle (workflow.ts 95-121): the depth-first search with its
 * visiting and done marks, proved to find a cycle exactly when there is one.
 */
module WorkflowCycles {
  import opened Common
  import opened Workflow

  datatype Mark = Visiting | Done

  // stack.indexOf(id)
  function IndexOf(stack: seq<NodeId>, id: NodeId): (i: nat)
    requires id in stack
    ensures i < |stack| && stack[i] == id
  {
    if stack[0] == id then 0 else 1 + IndexOf(stack[1..], id)
  }

  lemma CloseTheWalk(steps: seq<Step>, stack: seq<NodeId>, id: NodeId)
    requires Walk(steps, stack + [id]) && id in stack
    requires forall x | x in stack :: x in Ids(steps)
    ensures ClosedWalk(steps, stack[IndexOf(stack, id)..] + [id])
  {
    var k := IndexOf(stack, id);
    var c := stack[k..] + [id];
    assert c == (stack + [id])[k..];
    forall i | 0 <= i < |c| - 1 ensures DependsOn(steps, c[i], c[i + 1]) {
      assert DependsOn(steps, (stack + [id])[k + i], (stack + [id])[k + i + 1]);
    }
  }

  class CycleSearch {
    const steps: seq<Step>
    const byId: map<NodeId, Step>
    var state: map<NodeId, Mark>
    // The nodes marked done, in the order in which they were.
    ghost var finished: seq<NodeId>

    constructor (steps: seq<Step>)
      ensures this.steps == steps && byId == ById(steps)
      ensures Valid([]) && finished == []
    {
      this.steps, byId := steps, ById(steps);
      state := map[];
      finished := [];
    }

    // The marks while the nodes of `stack` are being visited.
    ghost predicate Valid(stack: seq<NodeId>)
      reads this
    {
      && state.Keys <= Ids(steps)
      && NoDuplicates(stack)
      && (forall id :: id in state && state[id].Visiting? <==> id in stack)
      && (forall id :: id in state && state[id].Done? <==> id in finished)
      && Ordered(steps, finished)
    }

    method Visit(id: NodeId, stack: seq<NodeId>) returns (cycle: Option<seq<NodeId>>)
      requires byId == ById(steps) && id in Ids(steps)
      requires Valid(stack) && Walk(steps, stack + [id])
      modifies this
      ensures cycle.Some? ==> ClosedWalk(steps, cycle.value)
      ensures cycle.None? ==> Valid(stack) && id in finished
      ensures old(state).Keys <= state.Keys
      ensures forall x | x in old(finished) :: x in finished
      decreases Ids(steps) - state.Keys
    {
      if id in state && state[id].Done? {
        return None;
      }
      if id in state && state[id].Visiting? {
        CloseTheWalk(steps, stack, id);
        return Some(stack[IndexOf(stack, id)..] + [id]);
      }
      state := state[id := Visiting];
      var path := stack + [id];
      assert Valid(path);
      var dependencies := byId[id].Dependencies();
      var i := 0;
      while i < |dependencies|
        invariant 0 <= i <= |dependencies|
        invariant Valid(path)
        invariant old(state).Keys + {id} <= state.Keys
        invariant forall x | x in old(finished) :: x in finished
        invariant forall j | 0 <= j < i && dependencies[j].Node() in Ids(steps) :: dependencies[j].Node() in finished
      {
        var next := dependencies[i].Node();
        if next in byId {
          StepTo(id, stack, dependencies[i]);
          cycle := Visit(next, path);
          if cycle.Some? {
            return;
          }
        }
        i := i + 1;
      }
      Finish(id, stack);
      return None;
    }

    // state.set(id, 'done') once all known dependencies are done.
    method Finish(id: NodeId, stack: seq<NodeId>)
      requires byId == ById(steps) && id in Ids(steps)
      requires Valid(stack + [id])
      requires forall e | e in byId[id].Dependencies() && e.Node() in Ids(steps) :: e.Node() in finished
      modifies this
      ensures Valid(stack)
      ensures finished == old(finished) + [id] && state.Keys == old(state).Keys
    {
      assert (stack + [id])[|stack|] == id;
      forall i | 0 <= i < |stack| ensures stack[i] != id {
        assert (stack + [id])[i] != (stack + [id])[|stack|];
      }
      assert forall x | x in stack :: x in stack + [id];
      assert NoDuplicates(stack) by {
        forall i, j | 0 <= i < j < |stack| ensures stack[i] != stack[j] {
          assert (stack + [id])[i] != (stack + [id])[j];
        }
      }
      assert id in state && state[id].Visiting?;
      FinishedStaysOrdered(id);
      finished := finished + [id];
      state := state[id := Done];
    }

    lemma FinishedStaysOrdered(id: NodeId)
      requires byId == ById(steps) && id in Ids(steps)
      requires Ordered(steps, finished) && id !in finished
      requires forall e | e in byId[id].Dependencies() && e.Node() in Ids(steps) :: e.Node() in finished
      ensures Ordered(steps, finished + [id])
    {
      var order := finished + [id];
      forall i, b | 0 <= i < |order| && DependsOn(steps, order[i], b) && b in Ids(steps) ensures b in order[..i] {
        if i < |finished| {
          assert order[..i] == finished[..i];
        } else {
          assert order[..i] == finished;
        }
      }
    }

    lemma StepTo(id: NodeId, stack: seq<NodeId>, e: Dependency)
      requires byId == ById(steps) && id in byId
      requires Walk(steps, stack + [id]) && e in byId[id].Dependencies()
      ensures Walk(steps, stack + [id] + [e.Node()])
    {
      var p := stack + [id];
      assert DependsOn(steps, id, e.Node());
      forall i | 0 <= i < |p + [e.Node()]| - 1 ensures DependsOn(steps, (p + [e.Node()])[i], (p + [e.Node()])[i + 1]) {
        if i < |p| - 1 { assert DependsOn(steps, p[i], p[i + 1]); }
      }
    }
  }

  // The loop over all steps.
  method Search(steps: seq<Step>) returns (cycle: Option<seq<NodeId>>, ghost order: seq<NodeId>)
    ensures cycle.Some? ==> ClosedWalk(steps, cycle.value)
    ensures cycle.None? ==> TopologicalOrder(steps, order)
  {
    hide *;
    var search := new CycleSearch(steps);
    var i := 0;
    while i < |steps|
      invariant 0 <= i <= |steps|
      invariant search.steps == steps && search.byId == ById(steps) && fresh(search)
      invariant search.Valid([])
      invariant forall j | 0 <= j < i :: steps[j].id in search.finished
    {
      FirstOfWalk(steps, i);
      cycle := search.Visit(steps[i].id, []);
      order := search.finished;
      if cycle.Some? {
        return;
      }
      i := i + 1;
    }
    order := search.finished;
    AllFinished(search);
    return None, order;
  }

  lemma FirstOfWalk(steps: seq<Step>, i: nat)
    requires i < |steps|
    ensures steps[i].id in Ids(steps) && Walk(steps, [] + [steps[i].id])
  {
  }

  lemma AllFinished(search: CycleSearch)
    requires search.Valid([])
    requires forall j | 0 <= j < |search.steps| :: search.steps[j].id in search.finished
    ensures TopologicalOrder(search.steps, search.finished)
  {
    hide Ordered;
  }

  /**
   * No cycle is reported exactly when the nodes can be put in dependency order,
   * and otherwise the reported nodes are a closed walk.
   */
  method FindDependencyCycle(steps: seq<Step>) returns (cycle: Option<seq<NodeId>>)
    ensures cycle.Some? ==> ClosedWalk(steps, cycle.value)
    ensures cycle.None? <==> Acyclic(steps)
    ensures cycle.None? <==> forall p :: !ClosedWalk(steps, p)
  {
    ghost var order;
    cycle, order := Search(steps);
    forall o, p | TopologicalOrder(steps, o) ensures !ClosedWalk(steps, p) {
      OrderedHasNoCycle(steps, o, p);
    }
  }
}
