/**
 * Workflow definitions (packages/shared/src/workflow.ts): steps, the dependsOn
 * graph they span, and what walks, cycles, orders and sinks of that graph are.
 */
module Workflow {
  import opened Common

  type NodeId = string

  datatype NodeType = Agent | Shell | Checkpoint | Condition | CriteriaGate | ReviewPanel

  datatype RunOn = First | Subsequent | Always

  // The two spellings of a dependsOn entry.
  datatype Dependency = Plain(name: NodeId) | Edge(to: NodeId, on: Option<string>) {
    // One entry of normalizeDependsOn.
    function Node(): NodeId { if Plain? then name else to }
    function On(): Option<string> { if Plain? then None else on }
  }

  datatype Step = Step(id: NodeId, nodeType: NodeType, runOn: RunOn, dependsOn: Option<seq<Dependency>>) {
    function Dependencies(): seq<Dependency> { if dependsOn.None? then [] else dependsOn.value }
  }

  function Outcomes(t: NodeType): set<string> {
    match t
    case Agent => {"success", "failure"}
    case Shell => {"success", "failure"}
    case Checkpoint => {}
    case Condition => {"true", "false"}
    case CriteriaGate => {"pass", "fail"}
    case ReviewPanel => {"approve", "changes_requested"}
  }

  predicate RunsIn(runOn: RunOn, iteration: int) {
    runOn.Always? || (if iteration == 1 then runOn.First? else runOn.Subsequent?)
  }

  function Ids(steps: seq<Step>): set<NodeId> {
    set s | s in steps :: s.id
  }

  // new Map(steps.map(node => [node.id, node])): a later step wins.
  function ById(steps: seq<Step>): (m: map<NodeId, Step>)
    ensures m.Keys == Ids(steps)
    ensures forall id | id in m :: m[id] in steps && m[id].id == id
  {
    if steps == [] then map[]
    else
      var last := |steps| - 1;
      assert steps == steps[..last] + [steps[last]];
      ById(steps[..last])[steps[last].id := steps[last]]
  }

  function Dependencies(steps: seq<Step>, id: NodeId): seq<Dependency> {
    if id in ById(steps) then ById(steps)[id].Dependencies() else []
  }

  // `a` depends directly on `b`.
  predicate DependsOn(steps: seq<Step>, a: NodeId, b: NodeId) {
    exists e :: e in Dependencies(steps, a) && e.Node() == b
  }

  /** Each node of a walk depends on the next one. */
  ghost predicate Walk(steps: seq<Step>, p: seq<NodeId>) {
    forall i | 0 <= i < |p| - 1 :: DependsOn(steps, p[i], p[i + 1])
  }

  ghost predicate ClosedWalk(steps: seq<Step>, p: seq<NodeId>) {
    && |p| >= 2 && p[0] == p[|p| - 1]
    && Walk(steps, p)
    && (forall id | id in p :: id in Ids(steps))
  }

  /** Every known node comes after the known nodes it depends on. */
  ghost predicate Ordered(steps: seq<Step>, order: seq<NodeId>) {
    && NoDuplicates(order)
    && (forall i, b | 0 <= i < |order| && DependsOn(steps, order[i], b) && b in Ids(steps) :: b in order[..i])
  }

  ghost predicate TopologicalOrder(steps: seq<Step>, order: seq<NodeId>) {
    && (forall id :: id in order <==> id in Ids(steps))
    && Ordered(steps, order)
  }

  ghost predicate Acyclic(steps: seq<Step>) {
    exists order :: TopologicalOrder(steps, order)
  }

  /** `b` lies in the transitive dependsOn closure of `a`. */
  ghost predicate Reaches(steps: seq<Step>, a: NodeId, b: NodeId) {
    exists p :: WalkFromTo(steps, p, a, b)
  }

  ghost predicate WalkFromTo(steps: seq<Step>, p: seq<NodeId>, a: NodeId, b: NodeId) {
    Walk(steps, p) && |p| > 0 && p[0] == a && p[|p| - 1] == b
  }

  predicate UniqueIds(steps: seq<Step>) {
    forall i, j | 0 <= i < j < |steps| :: steps[i].id != steps[j].id
  }

  function Names(s: Step): set<NodeId> {
    set e | e in s.Dependencies() :: e.Node()
  }

  function DependedOn(steps: seq<Step>): set<NodeId> {
    set s, id | s in steps && id in Names(s) :: id
  }

  // Sinks: nodes no other node depends on.
  function Terminals(steps: seq<Step>): set<NodeId> {
    Ids(steps) - DependedOn(steps)
  }

  function Active(steps: seq<Step>, iteration: int): set<NodeId> {
    set s | s in steps && RunsIn(s.runOn, iteration) :: s.id
  }

  // ---- facts ----

  lemma PositionOf(order: seq<NodeId>, id: NodeId) returns (i: nat)
    requires id in order
    ensures i < |order| && order[i] == id
  {
    i :| 0 <= i < |order| && order[i] == id;
  }

  lemma DependencyComesFirst(steps: seq<Step>, order: seq<NodeId>, a: NodeId, b: NodeId) returns (i: nat, j: nat)
    requires Ordered(steps, order) && a in order && DependsOn(steps, a, b) && b in Ids(steps)
    ensures j < i < |order| && order[i] == a && order[j] == b
  {
    i := PositionOf(order, a);
    assert b in order[..i];
    j := PositionOf(order[..i], b);
  }

  // Along a walk the position in a topological order only falls.
  lemma {:induction false} WalkDescends(steps: seq<Step>, order: seq<NodeId>, p: seq<NodeId>, i: nat)
    requires TopologicalOrder(steps, order) && Walk(steps, p) && |p| > 0
    requires forall id | id in p :: id in Ids(steps)
    requires i < |order| && order[i] == p[0]
    ensures exists j :: 0 <= j <= i - (|p| - 1) && order[j] == p[|p| - 1]
    decreases |p|
  {
    if |p| > 1 {
      assert DependsOn(steps, p[0], p[1]) && p[1] in p;
      var i0, j := DependencyComesFirst(steps, order, p[0], p[1]);
      assert i0 == i;
      var q := p[1..];
      assert forall k | 0 <= k < |q| - 1 :: DependsOn(steps, q[k], q[k + 1]) by {
        forall k | 0 <= k < |q| - 1 ensures DependsOn(steps, q[k], q[k + 1]) {
          assert DependsOn(steps, p[k + 1], p[k + 2]);
        }
      }
      WalkDescends(steps, order, q, j);
    } else {
      assert order[i] == p[|p| - 1];
    }
  }

  /** A topological order excludes every dependency cycle. */
  lemma OrderedHasNoCycle(steps: seq<Step>, order: seq<NodeId>, p: seq<NodeId>)
    requires TopologicalOrder(steps, order)
    ensures !ClosedWalk(steps, p)
  {
    if ClosedWalk(steps, p) {
      assert p[0] in p;
      var i := PositionOf(order, p[0]);
      WalkDescends(steps, order, p, i);
    }
  }

  lemma UniqueById(steps: seq<Step>, s: Step)
    requires UniqueIds(steps) && s in steps
    ensures ById(steps)[s.id] == s
  {
    var m := ById(steps)[s.id];
    var i :| 0 <= i < |steps| && steps[i] == s;
    var j :| 0 <= j < |steps| && steps[j] == m;
  }

  // With unique ids, being depended on means that some node depends on it.
  lemma DependedOnBy(steps: seq<Step>, id: NodeId) returns (dependent: NodeId)
    requires UniqueIds(steps) && id in DependedOn(steps)
    ensures dependent in Ids(steps) && DependsOn(steps, dependent, id)
  {
    var s :| s in steps && id in Names(s);
    UniqueById(steps, s);
    dependent := s.id;
  }

  lemma Extend(steps: seq<Step>, a: NodeId, b: NodeId, c: NodeId)
    requires Reaches(steps, a, b) && DependsOn(steps, b, c)
    ensures Reaches(steps, a, c)
  {
    var p :| WalkFromTo(steps, p, a, b);
    var q := p + [c];
    forall i | 0 <= i < |q| - 1 ensures DependsOn(steps, q[i], q[i + 1]) {
      if i < |p| - 1 { assert DependsOn(steps, p[i], p[i + 1]); }
    }
    assert WalkFromTo(steps, q, a, c);
  }

  lemma ReachesItself(steps: seq<Step>, a: NodeId)
    ensures Reaches(steps, a, a)
  {
    assert WalkFromTo(steps, [a], a, a);
  }

  // A set closed under dependsOn contains all that its members reach.
  lemma {:induction false} ClosedSetContains(steps: seq<Step>, closed: set<NodeId>, p: seq<NodeId>)
    requires forall a, b | a in closed && DependsOn(steps, a, b) :: b in closed
    requires Walk(steps, p) && |p| > 0 && p[0] in closed
    ensures p[|p| - 1] in closed
    decreases |p|
  {
    if |p| > 1 {
      assert DependsOn(steps, p[0], p[1]);
      var q := p[1..];
      forall k | 0 <= k < |q| - 1 ensures DependsOn(steps, q[k], q[k + 1]) {
        assert DependsOn(steps, p[k + 1], p[k + 2]);
      }
      ClosedSetContains(steps, closed, q);
    }
  }

  /** Every node of an acyclic graph is in the closure of some sink. */
  lemma {:induction false} SomeSinkReaches(steps: seq<Step>, order: seq<NodeId>, i: nat) returns (sink: NodeId)
    requires UniqueIds(steps) && TopologicalOrder(steps, order) && i < |order|
    ensures sink in Terminals(steps) && Reaches(steps, sink, order[i])
    decreases |order| - i
  {
    assert order[i] in order;
    if order[i] in DependedOn(steps) {
      var dependent := DependedOnBy(steps, order[i]);
      var k, j := DependencyComesFirst(steps, order, dependent, order[i]);
      assert j == i;
      sink := SomeSinkReaches(steps, order, k);
      Extend(steps, sink, dependent, order[i]);
    } else {
      sink := order[i];
      ReachesItself(steps, sink);
    }
  }
}
