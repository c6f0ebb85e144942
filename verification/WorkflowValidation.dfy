/**
 * validateGraph (workflow.ts 80-92, 124-236): the loops and the backward
 * worklist, proved to accept exactly the definitions that have unique ids, known
 * and well-typed edges, a topological order, and in every iteration a route from
 * each active node to an active sink.
 */
module WorkflowValidation {
  import opened Common
  import opened Workflow
  import opened WorkflowCycles

  datatype Phase = FirstPhase | SubsequentPhase {
    function Iteration(): int { if FirstPhase? then 1 else 2 }
  }

  datatype Issue =
    | DuplicateNodeId(id: NodeId, existing: NodeType, duplicate: NodeType)
    | UnknownDependency(node: NodeId, dependency: NodeId)
    | InvalidConditionEdge(node: NodeId, on: string, upstream: NodeId, upstreamType: NodeType)
    | DependencyCycle(cycle: seq<NodeId>)
    | Disconnected(phase: Phase, nodes: set<NodeId>)
    | NoActiveTerminal(phase: Phase)

  // ---- what the issues are ----

  // The map validateGraph fills itself: the first step with an id wins.
  function FirstById(steps: seq<Step>): (m: map<NodeId, Step>)
    ensures m.Keys == Ids(steps)
    ensures forall id | id in m :: m[id] in steps && m[id].id == id
  {
    if steps == [] then map[]
    else
      var last := |steps| - 1;
      assert steps == steps[..last] + [steps[last]];
      var before := FirstById(steps[..last]);
      if steps[last].id in before then before else before[steps[last].id := steps[last]]
  }

  function DuplicateIssues(steps: seq<Step>): seq<Issue> {
    if steps == [] then []
    else
      var before := FirstById(steps[..|steps| - 1]);
      var s := steps[|steps| - 1];
      DuplicateIssues(steps[..|steps| - 1])
        + if s.id in before then [DuplicateNodeId(s.id, before[s.id].nodeType, s.nodeType)] else []
  }

  function EdgeIssue(byId: map<NodeId, Step>, node: NodeId, e: Dependency): seq<Issue> {
    if e.Node() !in byId then [UnknownDependency(node, e.Node())]
    else
      var upstream := byId[e.Node()];
      if e.On().Some? && e.On().value !in Outcomes(upstream.nodeType) then
        [InvalidConditionEdge(node, e.On().value, upstream.id, upstream.nodeType)]
      else []
  }

  function StepIssues(byId: map<NodeId, Step>, node: NodeId, edges: seq<Dependency>): seq<Issue> {
    if edges == [] then []
    else StepIssues(byId, node, edges[..|edges| - 1]) + EdgeIssue(byId, node, edges[|edges| - 1])
  }

  function EdgeIssues(byId: map<NodeId, Step>, steps: seq<Step>): seq<Issue> {
    if steps == [] then []
    else
      var s := steps[|steps| - 1];
      EdgeIssues(byId, steps[..|steps| - 1]) + StepIssues(byId, s.id, s.Dependencies())
  }

  /** The node is in the dependsOn closure of a sink that is active too. */
  ghost predicate ReachesActiveSink(steps: seq<Step>, iteration: int, id: NodeId) {
    exists sink :: sink in Terminals(steps) * Active(steps, iteration) && Reaches(steps, sink, id)
  }

  ghost function Stranded(steps: seq<Step>, iteration: int): set<NodeId> {
    set id | id in Active(steps, iteration) && !ReachesActiveSink(steps, iteration, id)
  }

  ghost function PhaseIssues(steps: seq<Step>, phase: Phase): seq<Issue> {
    var stranded := Stranded(steps, phase.Iteration());
    (if stranded != {} then [Disconnected(phase, stranded)] else [])
    + (if Terminals(steps) * Active(steps, phase.Iteration()) == {} then [NoActiveTerminal(phase)] else [])
  }

  // The issues after the duplicate check, for some reported cycle.
  ghost predicate GraphIssues(steps: seq<Step>, issues: seq<Issue>) {
    exists cycle: Option<seq<NodeId>> ::
      && (cycle.None? <==> Acyclic(steps))
      && (cycle.Some? ==> ClosedWalk(steps, cycle.value))
      && issues == IssuesWith(steps, cycle)
  }

  ghost function IssuesWith(steps: seq<Step>, cycle: Option<seq<NodeId>>): seq<Issue> {
    EdgeIssues(FirstById(steps), steps)
    + (if cycle.Some? then [DependencyCycle(cycle.value)] else [])
    + PhaseIssues(steps, FirstPhase)
    + PhaseIssues(steps, SubsequentPhase)
  }

  // ---- what a valid definition is ----

  // The edge names a step, and its condition is an outcome of that step's type.
  ghost predicate PointsAtOutcome(steps: seq<Step>, e: Dependency) {
    exists upstream :: upstream in steps && upstream.id == e.Node() && OutcomeOf(e, upstream.nodeType)
  }

  predicate OutcomeOf(e: Dependency, t: NodeType) {
    e.On().Some? ==> e.On().value in Outcomes(t)
  }

  ghost predicate EdgesFit(steps: seq<Step>) {
    forall s, e | s in steps && e in s.Dependencies() :: PointsAtOutcome(steps, e)
  }

  ghost predicate Connected(steps: seq<Step>, iteration: int) {
    && Terminals(steps) * Active(steps, iteration) != {}
    && forall id | id in Active(steps, iteration) :: ReachesActiveSink(steps, iteration, id)
  }

  /** The meaning of a definition that loads. */
  ghost predicate Valid(steps: seq<Step>) {
    && UniqueIds(steps)
    && EdgesFit(steps)
    && Acyclic(steps)
    && forall iteration: int | iteration >= 1 :: Connected(steps, iteration)
  }

  // ---- the loops ----

  method ActiveNodeIds(steps: seq<Step>, iteration: int) returns (active: set<NodeId>)
    ensures active == Active(steps, iteration)
  {
    active := {};
    for i := 0 to |steps|
      invariant active == Active(steps[..i], iteration)
    {
      assert steps[..i + 1] == steps[..i] + [steps[i]];
      if RunsIn(steps[i].runOn, iteration) {
        active := active + {steps[i].id};
      }
    }
    assert steps[..|steps|] == steps;
  }

  method DependedOnIds(steps: seq<Step>) returns (dependedOn: set<NodeId>)
    ensures dependedOn == DependedOn(steps)
  {
    dependedOn := {};
    for i := 0 to |steps|
      invariant dependedOn == DependedOn(steps[..i])
    {
      OneMore(steps, i);
      ghost var before := dependedOn;
      var edges := steps[i].Dependencies();
      for j := 0 to |edges|
        invariant dependedOn == before + set e | e in edges[..j] :: e.Node()
      {
        assert edges[..j + 1] == edges[..j] + [edges[j]];
        dependedOn := dependedOn + {edges[j].Node()};
      }
      assert edges[..|edges|] == edges;
    }
    assert steps[..|steps|] == steps;
  }

  lemma OneMore(steps: seq<Step>, i: nat)
    requires i < |steps|
    ensures DependedOn(steps[..i + 1]) == DependedOn(steps[..i]) + Names(steps[i])
  {
    assert forall s :: s in steps[..i + 1] <==> s in steps[..i] || s == steps[i];
  }

  // The active terminals in definition order, each once.
  method ActiveTerminals(steps: seq<Step>, active: set<NodeId>) returns (terminals: seq<NodeId>)
    ensures forall id :: id in terminals <==> id in Terminals(steps) * active
  {
    var dependedOn := DependedOnIds(steps);
    terminals := [];
    for i := 0 to |steps|
      invariant forall id :: id in terminals <==> id in (Ids(steps[..i]) - dependedOn) * active
    {
      assert steps[..i + 1] == steps[..i] + [steps[i]];
      var id := steps[i].id;
      if id !in dependedOn && id in active && id !in terminals {
        terminals := terminals + [id];
      }
    }
    assert steps[..|steps|] == steps;
  }

  ghost predicate ReachedFrom(steps: seq<Step>, terminals: seq<NodeId>, id: NodeId) {
    exists t :: t in terminals && Reaches(steps, t, id)
  }

  /**
   * The backward walk: exactly the transitive dependsOn closure of the
   * terminals.  Cycles, duplicate ids and dangling names do no harm.
   */
  method Reaching(steps: seq<Step>, terminals: seq<NodeId>) returns (reaching: set<NodeId>)
    ensures forall id :: id in reaching <==> ReachedFrom(steps, terminals, id)
  {
    ghost var names := (set t | t in terminals) + DependedOn(steps);
    StartWalk(steps, terminals);
    hide *;
    reaching := {};
    var queue := terminals;
    while |queue| > 0
      invariant Walked(steps, terminals, names, reaching, queue)
      decreases names - reaching, |queue|
    {
      var id := queue[|queue| - 1];
      ghost var before := queue;
      queue := queue[..|queue| - 1];
      assert before == queue + [id];
      if id in reaching {
        Forget(steps, terminals, names, reaching, queue, id);
      } else {
        ghost var rest := queue;
        queue := PushDependencies(steps, id, queue);
        WalkOn(steps, terminals, names, reaching, rest, id, queue);
        assert id in names - reaching;
        reaching := reaching + {id};
      }
    }
    ClosureIsExact(steps, terminals, names, reaching);
  }

  // What the backward walk keeps: all it found is reached, the dependencies of
  // what it visited are visited or still queued.
  ghost predicate Walked(steps: seq<Step>, terminals: seq<NodeId>, names: set<NodeId>, reaching: set<NodeId>, queue: seq<NodeId>) {
    && DependedOn(steps) <= names
    && (forall id | id in queue :: id in names && ReachedFrom(steps, terminals, id))
    && reaching <= names
    && (forall id | id in reaching :: ReachedFrom(steps, terminals, id))
    && (forall t | t in terminals :: t in reaching || t in queue)
    && (forall a, b | a in reaching && DependsOn(steps, a, b) :: b in reaching || b in queue)
  }

  lemma Forget(steps: seq<Step>, terminals: seq<NodeId>, names: set<NodeId>, reaching: set<NodeId>, rest: seq<NodeId>, id: NodeId)
    requires Walked(steps, terminals, names, reaching, rest + [id]) && id in reaching
    ensures Walked(steps, terminals, names, reaching, rest)
  {
    hide DependsOn, ReachedFrom, DependedOn;
    assert forall x :: x in rest + [id] <==> x in rest || x == id;
  }

  lemma WalkOn(steps: seq<Step>, terminals: seq<NodeId>, names: set<NodeId>, reaching: set<NodeId>,
               rest: seq<NodeId>, id: NodeId, queue: seq<NodeId>)
    requires Walked(steps, terminals, names, reaching, rest + [id])
    requires forall x :: x in queue <==> x in rest || DependsOn(steps, id, x)
    ensures id in names && Walked(steps, terminals, names, reaching + {id}, queue)
  {
    assert id in rest + [id];
    PushedReached(steps, terminals, id, rest, queue);
    PushedNames(steps, id, rest, queue);
    hide DependsOn, ReachedFrom, DependedOn;
    assert forall x :: x in rest + [id] <==> x in rest || x == id;
  }

  method PushDependencies(steps: seq<Step>, id: NodeId, queue: seq<NodeId>) returns (queue': seq<NodeId>)
    ensures forall x :: x in queue' <==> x in queue || DependsOn(steps, id, x)
  {
    var edges := Dependencies(steps, id);
    queue' := queue;
    for j := 0 to |edges|
      invariant forall x :: x in queue' <==> x in queue || exists e :: e in edges[..j] && e.Node() == x
    {
      assert edges[..j + 1] == edges[..j] + [edges[j]];
      queue' := queue' + [edges[j].Node()];
    }
    assert edges[..|edges|] == edges;
  }

  lemma StartWalk(steps: seq<Step>, terminals: seq<NodeId>)
    ensures Walked(steps, terminals, (set t | t in terminals) + DependedOn(steps), {}, terminals)
  {
    forall t | t in terminals ensures ReachedFrom(steps, terminals, t) {
      ReachesItself(steps, t);
    }
  }

  lemma PushedReached(steps: seq<Step>, terminals: seq<NodeId>, id: NodeId, queue: seq<NodeId>, queue': seq<NodeId>)
    requires ReachedFrom(steps, terminals, id)
    requires forall x | x in queue' :: x in queue || DependsOn(steps, id, x)
    ensures forall x | x in queue' && x !in queue :: ReachedFrom(steps, terminals, x)
  {
    var t :| t in terminals && Reaches(steps, t, id);
    forall x | x in queue' && x !in queue ensures ReachedFrom(steps, terminals, x) {
      Extend(steps, t, id, x);
    }
  }

  lemma PushedNames(steps: seq<Step>, id: NodeId, queue: seq<NodeId>, queue': seq<NodeId>)
    requires forall x | x in queue' :: x in queue || DependsOn(steps, id, x)
    ensures forall x | x in queue' && x !in queue :: x in DependedOn(steps)
  {
    forall x | x in queue' && x !in queue ensures x in DependedOn(steps) {
      var e :| e in Dependencies(steps, id) && e.Node() == x;
      assert x in Names(ById(steps)[id]);
    }
  }

  lemma ClosureIsExact(steps: seq<Step>, terminals: seq<NodeId>, names: set<NodeId>, reaching: set<NodeId>)
    requires Walked(steps, terminals, names, reaching, [])
    ensures forall id :: id in reaching <==> ReachedFrom(steps, terminals, id)
  {
    forall id | ReachedFrom(steps, terminals, id) ensures id in reaching {
      var t :| t in terminals && Reaches(steps, t, id);
      var p :| WalkFromTo(steps, p, t, id);
      ClosedSetContains(steps, reaching, p);
    }
  }

  method UnreachableAfterFiltering(steps: seq<Step>, phase: Phase) returns (disconnected: set<NodeId>, terminals: seq<NodeId>)
    ensures disconnected == Stranded(steps, phase.Iteration())
    ensures forall id :: id in terminals <==> id in Terminals(steps) * Active(steps, phase.Iteration())
  {
    var active := ActiveNodeIds(steps, phase.Iteration());
    terminals := ActiveTerminals(steps, active);
    var reaching := Reaching(steps, terminals);
    disconnected := active - reaching;
    forall id ensures ReachedFrom(steps, terminals, id) <==> ReachesActiveSink(steps, phase.Iteration(), id) {
    }
  }

  method FindDuplicates(steps: seq<Step>) returns (issues: seq<Issue>, byId: map<NodeId, Step>)
    ensures issues == DuplicateIssues(steps) && byId == FirstById(steps)
  {
    issues, byId := [], map[];
    for i := 0 to |steps|
      invariant issues == DuplicateIssues(steps[..i]) && byId == FirstById(steps[..i])
    {
      assert steps[..i + 1][..i] == steps[..i];
      var s := steps[i];
      if s.id in byId {
        issues := issues + [DuplicateNodeId(s.id, byId[s.id].nodeType, s.nodeType)];
      } else {
        byId := byId[s.id := s];
      }
    }
    assert steps[..|steps|] == steps;
  }

  method CheckEdges(steps: seq<Step>, byId: map<NodeId, Step>) returns (issues: seq<Issue>)
    ensures issues == EdgeIssues(byId, steps)
  {
    issues := [];
    for i := 0 to |steps|
      invariant issues == EdgeIssues(byId, steps[..i])
    {
      assert steps[..i + 1][..i] == steps[..i];
      var found := CheckStep(byId, steps[i].id, steps[i].Dependencies());
      issues := issues + found;
    }
    assert steps[..|steps|] == steps;
  }

  method CheckStep(byId: map<NodeId, Step>, node: NodeId, edges: seq<Dependency>) returns (issues: seq<Issue>)
    ensures issues == StepIssues(byId, node, edges)
  {
    hide Outcomes;
    issues := [];
    for j := 0 to |edges|
      invariant issues == StepIssues(byId, node, edges[..j])
    {
      assert edges[..j + 1][..j] == edges[..j];
      var e := edges[j];
      if e.Node() !in byId {
        issues := issues + [UnknownDependency(node, e.Node())];
        continue;
      }
      var upstream := byId[e.Node()];
      if e.On().Some? && e.On().value !in Outcomes(upstream.nodeType) {
        issues := issues + [InvalidConditionEdge(node, e.On().value, upstream.id, upstream.nodeType)];
      }
    }
    assert edges[..|edges|] == edges;
  }

  method CheckPhase(steps: seq<Step>, phase: Phase) returns (issues: seq<Issue>)
    ensures issues == PhaseIssues(steps, phase)
  {
    var disconnected, terminals := UnreachableAfterFiltering(steps, phase);
    issues := [];
    if disconnected != {} {
      issues := issues + [Disconnected(phase, disconnected)];
    }
    if |terminals| == 0 {
      assert Terminals(steps) * Active(steps, phase.Iteration()) == {};
      issues := issues + [NoActiveTerminal(phase)];
    } else {
      assert terminals[0] in Terminals(steps) * Active(steps, phase.Iteration());
    }
  }

  /** A definition is accepted exactly when it is valid; the issues say what is wrong. */
  method ValidateGraph(steps: seq<Step>) returns (issues: seq<Issue>)
    ensures !UniqueIds(steps) ==> issues == DuplicateIssues(steps)
    ensures UniqueIds(steps) ==> GraphIssues(steps, issues)
    ensures issues == [] <==> Valid(steps)
  {
    var duplicates, byId := FindDuplicates(steps);
    NoDuplicatesIff(steps);
    hide DuplicateIssues, FirstById, UniqueIds, EdgesFit, Acyclic, Connected, GraphIssues;
    if |duplicates| > 0 {
      return duplicates;
    }
    issues := CheckGraph(steps, byId);
  }

  // What follows the duplicate check.
  method CheckGraph(steps: seq<Step>, byId: map<NodeId, Step>) returns (issues: seq<Issue>)
    requires UniqueIds(steps) && byId == FirstById(steps)
    ensures GraphIssues(steps, issues)
    ensures issues == [] <==> Valid(steps)
  {
    hide *;
    var edges := CheckEdges(steps, byId);
    var cycle := FindDependencyCycle(steps);
    var first := CheckPhase(steps, FirstPhase);
    var subsequent := CheckPhase(steps, SubsequentPhase);
    issues := edges;
    if cycle.Some? {
      issues := issues + [DependencyCycle(cycle.value)];
    }
    issues := issues + first + subsequent;
    Collected(steps, cycle, issues);
    EmptyIffValid(steps, cycle);
    FromCycle(steps, cycle);
  }

  lemma Collected(steps: seq<Step>, cycle: Option<seq<NodeId>>, issues: seq<Issue>)
    requires var edges := EdgeIssues(FirstById(steps), steps);
      issues == (if cycle.Some? then edges + [DependencyCycle(cycle.value)] else edges)
                + PhaseIssues(steps, FirstPhase) + PhaseIssues(steps, SubsequentPhase)
    ensures issues == IssuesWith(steps, cycle)
  {
    hide PhaseIssues, EdgeIssues, FirstById;
  }

  lemma FromCycle(steps: seq<Step>, cycle: Option<seq<NodeId>>)
    requires (cycle.None? <==> Acyclic(steps)) && (cycle.Some? ==> ClosedWalk(steps, cycle.value))
    ensures GraphIssues(steps, IssuesWith(steps, cycle))
  {
    hide Acyclic, ClosedWalk, IssuesWith;
  }

  // ---- no issue means valid ----

  lemma {:induction false} NoDuplicatesIff(steps: seq<Step>)
    ensures DuplicateIssues(steps) == [] <==> UniqueIds(steps)
  {
    if steps != [] {
      var last := |steps| - 1;
      var before := steps[..last];
      NoDuplicatesIff(before);
      assert UniqueIds(steps) ==> UniqueIds(before);
      if steps[last].id in Ids(before) {
        var s :| s in before && s.id == steps[last].id;
        var i :| 0 <= i < last && before[i] == s;
        assert steps[i].id == steps[last].id;
      } else if UniqueIds(before) {
        forall i, j | 0 <= i < j < |steps| ensures steps[i].id != steps[j].id {
          assert steps[i] == before[i] && before[i] in before;
          if j < last { assert steps[j] == before[j]; }
        }
      }
    }
  }

  ghost predicate EdgeFits(byId: map<NodeId, Step>, e: Dependency) {
    e.Node() in byId && OutcomeOf(e, byId[e.Node()].nodeType)
  }

  lemma {:induction false} NoStepIssuesIff(byId: map<NodeId, Step>, node: NodeId, edges: seq<Dependency>)
    ensures StepIssues(byId, node, edges) == [] <==> forall e | e in edges :: EdgeFits(byId, e)
  {
    if edges != [] {
      var last := |edges| - 1;
      NoStepIssuesIff(byId, node, edges[..last]);
      hide Outcomes;
      assert EdgeIssue(byId, node, edges[last]) == [] <==> EdgeFits(byId, edges[last]);
      assert forall e :: e in edges <==> e in edges[..last] || e == edges[last];
    }
  }

  lemma {:induction false} NoEdgeIssuesIff(byId: map<NodeId, Step>, steps: seq<Step>)
    ensures EdgeIssues(byId, steps) == [] <==> forall s, e | s in steps && e in s.Dependencies() :: EdgeFits(byId, e)
  {
    if steps != [] {
      var last := |steps| - 1;
      NoEdgeIssuesIff(byId, steps[..last]);
      NoStepIssuesIff(byId, steps[last].id, steps[last].Dependencies());
      hide EdgeFits, StepIssues;
      assert forall s :: s in steps <==> s in steps[..last] || s == steps[last];
    }
  }

  lemma UniqueFirst(steps: seq<Step>, s: Step)
    requires UniqueIds(steps) && s in steps
    ensures FirstById(steps)[s.id] == s
  {
    var m := FirstById(steps)[s.id];
    var i :| 0 <= i < |steps| && steps[i] == s;
    var j :| 0 <= j < |steps| && steps[j] == m;
  }

  lemma EdgesFitIff(steps: seq<Step>)
    requires UniqueIds(steps)
    ensures EdgeIssues(FirstById(steps), steps) == [] <==> EdgesFit(steps)
  {
    var byId := FirstById(steps);
    NoEdgeIssuesIff(byId, steps);
    hide EdgeIssues, FirstById, Outcomes, OutcomeOf;
    forall e ensures EdgeFits(byId, e) <==> PointsAtOutcome(steps, e) {
      FitsIff(steps, e);
    }
  }

  lemma FitsIff(steps: seq<Step>, e: Dependency)
    requires UniqueIds(steps)
    ensures EdgeFits(FirstById(steps), e) <==> PointsAtOutcome(steps, e)
  {
    hide OutcomeOf, UniqueIds;
    if PointsAtOutcome(steps, e) {
      var upstream :| upstream in steps && upstream.id == e.Node() && OutcomeOf(e, upstream.nodeType);
      UniqueFirst(steps, upstream);
    }
  }

  // The two phases stand for every iteration.
  lemma PhasesCoverIterations(steps: seq<Step>)
    ensures (forall iteration: int | iteration >= 1 :: Connected(steps, iteration)) <==>
            PhaseIssues(steps, FirstPhase) == [] && PhaseIssues(steps, SubsequentPhase) == []
  {
    forall phase: Phase ensures PhaseIssues(steps, phase) == [] <==> Connected(steps, phase.Iteration()) {
      var i := phase.Iteration();
      if Stranded(steps, i) == {} {
        forall id | id in Active(steps, i) ensures ReachesActiveSink(steps, i, id) {
          assert id !in Stranded(steps, i);
        }
      }
    }
    assert FirstPhase.Iteration() == 1 && SubsequentPhase.Iteration() == 2;
    forall iteration: int | iteration >= 2 ensures Connected(steps, iteration) <==> Connected(steps, 2) {
      LaterIterationsAgree(steps, iteration);
    }
  }

  lemma LaterIterationsAgree(steps: seq<Step>, iteration: int)
    requires iteration >= 2
    ensures Active(steps, iteration) == Active(steps, 2)
    ensures Connected(steps, iteration) <==> Connected(steps, 2)
  {
    assert Active(steps, iteration) == Active(steps, 2);
    forall id ensures ReachesActiveSink(steps, iteration, id) <==> ReachesActiveSink(steps, 2, id) { }
  }

  lemma EmptyIffValid(steps: seq<Step>, cycle: Option<seq<NodeId>>)
    requires UniqueIds(steps) && (cycle.None? <==> Acyclic(steps))
    ensures IssuesWith(steps, cycle) == [] <==> Valid(steps)
  {
    EdgesFitIff(steps);
    PhasesCoverIterations(steps);
    hide PhaseIssues, Connected, EdgesFit, Acyclic, EdgeIssues, UniqueIds;
  }

  // ---- the converse ----

  /**
   * A non-empty acyclic graph never gets an iteration-disconnected issue as long
   * as its sinks run in the phase: every node reaches a sink, and inactive nodes
   * on the way do not matter.
   */
  lemma ActiveSinksConnect(steps: seq<Step>, phase: Phase)
    requires UniqueIds(steps) && Acyclic(steps) && steps != []
    requires Terminals(steps) <= Active(steps, phase.Iteration())
    ensures PhaseIssues(steps, phase) == []
  {
    var i := phase.Iteration();
    var order :| TopologicalOrder(steps, order);
    forall id | id in Active(steps, i) ensures ReachesActiveSink(steps, i, id) {
      var k := PositionOf(order, id);
      var sink := SomeSinkReaches(steps, order, k);
    }
    assert steps[0].id in Ids(steps);
    var k := PositionOf(order, steps[0].id);
    var sink := SomeSinkReaches(steps, order, k);
    assert sink in Terminals(steps) * Active(steps, i);
  }

  lemma AlwaysNodesStayConnected(steps: seq<Step>, phase: Phase)
    requires UniqueIds(steps) && Acyclic(steps) && steps != []
    requires forall s | s in steps :: s.runOn.Always?
    ensures PhaseIssues(steps, phase) == []
  {
    forall id | id in Terminals(steps) ensures id in Active(steps, phase.Iteration()) {
      var s :| s in steps && s.id == id;
    }
    ActiveSinksConnect(steps, phase);
  }
}
