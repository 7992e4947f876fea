/** The dependency graph of a workflow definition's planning steps.

    Two depth-first searches look for cycles in it. The one behind `defineAssistantWorkflow` stops
    with an error at the first back edge; the one behind `validateAssistantWorkflowDefinition` goes on
    and collects the targets of all back edges. Both are proved against the same definition of a
    cycle, a closed walk, which mentions neither search. */
module DependencyGraph {
  import opened Wrappers

  datatype Step = Step(id: string, dependsOn: seq<string>)

  /** What `new Map(steps.map(step => [step.id, step]))` holds: a later step replaces an earlier one
      with the same id. */
  type Graph = map<string, seq<string>>

  function StepsById(steps: seq<Step>): Graph {
    if steps == [] then map[]
    else
      var last := steps[|steps| - 1];
      StepsById(steps[..|steps| - 1])[last.id := last.dependsOn]
  }

  // ----- Walks and cycles -----

  predicate Edge(g: Graph, a: string, b: string) {
    a in g && b in g && b in g[a]
  }

  predicate IsWalk(g: Graph, p: seq<string>) {
    forall i, j :: 0 <= i && j == i + 1 < |p| ==> Edge(g, p[i], p[j])
  }

  predicate IsCycle(g: Graph, p: seq<string>) {
    2 <= |p| && IsWalk(g, p) && p[0] == p[|p| - 1]
  }

  ghost predicate Acyclic(g: Graph) {
    forall p :: !IsCycle(g, p)
  }

  ghost predicate OnCycle(g: Graph, id: string) {
    exists p :: IsCycle(g, p) && p[0] == id
  }

  /** `targets` meets every cycle of the graph. */
  ghost predicate MeetsEveryCycle(g: Graph, targets: seq<string>) {
    forall p :: IsCycle(g, p) ==> exists i :: 0 <= i < |p| && p[i] in targets
  }

  ghost predicate DescendsAt(g: Graph, rank: map<string, nat>, targets: seq<string>, a: string)
    requires a in g && a in rank
  {
    forall b :: b in g[a] && b in g && b !in targets ==> b in rank && rank[b] < rank[a]
  }

  /** `rank` falls along every edge out of a ranked step, except along edges into `targets`. */
  ghost predicate Descends(g: Graph, rank: map<string, nat>, targets: seq<string>) {
    forall a :: a in rank ==> a in g && DescendsAt(g, rank, targets, a)
  }

  lemma {:induction false} WalkDescends(g: Graph, rank: map<string, nat>, targets: seq<string>, p: seq<string>, k: nat)
    requires g.Keys == rank.Keys && Descends(g, rank, targets)
    requires IsWalk(g, p) && 1 <= k < |p|
    requires forall i :: 0 <= i < |p| ==> p[i] !in targets
    ensures p[0] in rank && p[k] in rank && rank[p[k]] < rank[p[0]]
  {
    assert Edge(g, p[k - 1], p[k]) && DescendsAt(g, rank, targets, p[k - 1]);
    if k > 1 {
      WalkDescends(g, rank, targets, p, k - 1);
    }
  }

  /** A rank of all steps that falls along every edge not into `targets` leaves no cycle that avoids
      `targets`. */
  lemma RankMeetsEveryCycle(g: Graph, rank: map<string, nat>, targets: seq<string>)
    requires g.Keys == rank.Keys && Descends(g, rank, targets)
    ensures MeetsEveryCycle(g, targets)
  {
    forall p | IsCycle(g, p)
      ensures exists i :: 0 <= i < |p| && p[i] in targets
    {
      if forall i :: 0 <= i < |p| ==> p[i] !in targets {
        WalkDescends(g, rank, targets, p, |p| - 1);
      }
    }
  }

  // ----- What both searches keep -----

  /** `stack` lists the open calls of `visit`, outermost first: it is a walk whose members are exactly
      `visiting`. `rank` numbers the finished steps in the order in which they finished. */
  ghost predicate SearchInv(g: Graph, visiting: set<string>, visited: set<string>,
                            stack: seq<string>, rank: map<string, nat>, targets: seq<string>)
  {
    && IsWalk(g, stack)
    && (forall id :: id in visiting <==> id in stack)
    && visiting <= g.Keys
    && (forall id :: id in visiting ==> id !in visited)
    && rank.Keys == visited
    && (forall id :: id in rank ==> rank[id] < |visited|)
    && Descends(g, rank, targets)
  }

  lemma SearchStarts(g: Graph)
    ensures SearchInv(g, {}, {}, [], map[], []) && Distinct<string>([])
  {
  }

  lemma BackEdgeIsOnCycle(g: Graph, visiting: set<string>, visited: set<string>,
                          stack: seq<string>, rank: map<string, nat>, targets: seq<string>, id: string)
    requires SearchInv(g, visiting, visited, stack, rank, targets)
    requires id in g && (stack != [] ==> stack[|stack| - 1] in g && id in g[stack[|stack| - 1]]) && id in visiting
    ensures OnCycle(g, id)
  {
    var k :| 0 <= k < |stack| && stack[k] == id;
    assert IsCycle(g, stack[k..] + [id]);
  }

  lemma OpenCallKeepsInv(g: Graph, visiting: set<string>, visited: set<string>,
                         stack: seq<string>, rank: map<string, nat>, targets: seq<string>, id: string)
    requires SearchInv(g, visiting, visited, stack, rank, targets)
    requires id in g && (stack != [] ==> stack[|stack| - 1] in g && id in g[stack[|stack| - 1]]) && id !in visiting
      && id !in visited
    ensures SearchInv(g, visiting + {id}, visited, stack + [id], rank, targets)
    ensures |g.Keys - (visiting + {id})| < |g.Keys - visiting|
  {
    SmallerSet(g.Keys - (visiting + {id}), g.Keys - visiting);
    WalkExtends(g, stack, id);
  }

  lemma WalkExtends(g: Graph, stack: seq<string>, id: string)
    requires IsWalk(g, stack) && id in g
    requires stack != [] ==> stack[|stack| - 1] in g && id in g[stack[|stack| - 1]]
    ensures IsWalk(g, stack + [id])
  {
    forall i, j | 0 <= i && j == i + 1 < |stack + [id]|
      ensures Edge(g, (stack + [id])[i], (stack + [id])[j])
    {
      if j < |stack| {
        assert Edge(g, stack[i], stack[j]);
      }
    }
  }

  /** Closing the call of `id`, all of whose known dependencies are finished or in `targets`. The first
      precondition is what held when the call was opened. */
  lemma CloseCallKeepsInv(g: Graph, visiting: set<string>, stack: seq<string>, id: string,
                          visited0: set<string>, rank0: map<string, nat>, targets0: seq<string>,
                          visited: set<string>, rank: map<string, nat>, targets: seq<string>)
    requires SearchInv(g, visiting, visited0, stack, rank0, targets0) && id in g && id !in visiting
    requires SearchInv(g, visiting + {id}, visited, stack + [id], rank, targets)
    requires forall d :: d in g[id] && d in g ==> d in visited || d in targets
    ensures SearchInv(g, visiting, visited + {id}, stack, rank[id := |visited|], targets)
  {
    hide Descends, DescendsAt, IsWalk, Edge;
    var rank' := rank[id := |visited|];
    assert id !in visited;
    FinishingKeepsDescent(g, rank, targets, id, |visited|);
    OpenWalkIsWalk(g, stack, id);
    assert rank'.Keys == visited + {id};
  }

  lemma OpenWalkIsWalk(g: Graph, stack: seq<string>, id: string)
    requires IsWalk(g, stack + [id])
    ensures IsWalk(g, stack)
  {
    forall i, j | 0 <= i && j == i + 1 < |stack|
      ensures Edge(g, stack[i], stack[j])
    {
      assert Edge(g, (stack + [id])[i], (stack + [id])[j]);
    }
  }

  lemma FinishingKeepsDescent(g: Graph, rank: map<string, nat>, targets: seq<string>, id: string, n: nat)
    requires Descends(g, rank, targets) && id in g && id !in rank
    requires forall x :: x in rank ==> rank[x] < n
    requires forall d :: d in g[id] && d in g ==> d in rank || d in targets
    ensures Descends(g, rank[id := n], targets)
  {
    var rank' := rank[id := n];
    forall a | a in rank'
      ensures a in g && DescendsAt(g, rank', targets, a)
    {
      if a != id {
        assert DescendsAt(g, rank, targets, a);
      }
    }
  }

  lemma MoreTargetsKeepInv(g: Graph, visiting: set<string>, visited: set<string>, stack: seq<string>,
                           rank: map<string, nat>, targets: seq<string>, more: seq<string>)
    requires SearchInv(g, visiting, visited, stack, rank, targets)
    requires forall t :: t in targets ==> t in more
    ensures SearchInv(g, visiting, visited, stack, rank, more)
  {
    forall a | a in rank
      ensures DescendsAt(g, rank, more, a)
    {
      assert DescendsAt(g, rank, targets, a);
    }
  }

  /** When every step is finished, no cycle avoids the targets. */
  lemma FinishedSearchMeetsEveryCycle(g: Graph, visited: set<string>, rank: map<string, nat>, targets: seq<string>)
    requires SearchInv(g, {}, visited, [], rank, targets) && g.Keys <= visited
    ensures MeetsEveryCycle(g, targets)
    ensures targets == [] ==> Acyclic(g)
  {
    assert rank.Keys == g.Keys by {
      assert forall a :: a in rank ==> a in g;
    }
    RankMeetsEveryCycle(g, rank, targets);
  }

  // ----- The throwing search -----

  datatype DependencyError =
    | SelfDependency(stepId: string)
    | UnknownDependency(stepId: string, dependencyId: string)
    | CycleAt(stepId: string)

  predicate DependenciesKnown(g: Graph, step: Step) {
    forall k :: 0 <= k < |step.dependsOn| ==> step.dependsOn[k] != step.id && step.dependsOn[k] in g
  }

  predicate AllDependenciesKnown(steps: seq<Step>) {
    forall i :: 0 <= i < |steps| ==> DependenciesKnown(StepsById(steps), steps[i])
  }

  /** The first offending dependency of one step, in the order in which the step lists them. */
  method CheckStepDependencies(g: Graph, step: Step) returns (error: Option<DependencyError>)
    ensures error.None? <==> DependenciesKnown(g, step)
    ensures error.Some? ==>
      exists j :: 0 <= j < |step.dependsOn|
        && (forall k :: 0 <= k < j ==> step.dependsOn[k] != step.id && step.dependsOn[k] in g)
        && error.value == (if step.dependsOn[j] == step.id then SelfDependency(step.id)
                           else UnknownDependency(step.id, step.dependsOn[j]))
        && (step.dependsOn[j] == step.id || step.dependsOn[j] !in g)
  {
    for j := 0 to |step.dependsOn|
      invariant forall k :: 0 <= k < j ==> step.dependsOn[k] != step.id && step.dependsOn[k] in g
    {
      var dependencyId := step.dependsOn[j];
      if dependencyId == step.id {
        return Some(SelfDependency(step.id));
      }
      if dependencyId !in g {
        return Some(UnknownDependency(step.id, dependencyId));
      }
    }
    return None;
  }

  /** One call of the recursive closure `visit`; the two sets it captures are passed through. */
  method Visit(g: Graph, stepId: string, visiting: set<string>, visited: set<string>,
               ghost stack: seq<string>, ghost rank: map<string, nat>)
    returns (error: Option<string>, visiting': set<string>, visited': set<string>, ghost rank': map<string, nat>)
    requires forall a, d :: a in g && d in g[a] ==> d in g
    requires SearchInv(g, visiting, visited, stack, rank, [])
    requires stepId in g && (stack != [] ==> stack[|stack| - 1] in g && stepId in g[stack[|stack| - 1]])
    ensures error.Some? ==> OnCycle(g, error.value)
    ensures error.None? ==>
      && visiting' == visiting
      && visited <= visited' && stepId in visited'
      && SearchInv(g, visiting', visited', stack, rank', [])
    decreases |g.Keys - visiting|
  {
    hide *;
    error, visiting', visited', rank' := None, visiting, visited, rank;
    if stepId in visited {
      return;
    }
    if stepId in visiting {
      BackEdgeIsOnCycle(g, visiting, visited, stack, rank, [], stepId);
      error := Some(stepId);
      return;
    }
    OpenCallKeepsInv(g, visiting, visited, stack, rank, [], stepId);
    visiting' := visiting' + {stepId};
    for i := 0 to |g[stepId]|
      invariant error.None? && visiting' == visiting + {stepId} && visited <= visited'
      invariant SearchInv(g, visiting', visited', stack + [stepId], rank', [])
      invariant forall k :: 0 <= k < i ==> g[stepId][k] in visited'
    {
      error, visiting', visited', rank' := Visit(g, g[stepId][i], visiting', visited', stack + [stepId], rank');
      if error.Some? {
        return;
      }
    }
    CloseCallKeepsInv(g, visiting, stack, stepId, visited, rank, [], visited', rank', []);
    rank' := rank'[stepId := |visited'|];
    visiting' := visiting' - {stepId};
    visited' := visited' + {stepId};
  }

  lemma SmallerSet(a: set<string>, b: set<string>)
    requires a < b
    ensures |a| < |b|
  {
    assert b == a + (b - a);
  }

  lemma {:induction false} StepIsKey(steps: seq<Step>, i: nat)
    requires i < |steps|
    ensures steps[i].id in StepsById(steps)
  {
    var last := |steps| - 1;
    if i < last {
      StepIsKey(steps[..last], i);
    }
  }

  lemma {:induction false} EntryComesFromStep(steps: seq<Step>, id: string)
    requires id in StepsById(steps)
    ensures exists i :: 0 <= i < |steps| && steps[i] == Step(id, StepsById(steps)[id])
  {
    var last := |steps| - 1;
    if steps[last].id == id {
      assert steps[last] == Step(id, StepsById(steps)[id]);
    } else {
      EntryComesFromStep(steps[..last], id);
      var i :| 0 <= i < last && steps[..last][i] == Step(id, StepsById(steps[..last])[id]);
      assert steps[i] == Step(id, StepsById(steps)[id]);
    }
  }

  lemma KnownStepsMakeClosedGraph(steps: seq<Step>)
    requires AllDependenciesKnown(steps)
    ensures forall a, d :: a in StepsById(steps) && d in StepsById(steps)[a] ==> d in StepsById(steps)
  {
    var g := StepsById(steps);
    forall a, d | a in g && d in g[a]
      ensures d in g
    {
      EntryComesFromStep(steps, a);
      var i :| 0 <= i < |steps| && steps[i] == Step(a, g[a]);
      assert DependenciesKnown(g, steps[i]);
    }
  }

  /** The first loop of `assertPlanningStepDependencies`. */
  method CheckAllDependencies(steps: seq<Step>) returns (error: Option<DependencyError>)
    ensures error.None? <==> AllDependenciesKnown(steps)
    ensures error.Some? ==> !error.value.CycleAt?
  {
    var stepsById := StepsById(steps);
    for i := 0 to |steps|
      invariant forall k :: 0 <= k < i ==> DependenciesKnown(stepsById, steps[k])
    {
      error := CheckStepDependencies(stepsById, steps[i]);
      if error.Some? {
        assert !DependenciesKnown(stepsById, steps[i]);
        return;
      }
    }
    return None;
  }

  /** The loop that visits every step, given that `CheckAllDependencies` found nothing. */
  method FindFirstCycle(steps: seq<Step>) returns (cycle: Option<string>)
    requires AllDependenciesKnown(steps)
    ensures cycle.None? <==> Acyclic(StepsById(steps))
    ensures cycle.Some? ==> OnCycle(StepsById(steps), cycle.value)
  {
    hide *;
    var stepsById := StepsById(steps);
    KnownStepsMakeClosedGraph(steps);
    var visiting, visited := {}, {};
    ghost var rank: map<string, nat> := map[];
    SearchStarts(stepsById);
    for i := 0 to |steps|
      invariant visiting == {}
      invariant SearchInv(stepsById, visiting, visited, [], rank, [])
      invariant forall k :: 0 <= k < i ==> steps[k].id in visited
    {
      StepIsKey(steps, i);
      cycle, visiting, visited, rank := Visit(stepsById, steps[i].id, visiting, visited, [], rank);
      if cycle.Some? {
        OnCycleRefutesAcyclic(stepsById, cycle.value);
        return;
      }
    }
    forall id | id in stepsById
      ensures id in visited
    {
      EntryComesFromStep(steps, id);
    }
    FinishedSearchMeetsEveryCycle(stepsById, visited, rank, []);
    return None;
  }

  /** Returns normally exactly when every dependency is declared, none is the step itself and the
      graph has no cycle. When it reports a cycle, the step it names lies on one. */
  method AssertPlanningStepDependencies(steps: seq<Step>) returns (error: Option<DependencyError>)
    ensures error.None? <==> AllDependenciesKnown(steps) && Acyclic(StepsById(steps))
    ensures error.Some? && error.value.CycleAt? ==>
      AllDependenciesKnown(steps) && OnCycle(StepsById(steps), error.value.stepId)
    ensures error.Some? && !error.value.CycleAt? ==> !AllDependenciesKnown(steps)
  {
    error := CheckAllDependencies(steps);
    if error.None? {
      var cycle := FindFirstCycle(steps);
      error := if cycle.Some? then Some(CycleAt(cycle.value)) else None;
    }
  }

  // ----- The collecting search -----

  /** `Set.add` on an insertion-ordered set without duplicates. */
  function Added(s: seq<string>, id: string): (r: seq<string>)
    ensures s <= r && forall x :: x in r <==> x in s || x == id
    ensures Distinct(s) ==> Distinct(r)
  {
    if id in s then s else s + [id]
  }

  method VisitCollecting(g: Graph, stepId: string, visiting: set<string>, visited: set<string>, cycles: seq<string>,
                         ghost stack: seq<string>, ghost rank: map<string, nat>)
    returns (visiting': set<string>, visited': set<string>, cycles': seq<string>, ghost rank': map<string, nat>)
    requires SearchInv(g, visiting, visited, stack, rank, cycles)
    requires stepId in g && (stack != [] ==> stack[|stack| - 1] in g && stepId in g[stack[|stack| - 1]])
    requires Distinct(cycles) && forall id :: id in cycles ==> OnCycle(g, id)
    ensures visiting' == visiting
    ensures visited <= visited' && cycles <= cycles'
    ensures stepId in visited' || (stepId in visiting && stepId in cycles')
    ensures SearchInv(g, visiting', visited', stack, rank', cycles')
    ensures Distinct(cycles') && forall id :: id in cycles' ==> OnCycle(g, id)
    decreases |g.Keys - visiting|
  {
    hide *;
    visiting', visited', cycles', rank' := visiting, visited, cycles, rank;
    if stepId in visited {
      return;
    }
    if stepId in visiting {
      BackEdgeIsOnCycle(g, visiting, visited, stack, rank, cycles, stepId);
      cycles' := Added(cycles, stepId);
      MoreTargetsKeepInv(g, visiting, visited, stack, rank, cycles, cycles');
      return;
    }
    OpenCallKeepsInv(g, visiting, visited, stack, rank, cycles, stepId);
    visiting' := visiting' + {stepId};
    for i := 0 to |g[stepId]|
      invariant visiting' == visiting + {stepId} && visited <= visited' && cycles <= cycles'
      invariant SearchInv(g, visiting', visited', stack + [stepId], rank', cycles')
      invariant Distinct(cycles') && forall id :: id in cycles' ==> OnCycle(g, id)
      invariant forall k :: 0 <= k < i && g[stepId][k] in g ==> g[stepId][k] in visited' || g[stepId][k] in cycles'
    {
      if g[stepId][i] in g {
        visiting', visited', cycles', rank' :=
          VisitCollecting(g, g[stepId][i], visiting', visited', cycles', stack + [stepId], rank');
      }
    }
    CloseCallKeepsInv(g, visiting, stack, stepId, visited, rank, cycles, visited', rank', cycles');
    rank' := rank'[stepId := |visited'|];
    visiting' := visiting' - {stepId};
    visited' := visited' + {stepId};
  }

  /** The keys of the step map in insertion order. */
  function Ids(steps: seq<Step>): (ids: seq<string>) {
    if steps == [] then [] else Added(Ids(steps[..|steps| - 1]), steps[|steps| - 1].id)
  }

  lemma {:induction false} IdsAreKeys(steps: seq<Step>)
    ensures forall id :: id in Ids(steps) <==> id in StepsById(steps)
  {
    if steps != [] {
      IdsAreKeys(steps[..|steps| - 1]);
    }
  }

  /** Every id returned lies on a cycle, no cycle avoids them all, and so the result is empty exactly
      for an acyclic graph. Dependencies on undeclared steps are ignored here. */
  method FindPlanningStepDependencyCycles(steps: seq<Step>) returns (cycles: seq<string>)
    ensures Distinct(cycles)
    ensures forall id :: id in cycles ==> OnCycle(StepsById(steps), id)
    ensures MeetsEveryCycle(StepsById(steps), cycles)
    ensures cycles == [] <==> Acyclic(StepsById(steps))
  {
    hide *;
    var g, ids := StepsById(steps), Ids(steps);
    IdsAreKeys(steps);
    var visiting, visited := {}, {};
    cycles := [];
    ghost var rank: map<string, nat> := map[];
    SearchStarts(g);
    for i := 0 to |ids|
      invariant visiting == {}
      invariant SearchInv(g, visiting, visited, [], rank, cycles)
      invariant Distinct(cycles) && forall id :: id in cycles ==> OnCycle(g, id)
      invariant forall k :: 0 <= k < i ==> ids[k] in visited
    {
      visiting, visited, cycles, rank := VisitCollecting(g, ids[i], visiting, visited, cycles, [], rank);
    }
    FinishedSearchMeetsEveryCycle(g, visited, rank, cycles);
    if cycles != [] {
      OnCycleRefutesAcyclic(g, cycles[0]);
    }
  }

  lemma OnCycleRefutesAcyclic(g: Graph, id: string)
    requires OnCycle(g, id)
    ensures !Acyclic(g) && id in g
  {
    var p :| IsCycle(g, p) && p[0] == id;
    assert Edge(g, p[0], p[1]);
  }

  datatype Diagnostic =
    | DependsOnItself(index: nat)
    | DependsOnUnknown(index: nat, dependencyId: string)
    | CycleThrough(index: nat, stepId: string)

  /** One diagnostic for each dependency that is the step itself or undeclared, in the order of the list. */
  function Faults(g: Graph, index: nat, id: string, dependencies: seq<string>): (diagnostics: seq<Diagnostic>)
    ensures diagnostics == [] <==> forall k :: 0 <= k < |dependencies| ==> dependencies[k] != id && dependencies[k] in g
    ensures forall d :: d in diagnostics <==>
              || (d == DependsOnItself(index) && id in dependencies)
              || (d.DependsOnUnknown? && d.index == index && d.dependencyId in dependencies && d.dependencyId != id
                  && d.dependencyId !in g)
  {
    if dependencies == [] then []
    else
      var n := |dependencies| - 1;
      var before, last := Faults(g, index, id, dependencies[..n]), dependencies[n];
      assert dependencies == dependencies[..n] + [last];
      if last == id then before + [DependsOnItself(index)]
      else if last !in g then before + [DependsOnUnknown(index, last)]
      else before
  }

  lemma NoFaults(g: Graph, index: nat, id: string)
    ensures Faults(g, index, id, []) == []
  {
  }

  lemma MoreFaults(g: Graph, index: nat, id: string, dependencies: seq<string>, j: nat)
    requires j < |dependencies|
    ensures Faults(g, index, id, dependencies[..j + 1]) == Faults(g, index, id, dependencies[..j]) +
            if dependencies[j] == id then [DependsOnItself(index)]
            else if dependencies[j] !in g then [DependsOnUnknown(index, dependencies[j])] else []
  {
    assert dependencies[..j + 1][..j] == dependencies[..j];
  }

  method StepDiagnostics(g: Graph, index: nat, step: Step) returns (diagnostics: seq<Diagnostic>)
    ensures diagnostics == Faults(g, index, step.id, step.dependsOn)
    ensures diagnostics == [] <==> DependenciesKnown(g, step)
  {
    hide Faults;
    diagnostics := [];
    NoFaults(g, index, step.id);
    for j := 0 to |step.dependsOn|
      invariant diagnostics == Faults(g, index, step.id, step.dependsOn[..j])
    {
      MoreFaults(g, index, step.id, step.dependsOn, j);
      var dependencyId := step.dependsOn[j];
      if dependencyId == step.id {
        diagnostics := diagnostics + [DependsOnItself(index)];
      } else if dependencyId !in g {
        diagnostics := diagnostics + [DependsOnUnknown(index, dependencyId)];
      }
    }
    assert step.dependsOn[..|step.dependsOn|] == step.dependsOn;
  }

  method FirstIndexOf(steps: seq<Step>, id: string) returns (index: nat)
    requires exists i :: 0 <= i < |steps| && steps[i].id == id
    ensures index < |steps| && steps[index].id == id
    ensures forall k :: 0 <= k < index ==> steps[k].id != id
  {
    index := 0;
    while steps[index].id != id
      invariant index < |steps|
      invariant forall k :: 0 <= k < index ==> steps[k].id != id
      decreases |steps| - index
    {
      index := index + 1;
    }
  }

  /** A diagnostic for a reported cycle step, at the first index that holds its id. */
  ghost predicate PointsAt(d: Diagnostic, steps: seq<Step>, id: string) {
    && d.CycleThrough? && d.stepId == id && d.index < |steps| && steps[d.index].id == id
    && forall k :: 0 <= k < d.index ==> steps[k].id != id
  }

  method CycleDiagnostics(steps: seq<Step>, cycles: seq<string>) returns (diagnostics: seq<Diagnostic>)
    requires forall id :: id in cycles ==> id in StepsById(steps)
    ensures |diagnostics| == |cycles| && forall i :: 0 <= i < |cycles| ==> PointsAt(diagnostics[i], steps, cycles[i])
  {
    diagnostics := [];
    for i := 0 to |cycles|
      invariant |diagnostics| == i && forall k :: 0 <= k < i ==> PointsAt(diagnostics[k], steps, cycles[k])
    {
      EntryComesFromStep(steps, cycles[i]);
      var index := FirstIndexOf(steps, cycles[i]);
      diagnostics := diagnostics + [CycleThrough(index, cycles[i])];
    }
  }

  /** The dependency part of `validatePlanningSteps`. It stays silent on exactly the step lists on
      which `AssertPlanningStepDependencies` returns normally, and every step it reports as being on a
      cycle is on one. */
  method ValidatePlanningStepDependencies(steps: seq<Step>) returns (diagnostics: seq<Diagnostic>)
    ensures diagnostics == [] <==> AllDependenciesKnown(steps) && Acyclic(StepsById(steps))
    ensures forall d :: d in diagnostics && d.CycleThrough? ==>
      PointsAt(d, steps, d.stepId) && OnCycle(StepsById(steps), d.stepId)
    ensures forall i: nat, d ::
      i < |steps| && d in Faults(StepsById(steps), i, steps[i].id, steps[i].dependsOn) ==> d in diagnostics
    ensures forall p :: IsCycle(StepsById(steps), p) ==> exists i :: 0 <= i < |p| && IsReported(diagnostics, p[i])
  {
    var stepsById := StepsById(steps);
    hide StepsById, Acyclic, OnCycle, DependenciesKnown, Faults, IsReported, IsCycle;
    diagnostics := [];
    for index := 0 to |steps|
      invariant forall d :: d in diagnostics ==> !d.CycleThrough?
      invariant forall i: nat, d ::
        i < index && d in Faults(stepsById, i, steps[i].id, steps[i].dependsOn) ==> d in diagnostics
      invariant diagnostics == [] <==> forall k :: 0 <= k < index ==> DependenciesKnown(stepsById, steps[k])
    {
      var more := StepDiagnostics(stepsById, index, steps[index]);
      diagnostics := diagnostics + more;
    }
    var cycles := FindPlanningStepDependencyCycles(steps);
    forall id | id in cycles
      ensures id in stepsById
    {
      OnCycleRefutesAcyclic(stepsById, id);
    }
    var more := CycleDiagnostics(steps, cycles);
    assert forall k :: 0 <= k < |more| ==> PointsAt(more[k], steps, cycles[k]) && more[k].stepId == cycles[k];
    hide PointsAt;
    forall id | id in cycles
      ensures IsReported(diagnostics + more, id)
    {
      CycleIsReported(steps, cycles, diagnostics, more, id);
    }
    diagnostics := diagnostics + more;
  }

  lemma CycleIsReported(steps: seq<Step>, cycles: seq<string>, diagnostics: seq<Diagnostic>, more: seq<Diagnostic>,
                        id: string)
    requires |more| == |cycles| && forall i :: 0 <= i < |cycles| ==> PointsAt(more[i], steps, cycles[i])
    requires id in cycles
    ensures IsReported(diagnostics + more, id)
  {
    var k :| 0 <= k < |cycles| && cycles[k] == id;
    assert more[k] in diagnostics + more && PointsAt(more[k], steps, id);
  }

  /** Some diagnostic says that the step is on a cycle. */
  ghost predicate IsReported(diagnostics: seq<Diagnostic>, id: string) {
    exists d :: d in diagnostics && d.CycleThrough? && d.stepId == id
  }
}
