/** The invocation queue built from an execution plan. */
module ToolInvocations {
  import opened Wrappers
  import opened ExecutionBudget
  import opened WorkflowTypes
  import opened Planning
  import opened ToolBindings
  import opened ExecutionPlanning

  // ----- Building -----

  function InvocationOf(step: ExecutionStep, r: Resolution, policy: Policy): Invocation
    requires r.Status() == Ready
  {
    Invocation(
      step.id + ":" + r.toolName, step.id, step.dependsOnStepIds, r.toolName, r.toolName in step.requiredToolNames,
      r.binding.value.provider, r.capability.value, r.binding.value,
      Some(if r.capability.value.retryClass.RetryNever? then 1 else policy.maxAttemptsPerTool))
  }

  /** Invocations for those resolutions of a step that are ready. */
  function InvocationsFor(step: ExecutionStep, rs: seq<Resolution>, policy: Policy): seq<Invocation> {
    if rs == [] then []
    else
      var before, r := InvocationsFor(step, rs[..|rs| - 1], policy), rs[|rs| - 1];
      if r.Status() == Ready then before + [InvocationOf(step, r, policy)] else before
  }

  function ToolsToInvoke(step: ExecutionStep, includeOptional: bool): seq<string> {
    if includeOptional then step.readyToolNames
    else Filter(step.readyToolNames, t => t in step.requiredToolNames)
  }

  function StepInvocations(norm: Normalizer, w: Workflow, policy: Policy, step: ExecutionStep,
                           includeOptional: bool): seq<Invocation>
  {
    if !Runs(step) then []
    else InvocationsFor(step, ResolveAll(w, UniqueNormal(norm, ToolsToInvoke(step, includeOptional))), policy)
  }

  function PlanInvocations(norm: Normalizer, w: Workflow, policy: Policy, steps: seq<ExecutionStep>,
                           includeOptional: bool): seq<Invocation>
  {
    if steps == [] then []
    else
      PlanInvocations(norm, w, policy, steps[..|steps| - 1], includeOptional)
      + StepInvocations(norm, w, policy, steps[|steps| - 1], includeOptional)
  }

  function SkippedIds(steps: seq<ExecutionStep>): seq<string> {
    if steps == [] then []
    else
      var before := SkippedIds(steps[..|steps| - 1]);
      if Runs(steps[|steps| - 1]) then before else before + [steps[|steps| - 1].id]
  }

  /** The two nested loops of the queue builder. */
  method CollectInvocations(norm: Normalizer, w: Workflow, policy: Policy, steps: seq<ExecutionStep>,
                            includeOptional: bool)
    returns (invocations: seq<Invocation>, skippedStepIds: seq<string>)
    ensures invocations == PlanInvocations(norm, w, policy, steps, includeOptional)
    ensures skippedStepIds == SkippedIds(steps)
  {
    hide ToolsToInvoke, UniqueNormal, InvocationOf, Runs, ResolveAll;
    invocations, skippedStepIds := [], [];
    for i := 0 to |steps|
      invariant invocations == PlanInvocations(norm, w, policy, steps[..i], includeOptional)
      invariant skippedStepIds == SkippedIds(steps[..i])
    {
      var step := steps[i];
      assert steps[..i + 1][..i] == steps[..i];
      if !Runs(step) {
        skippedStepIds := skippedStepIds + [step.id];
        assert invocations + [] == invocations;
        continue;
      }
      ghost var before := invocations;
      var resolutions := ResolveTools(norm, w, ToolsToInvoke(step, includeOptional));
      for k := 0 to |resolutions|
        invariant invocations == before + InvocationsFor(step, resolutions[..k], policy)
      {
        assert resolutions[..k + 1][..k] == resolutions[..k];
        if resolutions[k].Status() == Ready {
          invocations := invocations + [InvocationOf(step, resolutions[k], policy)];
        }
      }
      assert resolutions[..|resolutions|] == resolutions;
    }
    assert steps[..|steps|] == steps;
  }

  /** The queue's own count of tool calls. */
  function CallSum(invocations: seq<Invocation>): int {
    if invocations == [] then 0
    else
      var last := invocations[|invocations| - 1].maxAttempts;
      CallSum(invocations[..|invocations| - 1]) + if last.Some? then last.value else 1
  }

  function QueueOf(norm: Normalizer, w: Workflow, plan: ExecutionPlan, includeOptional: bool,
                   allowWhenBlocked: bool): Queue
  {
    var ids := seq(|plan.steps|, i requires 0 <= i < |plan.steps| => plan.steps[i].id);
    var nothing := Queue(QueueBlocked, [], ids, w.executionBudget, Some(plan.executionPolicy));
    if !Unblocked(plan) && !allowWhenBlocked then nothing
    else
      var invocations := PlanInvocations(norm, w, plan.executionPolicy, plan.steps, includeOptional);
      var calls := CallSum(invocations);
      if w.executionBudget.Some? && calls >= 0 && Blocked(Assess(w.executionBudget.value, |plan.steps|, calls, 0.0))
        then nothing
      else
        Queue(if invocations == [] then QueueEmpty else if plan.status.PlanPartial? then QueuePartial else QueueReady,
              invocations, SkippedIds(plan.steps), w.executionBudget, Some(plan.executionPolicy))
  }

  method BuildQueue(norm: Normalizer, w: Workflow, plan: ExecutionPlan, includeOptional: bool, allowWhenBlocked: bool)
    returns (queue: Queue)
    ensures queue == QueueOf(norm, w, plan, includeOptional, allowWhenBlocked)
  {
    hide PlanInvocations, SkippedIds, CallSum, Assess;
    var ids := seq(|plan.steps|, i requires 0 <= i < |plan.steps| => plan.steps[i].id);
    var nothing := Queue(QueueBlocked, [], ids, w.executionBudget, Some(plan.executionPolicy));
    if (plan.status.PlanBlocked? || plan.status.PlanNeedsClarification?) && !allowWhenBlocked {
      return nothing;
    }
    var invocations, skippedStepIds := CollectInvocations(norm, w, plan.executionPolicy, plan.steps, includeOptional);
    var calls := CallSum(invocations);
    if w.executionBudget.Some? && calls >= 0 && Blocked(Assess(w.executionBudget.value, |plan.steps|, calls, 0.0)) {
      return nothing;
    }
    var status := if invocations == [] then QueueEmpty else if plan.status.PlanPartial? then QueuePartial
      else QueueReady;
    return Queue(status, invocations, skippedStepIds, w.executionBudget, Some(plan.executionPolicy));
  }

  // ----- Planned steps -----

  /** What every planned step promises about its ready tools. */
  ghost predicate GoodStep(norm: Normalizer, w: Workflow, available: Option<set<string>>, step: ExecutionStep) {
    && Distinct(step.readyToolNames)
    && forall n :: n in step.readyToolNames ==> IsNormalId(norm, n) && Usable(ResolveTool(w, n), available)
  }

  lemma PlannedStepIsGood(norm: Normalizer, w: Workflow, available: Option<set<string>>, selected: set<string>,
                          seen: set<string>, step: PlanStep)
    requires IsNormalizer(norm)
    ensures GoodStep(norm, w, available, PlanExecutionStep(norm, w, available, selected, seen, step))
  {
    hide *;
    var e := PlanExecutionStep(norm, w, available, selected, seen, step);
    UniqueNormalIsDistinct(norm, RequiredNames(step));
    UniqueNormalIsDistinct(norm, OptionalNames(step));
    ReadyNamesAreDistinct(norm, w, available, selected, seen, step);
    forall n | n in e.readyToolNames
      ensures IsNormalId(norm, n) && Usable(ResolveTool(w, n), available)
    {
      ReadyToolsIff(norm, w, available, selected, seen, step, n);
    }
    GoodMeans(norm, w, available, e);
  }

  lemma ReadyNamesAreDistinct(norm: Normalizer, w: Workflow, available: Option<set<string>>, selected: set<string>,
                              seen: set<string>, step: PlanStep)
    ensures Distinct(PlanExecutionStep(norm, w, available, selected, seen, step).readyToolNames)
  {
    UniqueIsDistinct(UsableNames(ResolveAll(w, UniqueNormal(norm, RequiredNames(step)))
                                 + ResolveAll(w, UniqueNormal(norm, OptionalNames(step))), available));
    hide UniqueNormal, RequiredNames, OptionalNames, UsableNames, Unique, NotReady, WithoutContext, ResolveTool,
      MissingDependencies, LateDependencies;
  }

  lemma GoodMeans(norm: Normalizer, w: Workflow, available: Option<set<string>>, step: ExecutionStep)
    requires Distinct(step.readyToolNames)
    requires forall n :: n in step.readyToolNames ==> IsNormalId(norm, n) && Usable(ResolveTool(w, n), available)
    ensures GoodStep(norm, w, available, step)
  {
  }

  lemma ResolveKeepsName(w: Workflow, name: string)
    ensures ResolveTool(w, name).toolName == name
  {
  }

  /** A step's invocations, one for each ready tool. */
  lemma {:induction false} InvocationsOfReadyTools(w: Workflow, policy: Policy, step: ExecutionStep, names: seq<string>)
    requires forall i :: 0 <= i < |names| ==> ResolveTool(w, names[i]).Status() == Ready
    ensures var invocations := InvocationsFor(step, ResolveAll(w, names), policy);
      && |invocations| == |names|
      && (forall i :: 0 <= i < |names| ==> invocations[i] == InvocationOf(step, ResolveTool(w, names[i]), policy))
  {
    if names != [] {
      var init, last := names[..|names| - 1], names[|names| - 1];
      assert names == init + [last];
      hide *;
      ResolvedInParts(w, init, last);
      InvocationsOfReadyTools(w, policy, step, init);
      OneMoreInvocation(step, ResolveAll(w, init), ResolveTool(w, last), policy);
    } else {
      assert InvocationsFor(step, ResolveAll(w, names), policy) == [];
    }
  }

  lemma ResolvedInParts(w: Workflow, init: seq<string>, last: string)
    ensures ResolveAll(w, init + [last]) == ResolveAll(w, init) + [ResolveTool(w, last)]
  {
    hide ResolveTool;
  }

  lemma OneMoreInvocation(step: ExecutionStep, rs: seq<Resolution>, r: Resolution, policy: Policy)
    requires r.Status() == Ready
    ensures InvocationsFor(step, rs + [r], policy) == InvocationsFor(step, rs, policy) + [InvocationOf(step, r, policy)]
  {
    assert (rs + [r])[..|rs|] == rs;
  }

  /** Invocations with the attempts that the plan counted add up to the plan's sum. */
  lemma {:induction false} SameAttempts(w: Workflow, policy: Policy, names: seq<string>, invocations: seq<Invocation>)
    requires ValidPolicy(policy) && |invocations| == |names|
    requires forall i :: 0 <= i < |names| ==> invocations[i].maxAttempts == Some(AttemptsOf(w, policy, names[i]))
    ensures CallSum(invocations) == AttemptSum(invocations) == SumAttempts(w, policy, names)
  {
    if names != [] {
      SameAttempts(w, policy, names[..|names| - 1], invocations[..|names| - 1]);
    }
  }

  lemma {:induction false} CallSumConcat(a: seq<Invocation>, b: seq<Invocation>)
    ensures CallSum(a + b) == CallSum(a) + CallSum(b)
  {
    if b == [] {
      assert a + b == a;
    } else {
      assert (a + b)[..|a + b| - 1] == a + b[..|b| - 1];
      CallSumConcat(a, b[..|b| - 1]);
    }
  }

  /** Three counts of tool calls agree: the plan's worst case, the queue's sum of attempts and the sum that
      the executor's preflight check adds up. */
  lemma {:induction false} ThreeBoundsAgree(norm: Normalizer, w: Workflow, policy: Policy,
                                            available: Option<set<string>>, steps: seq<ExecutionStep>)
    requires ValidPolicy(policy)
    requires forall i :: 0 <= i < |steps| ==> GoodStep(norm, w, available, steps[i])
    ensures var invocations := PlanInvocations(norm, w, policy, steps, true);
            MaximumToolCalls(w, policy, steps) == CallSum(invocations) == AttemptSum(invocations)
  {
    if steps != [] {
      var init, step := steps[..|steps| - 1], steps[|steps| - 1];
      ThreeBoundsAgree(norm, w, policy, available, init);
      var a, b := PlanInvocations(norm, w, policy, init, true), StepInvocations(norm, w, policy, step, true);
      CallSumConcat(a, b);
      AttemptSumConcat(a, b);
      if Runs(step) {
        GoodStepInvocations(norm, w, policy, available, step);
      }
    }
  }

  lemma GoodStepInvocations(norm: Normalizer, w: Workflow, policy: Policy, available: Option<set<string>>,
                            step: ExecutionStep)
    requires ValidPolicy(policy) && GoodStep(norm, w, available, step) && Runs(step)
    ensures var invocations := StepInvocations(norm, w, policy, step, true);
      && |invocations| == |step.readyToolNames|
      && (forall i :: 0 <= i < |invocations| ==>
          invocations[i] == InvocationOf(step, ResolveTool(w, step.readyToolNames[i]), policy))
      && CallSum(invocations) == AttemptSum(invocations) == SumAttempts(w, policy, step.readyToolNames)
  {
    UniqueNormalOfNormal(norm, step.readyToolNames);
    InvocationsOfReadyTools(w, policy, step, step.readyToolNames);
    SameAttempts(w, policy, step.readyToolNames, StepInvocations(norm, w, policy, step, true));
  }

  // ----- Order and multiplicity -----

  ghost predicate DistinctStepIds(steps: seq<ExecutionStep>) {
    forall i, j :: 0 <= i < j < |steps| ==> steps[i].id != steps[j].id
  }

  /** Every invocation comes from a running step and carries that step's dependencies. */
  ghost predicate ComesFrom(steps: seq<ExecutionStep>, invocation: Invocation) {
    exists k :: 0 <= k < |steps| && Runs(steps[k]) && FromStep(steps[k], invocation)
  }

  ghost predicate AllComeFrom(steps: seq<ExecutionStep>, invocations: seq<Invocation>) {
    forall i :: 0 <= i < |invocations| ==> ComesFrom(steps, invocations[i])
  }

  predicate FromStep(step: ExecutionStep, invocation: Invocation) {
    invocation.stepId == step.id && invocation.dependsOnStepIds == step.dependsOnStepIds
  }

  lemma {:induction false} InvocationsComeFromStep(step: ExecutionStep, rs: seq<Resolution>, policy: Policy)
    ensures forall i :: 0 <= i < |InvocationsFor(step, rs, policy)| ==>
      FromStep(step, InvocationsFor(step, rs, policy)[i])
  {
    if rs != [] {
      InvocationsComeFromStep(step, rs[..|rs| - 1], policy);
    }
  }

  lemma {:induction false} InvocationsComeFromSteps(norm: Normalizer, w: Workflow, policy: Policy,
                                                    steps: seq<ExecutionStep>, includeOptional: bool)
    ensures AllComeFrom(steps, PlanInvocations(norm, w, policy, steps, includeOptional))
  {
    if steps != [] {
      var init, step := steps[..|steps| - 1], steps[|steps| - 1];
      InvocationsComeFromSteps(norm, w, policy, init, includeOptional);
      var a, b := PlanInvocations(norm, w, policy, init, includeOptional),
        StepInvocations(norm, w, policy, step, includeOptional);
      if Runs(step) {
        InvocationsComeFromStep(step, ResolveAll(w, UniqueNormal(norm, ToolsToInvoke(step, includeOptional))), policy);
      }
      forall i | 0 <= i < |a + b|
        ensures ComesFrom(steps, (a + b)[i])
      {
        if i < |a| {
          assert (a + b)[i] == a[i] && ComesFrom(init, a[i]);
          var k :| 0 <= k < |init| && Runs(init[k]) && FromStep(init[k], a[i]);
          assert steps[k] == init[k];
        } else {
          assert FromStep(steps[|steps| - 1], b[i - |a|]);
        }
      }
    }
  }

  /** Whether a step has invocations at all. */
  predicate Invokes(norm: Normalizer, w: Workflow, policy: Policy, step: ExecutionStep, includeOptional: bool) {
    StepInvocations(norm, w, policy, step, includeOptional) != []
  }

  /** The step an invocation was made for. */
  lemma {:induction false} SourceStep(norm: Normalizer, w: Workflow, policy: Policy, steps: seq<ExecutionStep>,
                                      includeOptional: bool, i: nat) returns (k: nat)
    requires i < |PlanInvocations(norm, w, policy, steps, includeOptional)|
    ensures k < |steps| && FromStep(steps[k], PlanInvocations(norm, w, policy, steps, includeOptional)[i])
    ensures Invokes(norm, w, policy, steps[k], includeOptional)
  {
    var n := |steps| - 1;
    var a := PlanInvocations(norm, w, policy, steps[..n], includeOptional);
    if i < |a| {
      k := SourceStep(norm, w, policy, steps[..n], includeOptional, i);
    } else {
      k := n;
      InvocationsComeFromStep(steps[n], ResolveAll(w, UniqueNormal(norm, ToolsToInvoke(steps[n], includeOptional))),
                              policy);
    }
  }

  /** The step and the tool an invocation was made from. */
  lemma {:induction false} SourceTool(norm: Normalizer, w: Workflow, policy: Policy, available: Option<set<string>>,
                                      steps: seq<ExecutionStep>, i: nat) returns (k: nat, t: string)
    requires ValidPolicy(policy) && forall j :: 0 <= j < |steps| ==> GoodStep(norm, w, available, steps[j])
    requires i < |PlanInvocations(norm, w, policy, steps, true)|
    ensures k < |steps| && Runs(steps[k]) && t in steps[k].readyToolNames && Usable(ResolveTool(w, t), available)
    ensures PlanInvocations(norm, w, policy, steps, true)[i] == InvocationOf(steps[k], ResolveTool(w, t), policy)
  {
    var n := |steps| - 1;
    var a, b := PlanInvocations(norm, w, policy, steps[..n], true), StepInvocations(norm, w, policy, steps[n], true);
    if i < |a| {
      k, t := SourceTool(norm, w, policy, available, steps[..n], i);
    } else {
      k := n;
      assert (a + b)[i] == b[i - |a|];
      t := ToolOf(norm, w, policy, available, steps[n], i - |a|);
    }
  }

  lemma ToolOf(norm: Normalizer, w: Workflow, policy: Policy, available: Option<set<string>>, step: ExecutionStep,
               i: nat)
    returns (t: string)
    requires ValidPolicy(policy) && GoodStep(norm, w, available, step)
      && i < |StepInvocations(norm, w, policy, step, true)|
    ensures Runs(step) && t in step.readyToolNames && Usable(ResolveTool(w, t), available)
    ensures StepInvocations(norm, w, policy, step, true)[i] == InvocationOf(step, ResolveTool(w, t), policy)
  {
    GoodStepInvocations(norm, w, policy, available, step);
    t := step.readyToolNames[i];
  }

  /** Some invocation of a step that has any. */
  lemma {:induction false} SomeInvocation(norm: Normalizer, w: Workflow, policy: Policy, steps: seq<ExecutionStep>,
                                          includeOptional: bool, k: nat) returns (i: nat)
    requires k < |steps| && Invokes(norm, w, policy, steps[k], includeOptional)
    ensures i < |PlanInvocations(norm, w, policy, steps, includeOptional)|
    ensures FromStep(steps[k], PlanInvocations(norm, w, policy, steps, includeOptional)[i])
  {
    var n := |steps| - 1;
    if k < n {
      i := SomeInvocation(norm, w, policy, steps[..n], includeOptional, k);
    } else {
      i := |PlanInvocations(norm, w, policy, steps[..n], includeOptional)|;
      InvocationsComeFromStep(steps[n], ResolveAll(w, UniqueNormal(norm, ToolsToInvoke(steps[n], includeOptional))),
                              policy);
    }
  }

  /** Invocations of different steps stand in the order of the steps. */
  lemma {:induction false} InvocationsFollowSteps(norm: Normalizer, w: Workflow, policy: Policy,
                                                  steps: seq<ExecutionStep>,
                                                  includeOptional: bool, k: nat, m: nat, i: nat, j: nat)
    requires DistinctStepIds(steps) && k < m < |steps|
    requires var invocations := PlanInvocations(norm, w, policy, steps, includeOptional);
             i < |invocations| && j < |invocations| && invocations[i].stepId == steps[k].id
               && invocations[j].stepId == steps[m].id
    ensures i < j
    decreases |steps|
  {
    var n := |steps| - 1;
    var a, b := PlanInvocations(norm, w, policy, steps[..n], includeOptional),
      StepInvocations(norm, w, policy, steps[n], includeOptional);
    assert PlanInvocations(norm, w, policy, steps, includeOptional) == a + b;
    LastStepIsLast(norm, w, policy, steps, includeOptional, i);
    LastStepIsLast(norm, w, policy, steps, includeOptional, j);
    hide PlanInvocations, StepInvocations;
    assert m < n ==> steps[m].id != steps[n].id;
    if m < n {
      InvocationsFollowSteps(norm, w, policy, steps[..n], includeOptional, k, m, i, j);
    }
  }

  lemma LastStepIsLast(norm: Normalizer, w: Workflow, policy: Policy, steps: seq<ExecutionStep>, includeOptional: bool,
                       i: nat)
    requires steps != [] && DistinctStepIds(steps) && i < |PlanInvocations(norm, w, policy, steps, includeOptional)|
    ensures PlanInvocations(norm, w, policy, steps, includeOptional)[i].stepId == steps[|steps| - 1].id <==>
            i >= |PlanInvocations(norm, w, policy, steps[..|steps| - 1], includeOptional)|
  {
    var n := |steps| - 1;
    var a := PlanInvocations(norm, w, policy, steps[..n], includeOptional);
    if i < |a| {
      var k := SourceStep(norm, w, policy, steps[..n], includeOptional, i);
      assert steps[k].id != steps[n].id;
    } else {
      InvocationsComeFromStep(steps[n], ResolveAll(w, UniqueNormal(norm, ToolsToInvoke(steps[n], includeOptional))),
                              policy);
    }
  }

  /** The steps that step `k` depends on and that have invocations all come before it. */
  ghost predicate DependsBackwards(norm: Normalizer, w: Workflow, policy: Policy, steps: seq<ExecutionStep>,
                                   includeOptional: bool, k: nat)
    requires k < |steps|
  {
    forall m | 0 <= m < |steps| && Invokes(norm, w, policy, steps[m], includeOptional) ::
      steps[m].id in steps[k].dependsOnStepIds ==> m < k
  }

  /** An invocation stands after those of the steps it depends on exactly if its step comes after them. */
  lemma DependenciesBeforeIff(norm: Normalizer, w: Workflow, policy: Policy, steps: seq<ExecutionStep>,
                              includeOptional: bool, i: nat, k: nat)
    requires DistinctStepIds(steps) && k < |steps|
    requires i < |PlanInvocations(norm, w, policy, steps, includeOptional)|
    requires FromStep(steps[k], PlanInvocations(norm, w, policy, steps, includeOptional)[i])
    ensures DependenciesBefore(PlanInvocations(norm, w, policy, steps, includeOptional), i) <==>
            DependsBackwards(norm, w, policy, steps, includeOptional, k)
  {
    hide PlanInvocations, Invokes;
    var invocations := PlanInvocations(norm, w, policy, steps, includeOptional);
    if DependsBackwards(norm, w, policy, steps, includeOptional, k) {
      forall j | 0 <= j < |invocations| && invocations[j].stepId in invocations[i].dependsOnStepIds
        ensures j < i
      {
        var m := SourceStep(norm, w, policy, steps, includeOptional, j);
        InvocationsFollowSteps(norm, w, policy, steps, includeOptional, m, k, j, i);
      }
    }
    if DependenciesBefore(invocations, i) {
      forall m | 0 <= m < |steps| && Invokes(norm, w, policy, steps[m], includeOptional)
        && steps[m].id in steps[k].dependsOnStepIds
        ensures m < k
      {
        var j := SomeInvocation(norm, w, policy, steps, includeOptional, m);
        assert j < i;
        if k < m {
          InvocationsFollowSteps(norm, w, policy, steps, includeOptional, k, m, i, j);
        }
      }
    }
  }

  /** The queue lists dependency steps first exactly if, among the steps that have invocations, none depends
      on itself or on a later one. */
  lemma QueueIsOrderedIff(norm: Normalizer, w: Workflow, policy: Policy, steps: seq<ExecutionStep>,
                          includeOptional: bool)
    requires DistinctStepIds(steps)
    ensures DependenciesFirst(PlanInvocations(norm, w, policy, steps, includeOptional)) <==>
            forall k | 0 <= k < |steps| && Invokes(norm, w, policy, steps[k], includeOptional) ::
              DependsBackwards(norm, w, policy, steps, includeOptional, k)
  {
    hide PlanInvocations, Invokes, DependsBackwards, DependenciesBefore;
    var invocations := PlanInvocations(norm, w, policy, steps, includeOptional);
    if DependenciesFirst(invocations) {
      forall k | 0 <= k < |steps| && Invokes(norm, w, policy, steps[k], includeOptional)
        ensures DependsBackwards(norm, w, policy, steps, includeOptional, k)
      {
        var i := SomeInvocation(norm, w, policy, steps, includeOptional, k);
        DependenciesBeforeIff(norm, w, policy, steps, includeOptional, i, k);
      }
    }
    if forall k | 0 <= k < |steps| && Invokes(norm, w, policy, steps[k], includeOptional) ::
         DependsBackwards(norm, w, policy, steps, includeOptional, k)
    {
      forall i | 0 <= i < |invocations|
        ensures DependenciesBefore(invocations, i)
      {
        var k := SourceStep(norm, w, policy, steps, includeOptional, i);
        DependenciesBeforeIff(norm, w, policy, steps, includeOptional, i, k);
      }
    }
  }

  /** How often a queue invokes a tool for a step. */
  function Times(invocations: seq<Invocation>, stepId: string, toolName: string): nat {
    if invocations == [] then 0
    else
      var last := invocations[|invocations| - 1];
      Times(invocations[..|invocations| - 1], stepId, toolName) + if last.stepId == stepId && last.toolName == toolName
        then 1 else 0
  }

  lemma {:induction false} TimesConcat(a: seq<Invocation>, b: seq<Invocation>, stepId: string, toolName: string)
    ensures Times(a + b, stepId, toolName) == Times(a, stepId, toolName) + Times(b, stepId, toolName)
  {
    if b == [] {
      assert a + b == a;
    } else {
      assert (a + b)[..|a + b| - 1] == a + b[..|b| - 1];
      TimesConcat(a, b[..|b| - 1], stepId, toolName);
    }
  }

  lemma {:induction false} NoInvocationOfOtherSteps(invocations: seq<Invocation>, stepId: string, toolName: string)
    requires forall i :: 0 <= i < |invocations| ==> invocations[i].stepId != stepId
    ensures Times(invocations, stepId, toolName) == 0
  {
    if invocations != [] {
      NoInvocationOfOtherSteps(invocations[..|invocations| - 1], stepId, toolName);
    }
  }

  lemma {:induction false} DistinctToolsOnce(invocations: seq<Invocation>, names: seq<string>, stepId: string,
                                             toolName: string)
    requires |invocations| == |names| && Distinct(names)
    requires forall i :: 0 <= i < |names| ==> invocations[i].stepId == stepId && invocations[i].toolName == names[i]
    ensures Times(invocations, stepId, toolName) == if toolName in names then 1 else 0
  {
    if names != [] {
      var n := |names| - 1;
      DistinctToolsOnce(invocations[..n], names[..n], stepId, toolName);
      assert names == names[..n] + [names[n]];
    }
  }

  lemma StepToolsOnce(norm: Normalizer, w: Workflow, policy: Policy, available: Option<set<string>>,
                      step: ExecutionStep, includeOptional: bool, toolName: string)
    requires GoodStep(norm, w, available, step)
    ensures Times(StepInvocations(norm, w, policy, step, includeOptional), step.id, toolName) ==
            if IsInvokedFor(step, includeOptional, toolName) then 1 else 0
  {
    if Runs(step) {
      var names := ToolsToInvoke(step, includeOptional);
      UniqueNormalOfNormal(norm, names);
      InvocationsOfReadyTools(w, policy, step, names);
      forall i | 0 <= i < |names|
        ensures ResolveTool(w, names[i]).toolName == names[i]
      {
        ResolveKeepsName(w, names[i]);
      }
      hide InvocationsFor, UniqueNormal, Filter, ResolveTool;
      DistinctToolsOnce(StepInvocations(norm, w, policy, step, includeOptional), names, step.id, toolName);
    }
  }

  /** The step runs and is ready to use the tool, which is one that it requires, unless optional ones are included. */
  predicate IsInvokedFor(step: ExecutionStep, includeOptional: bool, toolName: string) {
    Runs(step) && toolName in step.readyToolNames && (includeOptional || toolName in step.requiredToolNames)
  }

  lemma AllReadyAreInvoked(step: ExecutionStep, toolName: string)
    ensures IsInvokedFor(step, true, toolName) <==> Runs(step) && toolName in step.readyToolNames
  {
  }

  lemma OtherStepNever(norm: Normalizer, w: Workflow, policy: Policy, step: ExecutionStep, includeOptional: bool,
                       stepId: string, toolName: string)
    requires step.id != stepId
    ensures Times(StepInvocations(norm, w, policy, step, includeOptional), stepId, toolName) == 0
  {
    if Runs(step) {
      InvocationsComeFromStep(step, ResolveAll(w, UniqueNormal(norm, ToolsToInvoke(step, includeOptional))), policy);
    }
    NoInvocationOfOtherSteps(StepInvocations(norm, w, policy, step, includeOptional), stepId, toolName);
  }

  lemma {:induction false} OtherStepsNever(norm: Normalizer, w: Workflow, policy: Policy, steps: seq<ExecutionStep>,
                                           includeOptional: bool, stepId: string, toolName: string)
    requires forall i :: 0 <= i < |steps| ==> steps[i].id != stepId
    ensures Times(PlanInvocations(norm, w, policy, steps, includeOptional), stepId, toolName) == 0
  {
    if steps != [] {
      var init, step := steps[..|steps| - 1], steps[|steps| - 1];
      hide StepInvocations, Times;
      OtherStepsNever(norm, w, policy, init, includeOptional, stepId, toolName);
      OtherStepNever(norm, w, policy, step, includeOptional, stepId, toolName);
      TimesConcat(PlanInvocations(norm, w, policy, init, includeOptional),
                  StepInvocations(norm, w, policy, step, includeOptional), stepId, toolName);
    }
  }

  /** A running step's ready tools are each invoked exactly once for it, and nothing else is; without optional tools,
      only those that it requires. */
  lemma {:induction false} ReadyToolsOnce(norm: Normalizer, w: Workflow, policy: Policy, available: Option<set<string>>,
                                          steps: seq<ExecutionStep>, includeOptional: bool, k: nat, toolName: string)
    requires DistinctStepIds(steps) && k < |steps|
    requires forall i :: 0 <= i < |steps| ==> GoodStep(norm, w, available, steps[i])
    ensures Times(PlanInvocations(norm, w, policy, steps, includeOptional), steps[k].id, toolName) ==
            if IsInvokedFor(steps[k], includeOptional, toolName) then 1 else 0
    decreases |steps|
  {
    var n := |steps| - 1;
    var init, step, id := steps[..n], steps[n], steps[k].id;
    var a, b := PlanInvocations(norm, w, policy, init, includeOptional),
      StepInvocations(norm, w, policy, step, includeOptional);
    assert PlanInvocations(norm, w, policy, steps, includeOptional) == a + b;
    assert DistinctStepIds(init) && forall i :: 0 <= i < n && k == n ==> init[i].id != id;
    hide *;
    TimesConcat(a, b, id, toolName);
    if k < n {
      ReadyToolsOnce(norm, w, policy, available, init, includeOptional, k, toolName);
      OtherStepNever(norm, w, policy, step, includeOptional, id, toolName);
    } else {
      OtherStepsNever(norm, w, policy, init, includeOptional, id, toolName);
      StepToolsOnce(norm, w, policy, available, step, includeOptional, toolName);
    }
  }

  // ----- Cases of the queue -----

  ghost predicate AllRequired(invocations: seq<Invocation>) {
    forall i :: 0 <= i < |invocations| ==> invocations[i].required
  }

  lemma {:induction false} RequiredInvocations(step: ExecutionStep, rs: seq<Resolution>, policy: Policy)
    requires forall i :: 0 <= i < |rs| ==> rs[i].toolName in step.requiredToolNames
    ensures AllRequired(InvocationsFor(step, rs, policy))
  {
    if rs != [] {
      RequiredInvocations(step, rs[..|rs| - 1], policy);
    }
  }

  lemma StepRequiresAll(norm: Normalizer, w: Workflow, policy: Policy, available: Option<set<string>>,
                        step: ExecutionStep)
    requires GoodStep(norm, w, available, step)
    ensures AllRequired(StepInvocations(norm, w, policy, step, false))
  {
    var names := ToolsToInvoke(step, false);
    UniqueNormalOfNormal(norm, names);
    RequiredInvocations(step, ResolveAll(w, names), policy);
    hide InvocationsFor, UniqueNormal, Filter, ResolveTool;
  }

  lemma RequiredInBoth(a: seq<Invocation>, b: seq<Invocation>)
    requires AllRequired(a) && AllRequired(b)
    ensures AllRequired(a + b)
  {
  }

  lemma {:induction false} OnlyRequiredInvocations(norm: Normalizer, w: Workflow, policy: Policy,
                                                   available: Option<set<string>>, steps: seq<ExecutionStep>)
    requires forall i :: 0 <= i < |steps| ==> GoodStep(norm, w, available, steps[i])
    ensures AllRequired(PlanInvocations(norm, w, policy, steps, false))
  {
    if steps != [] {
      var init, step := steps[..|steps| - 1], steps[|steps| - 1];
      hide GoodStep, AllRequired, StepInvocations;
      OnlyRequiredInvocations(norm, w, policy, available, init);
      StepRequiresAll(norm, w, policy, available, step);
      RequiredInBoth(PlanInvocations(norm, w, policy, init, false), StepInvocations(norm, w, policy, step, false));
    } else {
      assert AllRequired([]);
    }
  }

  /** A blocked queue invokes nothing and skips every step. Any other queue invokes tools of running steps
      only, within the budget for tool calls, and only required ones if optional tools are left out. */
  lemma QueueIsBlockedOrFits(norm: Normalizer, w: Workflow, plan: ExecutionPlan, includeOptional: bool,
                             allowWhenBlocked: bool,
                             available: Option<set<string>>)
    requires forall i :: 0 <= i < |plan.steps| ==> GoodStep(norm, w, available, plan.steps[i])
    requires w.executionBudget.Some? ==> w.executionBudget.value.maxToolCalls >= 0
    ensures
      var q := QueueOf(norm, w, plan, includeOptional, allowWhenBlocked);
      && (!Unblocked(plan) && !allowWhenBlocked ==> q.status.QueueBlocked?)
      && (q.invocations == [] <==> q.status.QueueBlocked? || q.status.QueueEmpty?)
      && (q.status.QueueBlocked? ==>
            && |q.skippedStepIds| == |plan.steps|
            && forall i :: 0 <= i < |plan.steps| ==> q.skippedStepIds[i] == plan.steps[i].id)
      && AllComeFrom(plan.steps, q.invocations)
      && (!q.status.QueueBlocked? && w.executionBudget.Some? ==>
          CallSum(q.invocations) <= w.executionBudget.value.maxToolCalls)
      && (!includeOptional ==> AllRequired(q.invocations))
      && (!q.status.QueueBlocked? ==>
            && (q.status.QueuePartial? <==> q.invocations != [] && plan.status.PlanPartial?)
            && forall id :: id in q.skippedStepIds <==> IsLeftOut(plan.steps, id))
      && q.executionBudget == w.executionBudget && q.executionPolicy == Some(plan.executionPolicy)
  {
    forall id
      ensures id in SkippedIds(plan.steps) <==> IsLeftOut(plan.steps, id)
    {
      LeftOutIff(plan.steps, id);
    }
    var invocations := PlanInvocations(norm, w, plan.executionPolicy, plan.steps, includeOptional);
    InvocationsComeFromSteps(norm, w, plan.executionPolicy, plan.steps, includeOptional);
    OnlyRequiredInvocations(norm, w, plan.executionPolicy, available, plan.steps);
    if w.executionBudget.Some? && CallSum(invocations) >= 0 {
      BlockedIff(w.executionBudget.value, |plan.steps|, CallSum(invocations), 0.0);
    }
    hide PlanInvocations, SkippedIds, CallSum, Assess, GoodStep, ComesFrom, IsLeftOut;
  }

  /** Some step of that id does not run. */
  ghost predicate IsLeftOut(steps: seq<ExecutionStep>, id: string) {
    exists k :: 0 <= k < |steps| && steps[k].id == id && !Runs(steps[k])
  }

  lemma {:induction false} LeftOutIff(steps: seq<ExecutionStep>, id: string)
    ensures id in SkippedIds(steps) <==> IsLeftOut(steps, id)
  {
    hide Runs;
    if steps != [] {
      var init := steps[..|steps| - 1];
      LeftOutIff(init, id);
      assert forall k :: 0 <= k < |init| ==> init[k] == steps[k];
      if k :| 0 <= k < |init| && init[k].id == id && !Runs(init[k]) {
        assert steps[k].id == id && !Runs(steps[k]);
      }
    }
  }

  /** A queue is blocked exactly when its plan is and nothing allows that, or when there are more planned steps or
      more tool calls than the budget allows. */
  lemma QueueIsBlockedIff(norm: Normalizer, w: Workflow, plan: ExecutionPlan, includeOptional: bool,
                          allowWhenBlocked: bool)
    ensures
      var calls := CallSum(PlanInvocations(norm, w, plan.executionPolicy, plan.steps, includeOptional));
      QueueOf(norm, w, plan, includeOptional, allowWhenBlocked).status.QueueBlocked? <==>
        || (!Unblocked(plan) && !allowWhenBlocked)
        || (&& w.executionBudget.Some? && calls >= 0
            && (|plan.steps| > w.executionBudget.value.maxPlanningSteps
                || calls > w.executionBudget.value.maxToolCalls || 0 > w.executionBudget.value.maxDurationMs))
  {
    var calls := CallSum(PlanInvocations(norm, w, plan.executionPolicy, plan.steps, includeOptional));
    if w.executionBudget.Some? && calls >= 0 {
      BlockedIff(w.executionBudget.value, |plan.steps|, calls, 0.0);
    }
    hide PlanInvocations, SkippedIds, CallSum, Assess, Unblocked;
  }

  /** What an invocation is made of: the tool of a step, under the joined id, with the step's dependencies, required
      exactly if the step requires the tool, and with the attempts that its retry class allows. */
  lemma InvocationTells(step: ExecutionStep, r: Resolution, policy: Policy)
    requires r.Status() == Ready
    ensures var v := InvocationOf(step, r, policy);
            && v.id == step.id + ":" + r.toolName && v.stepId == step.id && v.toolName == r.toolName
            && v.dependsOnStepIds == step.dependsOnStepIds
            && (v.required <==> r.toolName in step.requiredToolNames)
            && Some(v.capability) == r.capability && Some(v.binding) == r.binding && v.provider == v.binding.provider
            && (v.maxAttempts == Some(1) || v.maxAttempts == Some(policy.maxAttemptsPerTool))
            && (v.capability.retryClass == RetryNever ==> v.maxAttempts == Some(1))
            && (v.capability.retryClass != RetryNever ==> v.maxAttempts == Some(policy.maxAttemptsPerTool))
  {
  }
}
