/** From plan to execution: what the planner, the execution plan, the queue and the executor promise
    together. */
module WorkflowRun {
  import opened Wrappers
  import opened ExecutionBudget
  import opened WorkflowTypes
  import opened Planning
  import opened ToolBindings
  import opened ExecutionPlanning
  import opened ToolInvocations
  import opened ToolRuns

  /** An execution plan that can go on to the queue without special leave. */
  ghost predicate Planned(norm: Normalizer, w: Workflow, decision: Decision, available: Option<set<string>>,
                          plan: ExecutionPlan)
  {
    && BuildExecutionPlan(norm, w, decision, available) == Some(plan)
    && Unblocked(plan)
  }

  lemma PlannedSteps(norm: Normalizer, w: Workflow, decision: Decision, available: Option<set<string>>,
                     plan: ExecutionPlan, i: nat)
    requires IsNormalizer(norm) && Planned(norm, w, decision, available, plan) && i < |plan.steps|
    ensures |plan.steps| == |decision.plan.steps|
    ensures plan.steps[i] == PlanExecutionStep(norm, w, available, Ids(decision.plan.steps),
                                               Ids(decision.plan.steps[..i]), decision.plan.steps[i])
    ensures plan.steps[i].blockingReasons == []
    ensures GoodStep(norm, w, available, plan.steps[i])
  {
    UnblockedPlanIsClear(norm, w, decision, available);
    PlanHasExecutionSteps(norm, w, decision, available, plan);
    hide *;
    PlannedStepIsGood(norm, w, available, Ids(decision.plan.steps), Ids(decision.plan.steps[..i]),
                      decision.plan.steps[i]);
  }

  lemma PlanHasExecutionSteps(norm: Normalizer, w: Workflow, decision: Decision, available: Option<set<string>>,
                              plan: ExecutionPlan)
    requires Planned(norm, w, decision, available, plan)
    ensures plan.steps == ExecutionSteps(norm, w, available, decision.plan.steps)
  {
    hide ExecutionSteps, MaximumToolCalls, Assess, NotReady, WithoutContext, UniqueNormal, InSteps, Unblocked,
      HasWarnings;
  }

  /** A planned step keeps the id and the dependencies of its definition, and runs if nothing is against it
      and it is not optional. */
  lemma PlannedStepKeeps(norm: Normalizer, w: Workflow, available: Option<set<string>>, selected: set<string>,
                         seen: set<string>, step: PlanStep)
    ensures var e := PlanExecutionStep(norm, w, available, selected, seen, step);
            && e.id == step.id && e.dependsOnStepIds == step.dependsOnStepIds && e.optional == step.optional
            && (e.blockingReasons == [] && !step.optional ==> Runs(e))
  {
    hide NotReady, WithoutContext, MissingDependencies, LateDependencies, ReadyNames, RequiredNames, OptionalNames,
      UniqueNormal, ResolveAll;
  }

  lemma PlannedStepOf(norm: Normalizer, w: Workflow, decision: Decision, available: Option<set<string>>,
                      plan: ExecutionPlan, i: nat)
    requires IsNormalizer(norm) && Planned(norm, w, decision, available, plan) && i < |plan.steps|
    ensures |plan.steps| == |decision.plan.steps|
    ensures plan.steps[i].id == decision.plan.steps[i].id
      && plan.steps[i].dependsOnStepIds == decision.plan.steps[i].dependsOnStepIds
    ensures plan.steps[i].optional == decision.plan.steps[i].optional
    ensures Runs(plan.steps[i]) || plan.steps[i].optional
    ensures !plan.steps[i].optional ==> forall d :: d in plan.steps[i].dependsOnStepIds ==>
      d in Ids(decision.plan.steps[..i])
  {
    hide *;
    PlannedSteps(norm, w, decision, available, plan, i);
    var steps := decision.plan.steps;
    PlannedStepKeeps(norm, w, available, Ids(steps), Ids(steps[..i]), steps[i]);
    if !plan.steps[i].optional {
      StepRunsIff(norm, w, available, Ids(steps), Ids(steps[..i]), steps[i]);
    }
  }

  /** Every dependency of a step that is not optional is the id of an earlier step. */
  ghost predicate Topological(steps: seq<ExecutionStep>) {
    forall i, d :: 0 <= i < |steps| && !steps[i].optional && d in steps[i].dependsOnStepIds ==> HasIdBefore(steps, i, d)
  }

  ghost predicate HasIdBefore(steps: seq<ExecutionStep>, i: nat, id: string)
    requires i <= |steps|
  {
    exists j :: 0 <= j < i && steps[j].id == id
  }

  lemma StepsAreTopological(es: seq<ExecutionStep>, steps: seq<PlanStep>)
    requires |es| == |steps| && DistinctIds(steps)
    requires forall i :: 0 <= i < |es| ==> es[i].id == steps[i].id
    requires forall i :: 0 <= i < |es| && !es[i].optional ==> forall d :: d in es[i].dependsOnStepIds ==>
      d in Ids(steps[..i])
    ensures DistinctStepIds(es) && Topological(es)
  {
    forall i, d | 0 <= i < |es| && !es[i].optional && d in es[i].dependsOnStepIds
      ensures HasIdBefore(es, i, d)
    {
      assert d in Ids(steps[..i]);
      var j :| 0 <= j < i && steps[..i][j].id == d;
      assert es[j].id == d;
    }
  }

  /** A plan that is not blocked runs no step twice, and every dependency of a step that is not optional
      is planned strictly before it. */
  lemma UnblockedPlanIsTopological(norm: Normalizer, w: Workflow, decision: Decision, available: Option<set<string>>,
                                   plan: ExecutionPlan,
                                   base: seq<string>, profiles: seq<Profile>, tools: set<string>)
    requires IsNormalizer(norm) && Planned(norm, w, decision, available, plan)
    requires decision.plan == PlanOf(norm, w.planningSteps, base, profiles, tools)
    ensures DistinctStepIds(plan.steps) && Topological(plan.steps)
  {
    hide *;
    PlanIsWellFormed(norm, w.planningSteps, base, profiles, tools);
    PlanHasExecutionSteps(norm, w, decision, available, plan);
    forall i | 0 <= i < |plan.steps|
      ensures plan.steps[i].id == decision.plan.steps[i].id
      ensures !plan.steps[i].optional ==> forall d :: d in plan.steps[i].dependsOnStepIds ==>
        d in Ids(decision.plan.steps[..i])
    {
      PlannedStepOf(norm, w, decision, available, plan, i);
    }
    StepsAreTopological(plan.steps, decision.plan.steps);
  }

  /** The default queue of a plan that is not blocked. */
  function DefaultQueue(norm: Normalizer, w: Workflow, plan: ExecutionPlan): Queue {
    QueueOf(norm, w, plan, true, false)
  }

  /** A plan within its budget is refused neither by the queue's own check nor by the executor's preflight
      check, since all three count the same worst case. */
  lemma PlanWithinBudgetIsNotRefused(norm: Normalizer, w: Workflow, decision: Decision, available: Option<set<string>>,
                                     plan: ExecutionPlan,
                                     options: Options, succeeds: (nat, nat) -> bool, clock: nat -> real)
    requires IsNormalizer(norm) && Planned(norm, w, decision, available, plan) && options.executionBudget.None?
    ensures
      var queue := DefaultQueue(norm, w, plan);
      && !queue.status.QueueBlocked?
      && queue.invocations == PlanInvocations(norm, w, plan.executionPolicy, plan.steps, true)
      && plan.maximumToolCalls == CallSum(queue.invocations) == AttemptSum(queue.invocations)
      && !OverBudgetAtOnce(EnvOf(queue, options, succeeds, clock))
  {
    forall i | 0 <= i < |plan.steps|
      ensures GoodStep(norm, w, available, plan.steps[i])
    {
      PlannedSteps(norm, w, decision, available, plan, i);
    }
    BudgetOfPlan(norm, w, decision, available, plan);
    ThreeBoundsAgree(norm, w, plan.executionPolicy, available, plan.steps);
    assert Unblocked(plan);
    hide *;
    QueueOfFittingPlan(norm, w, plan, options, succeeds, clock);
  }

  lemma QueueOfFittingPlan(norm: Normalizer, w: Workflow, plan: ExecutionPlan,
                           options: Options, succeeds: (nat, nat) -> bool, clock: nat -> real)
    requires Unblocked(plan) && options.executionBudget.None?
    requires var invocations := PlanInvocations(norm, w, plan.executionPolicy, plan.steps, true);
             plan.maximumToolCalls == CallSum(invocations) == AttemptSum(invocations)
    requires w.executionBudget.Some? ==>
      !Blocked(Assess(w.executionBudget.value, |plan.steps|, plan.maximumToolCalls, 0.0))
    ensures
      var queue := DefaultQueue(norm, w, plan);
      && !queue.status.QueueBlocked?
      && queue.invocations == PlanInvocations(norm, w, plan.executionPolicy, plan.steps, true)
      && !OverBudgetAtOnce(EnvOf(queue, options, succeeds, clock))
  {
    hide PlanInvocations, SkippedIds, CallSum, AttemptSum, Assess, Blocked;
    if w.executionBudget.Some? {
      BlockedIff(w.executionBudget.value, |plan.steps|, plan.maximumToolCalls, 0.0);
      BlockedIff(w.executionBudget.value, 0, plan.maximumToolCalls, 0.0);
    }
  }

  lemma BudgetOfPlan(norm: Normalizer, w: Workflow, decision: Decision, available: Option<set<string>>,
                     plan: ExecutionPlan)
    requires Planned(norm, w, decision, available, plan)
    ensures ValidPolicy(plan.executionPolicy)
    ensures plan.maximumToolCalls == MaximumToolCalls(w, plan.executionPolicy, plan.steps)
    ensures w.executionBudget.Some? ==>
      && ValidBudget(w.executionBudget.value)
      && !Blocked(Assess(w.executionBudget.value, |plan.steps|, plan.maximumToolCalls, 0.0))
  {
    UnblockedPlanIsClear(norm, w, decision, available);
    hide ExecutionSteps, MaximumToolCalls, Assess, NotReady, WithoutContext, UniqueNormal, InSteps, Unblocked;
  }

  /** In the default queue, a tool that the definition of a planned step requires is invoked exactly once for that
      step if the step runs and nothing restricts the available tools or the tool is among them, and otherwise
      never. A step that is not optional always runs. */
  lemma RequiredToolsInvokedOnce(norm: Normalizer, w: Workflow, decision: Decision, available: Option<set<string>>,
                                 plan: ExecutionPlan,
                                 base: seq<string>, profiles: seq<Profile>, tools: set<string>, i: nat, tool: string)
    requires IsNormalizer(norm) && Planned(norm, w, decision, available, plan)
    requires decision.plan == PlanOf(norm, w.planningSteps, base, profiles, tools) && i < |plan.steps|
    ensures plan.steps[i].id in StepsById(w.planningSteps) && (!plan.steps[i].optional ==> Runs(plan.steps[i]))
    ensures RequiresTool(norm, StepsById(w.planningSteps)[plan.steps[i].id], tool) ==>
      Times(DefaultQueue(norm, w, plan).invocations, plan.steps[i].id, tool)
        == if Runs(plan.steps[i]) && IsAvailable(tools, tool) then 1 else 0
  {
    hide *;
    PlannedStepOf(norm, w, decision, available, plan, i);
    PlanStepIsTraced(norm, w.planningSteps, base, profiles, tools, i);
    var definition := StepsById(w.planningSteps)[plan.steps[i].id];
    TracedToolsAreAvailable(norm, definition, tools, tool);
    if IsAvailable(tools, tool) {
      if RequiresTool(norm, definition, tool) {
        PlannedToolsInvokedOnce(norm, w, decision, available, plan, base, profiles, tools, i, tool);
      }
    } else {
      OtherToolsAreNotInvoked(norm, w, decision, available, plan, base, profiles, tools, i, tool);
    }
  }

  /** A tool that a step of the plan does not name is never invoked for it. */
  lemma OtherToolsAreNotInvoked(norm: Normalizer, w: Workflow, decision: Decision, available: Option<set<string>>,
                                plan: ExecutionPlan,
                                base: seq<string>, profiles: seq<Profile>, tools: set<string>, i: nat, tool: string)
    requires IsNormalizer(norm) && Planned(norm, w, decision, available, plan)
    requires decision.plan == PlanOf(norm, w.planningSteps, base, profiles, tools)
    requires i < |plan.steps| == |decision.plan.steps|
    requires tool !in decision.plan.steps[i].requiredToolHints && tool !in decision.plan.steps[i].toolHints
    ensures Times(DefaultQueue(norm, w, plan).invocations, plan.steps[i].id, tool) == 0
  {
    hide *;
    var steps := decision.plan.steps;
    PlannedSteps(norm, w, decision, available, plan, i);
    UnblockedPlanIsTopological(norm, w, decision, available, plan, base, profiles, tools);
    DefaultInvocations(norm, w, decision, available, plan);
    BudgetOfPlan(norm, w, decision, available, plan);
    AllStepsAreGood(norm, w, decision, available, plan);
    PlanIsWellFormed(norm, w.planningSteps, base, profiles, tools);
    ReadyToolIsNamed(norm, w, available, Ids(steps), Ids(steps[..i]), steps[i], tool);
    AllReadyAreInvoked(plan.steps[i], tool);
    ReadyToolsOnce(norm, w, plan.executionPolicy, available, plan.steps, true, i, tool);
  }

  lemma ReadyToolIsNamed(norm: Normalizer, w: Workflow, available: Option<set<string>>, selected: set<string>,
                         seen: set<string>, step: PlanStep, tool: string)
    requires NormalTools(norm, step)
    ensures tool in PlanExecutionStep(norm, w, available, selected, seen, step).readyToolNames ==>
      tool in step.requiredToolHints || tool in step.toolHints
  {
    var required, optional := RequiredNames(step), OptionalNames(step);
    UniqueIsDistinct(step.requiredToolHints);
    UniqueIsDistinct(step.toolHints);
    UniqueNormalOfNormal(norm, required);
    UniqueNormalOfNormal(norm, optional);
    var rs := ResolveAll(w, required) + ResolveAll(w, optional);
    UniqueIsDistinct(UsableNames(rs, available));
    hide UniqueNormal, RequiredNames, OptionalNames, UsableNames, Usable, Unique, ResolveTool;
    if i :| 0 <= i < |rs| && rs[i].toolName == tool {
      assert rs[i] == ResolveTool(w, (required + optional)[i]);
      ResolveKeepsName(w, (required + optional)[i]);
      assert tool in required + optional;
    }
  }

  /** Each required tool of a running step of the plan is invoked exactly once for that step. */
  lemma PlannedToolsInvokedOnce(norm: Normalizer, w: Workflow, decision: Decision, available: Option<set<string>>,
                                 plan: ExecutionPlan,
                                 base: seq<string>, profiles: seq<Profile>, tools: set<string>, i: nat, tool: string)
    requires IsNormalizer(norm) && Planned(norm, w, decision, available, plan)
    requires decision.plan == PlanOf(norm, w.planningSteps, base, profiles, tools)
    requires i < |plan.steps| && tool in decision.plan.steps[i].requiredToolHints
    ensures |plan.steps| == |decision.plan.steps| && (!plan.steps[i].optional ==> Runs(plan.steps[i]))
    ensures Times(DefaultQueue(norm, w, plan).invocations, plan.steps[i].id, tool) == if Runs(plan.steps[i]) then 1
      else 0
  {
    var steps := decision.plan.steps;
    PlannedSteps(norm, w, decision, available, plan, i);
    PlannedStepOf(norm, w, decision, available, plan, i);
    UnblockedPlanIsTopological(norm, w, decision, available, plan, base, profiles, tools);
    PlanWithinBudgetIsNotRefused(norm, w, decision, available, plan, Options(None, false, None), (i, a) => true,
                                 t => 0.0);
    BudgetOfPlan(norm, w, decision, available, plan);
    forall k | 0 <= k < |plan.steps|
      ensures GoodStep(norm, w, available, plan.steps[k])
    {
      PlannedSteps(norm, w, decision, available, plan, k);
    }
    ReadyToolsOnce(norm, w, plan.executionPolicy, available, plan.steps, true, i, tool);
    if Runs(plan.steps[i]) {
      PlanIsWellFormed(norm, w.planningSteps, base, profiles, tools);
      assert NormalTools(norm, steps[i]);
      RequiredToolIsReady(norm, w, available, Ids(steps), Ids(steps[..i]), steps[i], tool);
    }
  }

  lemma RequiredToolIsReady(norm: Normalizer, w: Workflow, available: Option<set<string>>, selected: set<string>,
                            seen: set<string>,
                            step: PlanStep, tool: string)
    requires NormalTools(norm, step) && tool in step.requiredToolHints
    requires var e := PlanExecutionStep(norm, w, available, selected, seen, step);
             e.blockingReasons == [] && Runs(e)
    ensures tool in PlanExecutionStep(norm, w, available, selected, seen, step).readyToolNames
  {
    var names := step.requiredToolHints;
    UniqueOfDistinct(names);
    UniqueNormalOfNormal(norm, names);
    StepRunsIff(norm, w, available, selected, seen, step);
    var required := ResolveAll(w, names);
    var all := required + ResolveAll(w, UniqueNormal(norm, OptionalNames(step)));
    UniqueIsDistinct(UsableNames(all, available));
    var k :| 0 <= k < |names| && names[k] == tool;
    ResolveKeepsName(w, tool);
    assert all[k] == ResolveTool(w, tool);
  }

  /** What a tool needs to be called: a binding from the provider of its capability, all context that it
      requires, and between one and three attempts. */
  ghost predicate Callable(available: Option<set<string>>, v: Invocation) {
    && v.provider == v.capability.provider == v.binding.provider
    && v.capability.name == v.binding.name == v.toolName
    && (available.Some? ==> forall c :: c in v.capability.requiredContext ==> c in available.value)
    && v.maxAttempts.Some? && 1 <= v.maxAttempts.value <= 3
  }

  lemma UsableToolIsCallable(w: Workflow, policy: Policy, available: Option<set<string>>, step: ExecutionStep,
                             name: string)
    requires ValidPolicy(policy) && Usable(ResolveTool(w, name), available)
    ensures Callable(available, InvocationOf(step, ResolveTool(w, name), policy))
  {
  }

  lemma AllStepsAreGood(norm: Normalizer, w: Workflow, decision: Decision, available: Option<set<string>>,
                        plan: ExecutionPlan)
    requires IsNormalizer(norm) && Planned(norm, w, decision, available, plan)
    ensures forall i :: 0 <= i < |plan.steps| ==> GoodStep(norm, w, available, plan.steps[i])
  {
    forall i | 0 <= i < |plan.steps|
      ensures GoodStep(norm, w, available, plan.steps[i])
    {
      hide *;
      PlannedSteps(norm, w, decision, available, plan, i);
    }
  }

  /** The default queue of an unblocked plan holds the invocations of its steps. */
  lemma DefaultInvocations(norm: Normalizer, w: Workflow, decision: Decision, available: Option<set<string>>,
                           plan: ExecutionPlan)
    requires IsNormalizer(norm) && Planned(norm, w, decision, available, plan)
    ensures DefaultQueue(norm, w, plan).invocations == PlanInvocations(norm, w, plan.executionPolicy, plan.steps, true)
  {
    hide *;
    PlanWithinBudgetIsNotRefused(norm, w, decision, available, plan, Options(None, false, None), (i, a) => true,
                                 t => 0.0);
  }

  /** Every invocation of the default queue can be called. */
  lemma InvocationsAreCallable(norm: Normalizer, w: Workflow, decision: Decision, available: Option<set<string>>,
                               plan: ExecutionPlan, i: nat)
    requires IsNormalizer(norm) && Planned(norm, w, decision, available, plan)
    requires i < |DefaultQueue(norm, w, plan).invocations|
    ensures Callable(available, DefaultQueue(norm, w, plan).invocations[i])
  {
    hide *;
    DefaultInvocations(norm, w, decision, available, plan);
    AllStepsAreGood(norm, w, decision, available, plan);
    BudgetOfPlan(norm, w, decision, available, plan);
    var k, t := SourceTool(norm, w, plan.executionPolicy, available, plan.steps, i);
    UsableToolIsCallable(w, plan.executionPolicy, available, plan.steps[k], t);
  }

  /** Every invocation of the default queue is made for a step of the plan, and is required exactly if that step of
      the plan requires its tool. */
  lemma InvocationsAreOfPlan(norm: Normalizer, w: Workflow, decision: Decision, available: Option<set<string>>,
                             plan: ExecutionPlan, i: nat) returns (k: nat)
    requires IsNormalizer(norm) && Planned(norm, w, decision, available, plan)
    requires i < |DefaultQueue(norm, w, plan).invocations|
    ensures k < |decision.plan.steps|
    ensures var v, step := DefaultQueue(norm, w, plan).invocations[i], decision.plan.steps[k];
            && v.stepId == step.id && v.dependsOnStepIds == step.dependsOnStepIds
            && (v.required <==> v.toolName in step.requiredToolHints)
            && v.id == step.id + ":" + v.toolName
            && v.maxAttempts == Some(if v.capability.retryClass == RetryNever then 1
                                     else plan.executionPolicy.maxAttemptsPerTool)
  {
    hide *;
    DefaultInvocations(norm, w, decision, available, plan);
    AllStepsAreGood(norm, w, decision, available, plan);
    BudgetOfPlan(norm, w, decision, available, plan);
    var t;
    k, t := SourceTool(norm, w, plan.executionPolicy, available, plan.steps, i);
    PlannedStepOf(norm, w, decision, available, plan, k);
    PlannedSteps(norm, w, decision, available, plan, k);
    var steps := decision.plan.steps;
    ReadyToolsIff(norm, w, available, Ids(steps), Ids(steps[..k]), steps[k], t);
    InvocationTells(plan.steps[k], ResolveTool(w, t), plan.executionPolicy);
    ResolveKeepsName(w, t);
  }

  // ----- Order -----

  /** A step of the plan with invocations in the default queue. */
  predicate Active(step: ExecutionStep) {
    Runs(step) && step.readyToolNames != []
  }

  lemma ActiveIffInvokes(norm: Normalizer, w: Workflow, policy: Policy, available: Option<set<string>>,
                         step: ExecutionStep)
    requires ValidPolicy(policy) && GoodStep(norm, w, available, step)
    ensures Invokes(norm, w, policy, step, true) <==> Active(step)
  {
    if Runs(step) {
      GoodStepInvocations(norm, w, policy, available, step);
    }
  }

  /** A step that is not optional depends on earlier steps only. */
  lemma RequiredStepDependsBackwards(norm: Normalizer, w: Workflow, policy: Policy, steps: seq<ExecutionStep>, k: nat)
    requires DistinctStepIds(steps) && Topological(steps) && k < |steps| && !steps[k].optional
    ensures DependsBackwards(norm, w, policy, steps, true, k)
  {
    hide Invokes;
    forall m | 0 <= m < |steps| && steps[m].id in steps[k].dependsOnStepIds
      ensures m < k
    {
      assert HasIdBefore(steps, k, steps[m].id);
      var j :| 0 <= j < k && steps[j].id == steps[m].id;
    }
  }

  /** The default queue lists dependency steps first exactly if no optional step that has invocations depends
      on itself or on a later step that has invocations. */
  lemma DefaultQueueIsOrderedIff(norm: Normalizer, w: Workflow, decision: Decision, available: Option<set<string>>,
                                 plan: ExecutionPlan,
                                 base: seq<string>, profiles: seq<Profile>, tools: set<string>)
    requires IsNormalizer(norm) && Planned(norm, w, decision, available, plan)
    requires decision.plan == PlanOf(norm, w.planningSteps, base, profiles, tools)
    ensures DependenciesFirst(DefaultQueue(norm, w, plan).invocations) <==>
            forall k, m | 0 <= k < |plan.steps| && 0 <= m < |plan.steps| && plan.steps[k].optional ::
              Active(plan.steps[k]) && Active(plan.steps[m]) && plan.steps[m].id in plan.steps[k].dependsOnStepIds ==>
                m < k
  {
    hide *;
    var policy, steps := plan.executionPolicy, plan.steps;
    DefaultInvocations(norm, w, decision, available, plan);
    AllStepsAreGood(norm, w, decision, available, plan);
    BudgetOfPlan(norm, w, decision, available, plan);
    UnblockedPlanIsTopological(norm, w, decision, available, plan, base, profiles, tools);
    QueueIsOrderedIff(norm, w, policy, steps, true);
    forall k | 0 <= k < |steps|
      ensures Invokes(norm, w, policy, steps[k], true) <==> Active(steps[k])
      ensures !steps[k].optional ==> DependsBackwards(norm, w, policy, steps, true, k)
      ensures DependsBackwards(norm, w, policy, steps, true, k) <==>
              forall m | 0 <= m < |steps| && Invokes(norm, w, policy, steps[m], true) ::
                steps[m].id in steps[k].dependsOnStepIds ==> m < k
    {
      ActiveIffInvokes(norm, w, policy, available, steps[k]);
      BackwardsMeans(norm, w, policy, steps, k);
      if !steps[k].optional {
        RequiredStepDependsBackwards(norm, w, policy, steps, k);
      }
    }
  }

  lemma BackwardsMeans(norm: Normalizer, w: Workflow, policy: Policy, steps: seq<ExecutionStep>, k: nat)
    requires k < |steps|
    ensures DependsBackwards(norm, w, policy, steps, true, k) <==>
            forall m | 0 <= m < |steps| && Invokes(norm, w, policy, steps[m], true) ::
              steps[m].id in steps[k].dependsOnStepIds ==> m < k
  {
    hide Invokes;
  }

  /** Whether an invocation belongs to a step of the plan that is not optional. */
  ghost predicate OfRequiredStep(steps: seq<ExecutionStep>, v: Invocation) {
    exists k :: 0 <= k < |steps| && steps[k].id == v.stepId && !steps[k].optional
  }

  lemma RequiredInvocationIsLate(norm: Normalizer, w: Workflow, policy: Policy, steps: seq<ExecutionStep>, i: nat)
    requires DistinctStepIds(steps) && Topological(steps) && i < |PlanInvocations(norm, w, policy, steps, true)|
    requires OfRequiredStep(steps, PlanInvocations(norm, w, policy, steps, true)[i])
    ensures DependenciesBefore(PlanInvocations(norm, w, policy, steps, true), i)
  {
    hide PlanInvocations, Invokes, DependsBackwards, DependenciesBefore, Topological;
    var k := SourceStep(norm, w, policy, steps, true, i);
    RequiredStepDependsBackwards(norm, w, policy, steps, k);
    DependenciesBeforeIff(norm, w, policy, steps, true, i, k);
  }

  /** In every run of the default queue of an unblocked plan, and for every chain of invocations each of which
      depends on the next: if the first was executed, and all but the last belong to steps that are not
      optional, then all others come earlier in the queue and have succeeded. */
  lemma PlannedRunRespectsDependencies(norm: Normalizer, w: Workflow, decision: Decision,
                                       available: Option<set<string>>, plan: ExecutionPlan,
                                       base: seq<string>, profiles: seq<Profile>, tools: set<string>,
                                       options: Options, succeeds: (nat, nat) -> bool, clock: nat -> real,
                                       records: seq<Record>, chain: seq<nat>)
    requires IsNormalizer(norm) && Planned(norm, w, decision, available, plan)
    requires decision.plan == PlanOf(norm, w.planningSteps, base, profiles, tools)
    requires Explains(EnvOf(DefaultQueue(norm, w, plan), options, succeeds, clock), records)
    requires DependencyChain(DefaultQueue(norm, w, plan).invocations, chain)
    requires chain[0] < |records| && Executed(records[chain[0]])
    requires forall k :: 0 <= k < |chain| - 1 ==>
      OfRequiredStep(plan.steps, DefaultQueue(norm, w, plan).invocations[chain[k]])
    ensures forall k :: 1 <= k < |chain| ==>
      chain[k] < chain[0] && chain[k] < |records| && records[chain[k]].Status() == Success
  {
    hide *;
    var env := EnvOf(DefaultQueue(norm, w, plan), options, succeeds, clock);
    var invocations := DefaultQueue(norm, w, plan).invocations;
    DefaultInvocations(norm, w, decision, available, plan);
    UnblockedPlanIsTopological(norm, w, decision, available, plan, base, profiles, tools);
    AsManyRecords(env, records);
    EnvHasInvocations(DefaultQueue(norm, w, plan), options, succeeds, clock);
    ChainIsInRange(invocations, chain);
    forall k | 0 <= k < |chain| - 1
      ensures DependenciesBefore(invocations, chain[k])
    {
      RequiredInvocationIsLate(norm, w, plan.executionPolicy, plan.steps, chain[k]);
    }
    ExecutedChainSucceeded(env, records, chain);
  }

  lemma EnvHasInvocations(queue: Queue, options: Options, succeeds: (nat, nat) -> bool, clock: nat -> real)
    ensures EnvOf(queue, options, succeeds, clock).invocations == queue.invocations
  {
  }

  lemma ChainIsInRange(invocations: seq<Invocation>, chain: seq<nat>)
    requires DependencyChain(invocations, chain)
    ensures |chain| >= 2 && forall k :: 0 <= k < |chain| ==> chain[k] < |invocations|
  {
  }
}
