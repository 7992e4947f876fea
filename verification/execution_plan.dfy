/** The execution plan: what stands in the way of each planned step, and a bound on the tool calls. */
module ExecutionPlanning {
  import opened Wrappers
  import opened ExecutionBudget
  import opened WorkflowTypes
  import opened Planning
  import opened ToolBindings

  datatype StepStatus = StepReady | StepBlocked | StepOptionalSkipped | StepPartial
  datatype PlanStatus = PlanReady | PlanNeedsClarification | PlanBlocked | PlanPartial

  datatype StepReason =
    | ToolNotReady(toolName: string, status: ResolutionStatus)
    | MissingContext(toolName: string)
    | MissingDependency(dependencyId: string)
    | OutOfOrderDependency(dependencyId: string)

  datatype ExecutionStep = ExecutionStep(
    id: string,
    optional: bool,
    dependsOnStepIds: seq<string>,
    status: StepStatus,
    requiredToolNames: seq<string>,
    readyToolNames: seq<string>,
    blockingReasons: seq<StepReason>,
    warnings: seq<StepReason>)

  datatype PlanReason =
    | ClarificationRequired(ruleId: string)
    | MissingPlanningStep(stepId: string)
    | RequiredToolUnavailable(toolName: string)
    | WorkflowReason(reason: StepReason)
    | InStep(stepId: string, reason: StepReason)
    | OverBudget(violation: Violation)

  datatype ExecutionPlan = ExecutionPlan(
    status: PlanStatus,
    steps: seq<ExecutionStep>,
    blockingReasons: seq<PlanReason>,
    maximumToolCalls: nat,
    budgetAssessment: Option<Assessment>,
    executionPolicy: Policy)

  /** What execution planning takes from a decision. */
  datatype Decision = Decision(
    plan: Plan,
    needsClarification: bool,
    blockingRuleIds: seq<string>,
    requiredToolHints: seq<string>,
    missingRequiredToolHints: seq<string>,
    missingToolHints: seq<string>)

  // ----- One step -----

  function NotReady(rs: seq<Resolution>): (reasons: seq<StepReason>)
    ensures reasons == [] <==> forall i :: 0 <= i < |rs| ==> rs[i].Status() == Ready
  {
    if rs == [] then []
    else
      (if rs[0].Status() == Ready then [] else [ToolNotReady(rs[0].toolName, rs[0].Status())])
      + NotReady(rs[1..])
  }

  function WithoutContext(rs: seq<Resolution>, available: Option<set<string>>): (reasons: seq<StepReason>)
    ensures reasons == [] <==> forall i :: 0 <= i < |rs| ==> HasContext(rs[i], available)
  {
    if rs == [] then []
    else
      (if HasContext(rs[0], available) then [] else [MissingContext(rs[0].toolName)])
      + WithoutContext(rs[1..], available)
  }

  function MissingDependencies(dependencies: seq<string>, selected: set<string>): (reasons: seq<StepReason>)
    ensures reasons == [] <==> forall i :: 0 <= i < |dependencies| ==> dependencies[i] in selected
  {
    if dependencies == [] then []
    else
      (if dependencies[0] in selected then [] else [MissingDependency(dependencies[0])])
      + MissingDependencies(dependencies[1..], selected)
  }

  function LateDependencies(dependencies: seq<string>, selected: set<string>,
                            seen: set<string>): (reasons: seq<StepReason>)
    ensures reasons == [] <==>
      forall i :: 0 <= i < |dependencies| ==> dependencies[i] in selected ==> dependencies[i] in seen
  {
    if dependencies == [] then []
    else (if dependencies[0] in selected && dependencies[0] !in seen then [OutOfOrderDependency(dependencies[0])]
          else [])
         + LateDependencies(dependencies[1..], selected, seen)
  }

  function UsableNames(rs: seq<Resolution>, available: Option<set<string>>): (names: seq<string>)
    ensures forall n :: n in names <==> exists i :: 0 <= i < |rs| && rs[i].toolName == n && Usable(rs[i], available)
  {
    if rs == [] then []
    else
      var rest := UsableNames(rs[1..], available);
      assert rs == [rs[0]] + rs[1..];
      if Usable(rs[0], available) then [rs[0].toolName] + rest else rest
  }

  function RequiredNames(step: PlanStep): seq<string> {
    Unique(step.requiredToolHints)
  }

  function OptionalNames(step: PlanStep): seq<string> {
    Filter(Unique(step.toolHints), t => t !in RequiredNames(step))
  }

  function ReadyNames(norm: Normalizer, w: Workflow, available: Option<set<string>>, step: PlanStep): seq<string> {
    Unique(UsableNames(ResolveAll(w, UniqueNormal(norm, RequiredNames(step)))
                       + ResolveAll(w, UniqueNormal(norm, OptionalNames(step))), available))
  }

  function PlanExecutionStep(norm: Normalizer, w: Workflow, available: Option<set<string>>,
                             selected: set<string>, seen: set<string>, step: PlanStep): ExecutionStep
  {
    var required := ResolveAll(w, UniqueNormal(norm, RequiredNames(step)));
    var optional := ResolveAll(w, UniqueNormal(norm, OptionalNames(step)));
    var dependencyReasons := MissingDependencies(step.dependsOnStepIds, selected)
      + LateDependencies(step.dependsOnStepIds, selected, seen);
    var requiredGaps := NotReady(required) + WithoutContext(required, available);
    var optionalGaps := NotReady(optional) + WithoutContext(optional, available);
    var blocking := if step.optional then [] else requiredGaps + dependencyReasons;
    ExecutionStep(
      step.id, step.optional, step.dependsOnStepIds,
      if step.optional && requiredGaps != [] then StepOptionalSkipped
      else if blocking != [] then StepBlocked
      else if optionalGaps != [] then StepPartial
      else StepReady,
      RequiredNames(step),
      ReadyNames(norm, w, available, step),
      blocking,
      (if step.optional then requiredGaps + dependencyReasons else []) + optionalGaps)
  }

  function Ids(steps: seq<PlanStep>): set<string> {
    set i | 0 <= i < |steps| :: steps[i].id
  }

  /** Each step sees exactly the steps planned before it. */
  function ExecutionSteps(norm: Normalizer, w: Workflow, available: Option<set<string>>,
                          steps: seq<PlanStep>): (es: seq<ExecutionStep>)
    ensures |es| == |steps|
    ensures forall i :: 0 <= i < |steps| ==>
      es[i] == PlanExecutionStep(norm, w, available, Ids(steps), Ids(steps[..i]), steps[i])
  {
    seq(|steps|, i requires 0 <= i < |steps| => PlanExecutionStep(norm, w, available, Ids(steps), Ids(steps[..i]),
                                                                  steps[i]))
  }

  /** The loop over the planned steps, with `seenStepIds` growing as it goes. */
  method BuildExecutionSteps(norm: Normalizer, w: Workflow, available: Option<set<string>>, steps: seq<PlanStep>)
    returns (result: seq<ExecutionStep>)
    ensures result == ExecutionSteps(norm, w, available, steps)
  {
    hide PlanExecutionStep;
    var selectedStepIds := Ids(steps);
    var seenStepIds: set<string> := {};
    result := [];
    for i := 0 to |steps|
      invariant |result| == i && seenStepIds == Ids(steps[..i])
      invariant forall j :: 0 <= j < i ==>
        result[j] == PlanExecutionStep(norm, w, available, Ids(steps), Ids(steps[..j]), steps[j])
    {
      result := result + [PlanExecutionStep(norm, w, available, selectedStepIds, seenStepIds, steps[i])];
      IdsOfPrefix(steps, i);
      seenStepIds := seenStepIds + {steps[i].id};
    }
  }

  lemma IdsOfPrefix(steps: seq<PlanStep>, i: nat)
    requires i < |steps|
    ensures Ids(steps[..i + 1]) == Ids(steps[..i]) + {steps[i].id}
  {
    forall id
      ensures id in Ids(steps[..i + 1]) <==> id in Ids(steps[..i]) + {steps[i].id}
    {
      if id in Ids(steps[..i + 1]) {
        var j :| 0 <= j < i + 1 && steps[..i + 1][j].id == id;
        assert j < i ==> steps[..i][j].id == id;
      }
      if id in Ids(steps[..i]) {
        var j :| 0 <= j < i && steps[..i][j].id == id;
        assert steps[..i + 1][j].id == id;
      }
      assert steps[..i + 1][i].id == steps[i].id;
    }
  }

  // ----- The bound on tool calls -----

  function AttemptsOf(w: Workflow, policy: Policy, toolName: string): int {
    var capability := FindCapability(w.tools, toolName);
    if capability.Some? && capability.value.retryClass.RetryNever? then 1 else policy.maxAttemptsPerTool
  }

  function SumAttempts(w: Workflow, policy: Policy, toolNames: seq<string>): int {
    if toolNames == [] then 0
    else SumAttempts(w, policy, toolNames[..|toolNames| - 1]) + AttemptsOf(w, policy, toolNames[|toolNames| - 1])
  }

  predicate Runs(step: ExecutionStep) {
    !step.status.StepBlocked? && !step.status.StepOptionalSkipped?
  }

  /** `getMaximumPlannedToolCalls`. */
  function MaximumToolCalls(w: Workflow, policy: Policy, steps: seq<ExecutionStep>): int {
    if steps == [] then 0
    else
      MaximumToolCalls(w, policy, steps[..|steps| - 1])
      + if Runs(steps[|steps| - 1]) then SumAttempts(w, policy, steps[|steps| - 1].readyToolNames) else 0
  }

  lemma {:induction false} SumAttemptsIsNatural(w: Workflow, policy: Policy, toolNames: seq<string>)
    requires ValidPolicy(policy)
    ensures SumAttempts(w, policy, toolNames) >= 0
  {
    if toolNames != [] {
      SumAttemptsIsNatural(w, policy, toolNames[..|toolNames| - 1]);
    }
  }

  lemma {:induction false} MaximumIsNatural(w: Workflow, policy: Policy, steps: seq<ExecutionStep>)
    requires ValidPolicy(policy)
    ensures MaximumToolCalls(w, policy, steps) >= 0
  {
    if steps != [] {
      MaximumIsNatural(w, policy, steps[..|steps| - 1]);
      SumAttemptsIsNatural(w, policy, steps[|steps| - 1].readyToolNames);
    }
  }

  // ----- The plan -----

  function InSteps(steps: seq<ExecutionStep>): (reasons: seq<PlanReason>)
    ensures reasons == [] <==> forall i :: 0 <= i < |steps| ==> steps[i].blockingReasons == []
  {
    if steps == [] then []
    else
      var here := steps[0].blockingReasons;
      seq(|here|, i requires 0 <= i < |here| => InStep(steps[0].id, here[i])) + InSteps(steps[1..])
  }

  /** One reason for each item of a list. */
  function Reasons<T>(items: seq<T>, reason: T -> PlanReason): (reasons: seq<PlanReason>)
    ensures |reasons| == |items|
    ensures forall i :: 0 <= i < |items| ==> reasons[i] == reason(items[i])
  {
    seq(|items|, i requires 0 <= i < |items| => reason(items[i]))
  }

  predicate HasWarnings(steps: seq<ExecutionStep>) {
    exists i :: 0 <= i < |steps|
      && (steps[i].warnings != [] || steps[i].status.StepPartial? || steps[i].status.StepOptionalSkipped?)
  }

  function ResolvePolicy(policy: Option<Policy>): Policy {
    if policy.Some? then policy.value else DEFAULT_POLICY
  }

  /** Building a plan throws exactly when the workflow's policy or budget is not valid. */
  predicate WellConfigured(w: Workflow) {
    ValidPolicy(ResolvePolicy(w.executionPolicy)) && (w.executionBudget.Some? ==> ValidBudget(w.executionBudget.value))
  }

  function BuildExecutionPlan(norm: Normalizer, w: Workflow, decision: Decision,
                              available: Option<set<string>>): Option<ExecutionPlan>
  {
    if !WellConfigured(w) then None
    else
      var policy := ResolvePolicy(w.executionPolicy);
      var steps := ExecutionSteps(norm, w, available, decision.plan.steps);
      MaximumIsNatural(w, policy, steps);
      var calls: nat := MaximumToolCalls(w, policy, steps);
      var assessment := if w.executionBudget.Some? then Some(Assess(w.executionBudget.value, |steps|, calls, 0.0))
        else None;
      var required := ResolveAll(w, UniqueNormal(norm, decision.requiredToolHints));
      var workflowReasons := NotReady(required) + WithoutContext(required, available);
      var violations := if assessment.Some? then assessment.value.violations else [];
      var blocking :=
        Reasons(decision.blockingRuleIds, id => ClarificationRequired(id))
        + Reasons(decision.plan.missingPlanningSteps, id => MissingPlanningStep(id))
        + Reasons(decision.missingRequiredToolHints, tool => RequiredToolUnavailable(tool))
        + Reasons(workflowReasons, reason => WorkflowReason(reason))
        + InSteps(steps)
        + Reasons(violations, violation => OverBudget(violation));
      var status :=
        if decision.needsClarification then PlanNeedsClarification
        else if blocking != [] then PlanBlocked
        else if decision.missingToolHints != [] || HasWarnings(steps) then PlanPartial
        else PlanReady;
      Some(ExecutionPlan(status, steps, blocking, calls, assessment, policy))
  }

  /** A plan that is neither blocked nor waiting for clarification has nothing in its way anywhere. */
  predicate Unblocked(plan: ExecutionPlan) {
    plan.status.PlanReady? || plan.status.PlanPartial?
  }

  lemma UnblockedPlanIsClear(norm: Normalizer, w: Workflow, decision: Decision, available: Option<set<string>>)
    requires var p := BuildExecutionPlan(norm, w, decision, available); p.Some? && Unblocked(p.value)
    ensures
      var plan := BuildExecutionPlan(norm, w, decision, available).value;
      && (forall i :: 0 <= i < |plan.steps| ==> plan.steps[i].blockingReasons == [])
      && decision.plan.missingPlanningSteps == [] && decision.missingRequiredToolHints == []
        && !decision.needsClarification
      && (plan.budgetAssessment.Some? ==> !Blocked(plan.budgetAssessment.value))
  {
    hide ExecutionSteps, NotReady, WithoutContext, MaximumToolCalls, Assess, UniqueNormal, ResolveAll;
  }

  // ----- What runs, and what is not blocked -----

  /** A step runs exactly when its required tools are usable and, unless it is optional, every dependency is
      planned and comes earlier. Only a step that is not optional can be blocked, namely by not running. */
  lemma StepRunsIff(norm: Normalizer, w: Workflow, available: Option<set<string>>,
                    selected: set<string>, seen: set<string>, step: PlanStep)
    ensures var e := PlanExecutionStep(norm, w, available, selected, seen, step);
            && (Runs(e) <==>
                  && AllUsable(w, UniqueNormal(norm, RequiredNames(step)), available)
                  && (step.optional || forall d :: d in step.dependsOnStepIds ==> d in selected && d in seen))
            && (e.blockingReasons == [] <==> step.optional || Runs(e))
  {
    var names, dependencies := UniqueNormal(norm, RequiredNames(step)), step.dependsOnStepIds;
    UsableIff(w, names, available);
    var missing, late := MissingDependencies(dependencies, selected), LateDependencies(dependencies, selected, seen);
    assert missing + late == [] <==> missing == [] && late == [];
    var rs := ResolveAll(w, names);
    var gaps := NotReady(rs) + WithoutContext(rs, available);
    assert gaps + (missing + late) == [] <==> gaps == [] && missing + late == [];
    hide UniqueNormal, NotReady, WithoutContext, ResolveAll, RequiredNames, OptionalNames, ReadyNames, AllUsable,
         MissingDependencies, LateDependencies;
    assert (forall k :: 0 <= k < |dependencies| ==> dependencies[k] in selected && dependencies[k] in seen) <==>
           forall d :: d in dependencies ==> d in selected && d in seen;
  }

  /** Nothing is in the way of step `i` of a plan: it is optional, or all tools that it requires are usable
      and all its dependencies are planned before it. */
  ghost predicate StepIsFree(norm: Normalizer, w: Workflow, available: Option<set<string>>, steps: seq<PlanStep>,
                             i: nat)
    requires i < |steps|
  {
    || steps[i].optional
    || (&& AllUsable(w, UniqueNormal(norm, RequiredNames(steps[i])), available)
        && forall d :: d in steps[i].dependsOnStepIds ==> d in Ids(steps[..i]))
  }

  lemma FreeStepIsNotBlocked(norm: Normalizer, w: Workflow, available: Option<set<string>>, steps: seq<PlanStep>,
                             i: nat)
    requires i < |steps|
    ensures StepIsFree(norm, w, available, steps, i) <==>
            PlanExecutionStep(norm, w, available, Ids(steps), Ids(steps[..i]), steps[i]).blockingReasons == []
  {
    StepRunsIff(norm, w, available, Ids(steps), Ids(steps[..i]), steps[i]);
    hide PlanExecutionStep, Runs, AllUsable, UniqueNormal, RequiredNames;
    forall d | d in Ids(steps[..i])
      ensures d in Ids(steps)
    {
      var j :| 0 <= j < i && steps[..i][j].id == d;
      assert steps[j].id == d;
    }
  }

  /** A plan goes on unblocked exactly when nothing needs clarification, no step and no required tool is
      missing, the workflow's required tools are usable, nothing is in the way of any planned step, and the
      number of steps and the worst case of tool calls are within the budget. */
  lemma PlanIsUnblockedIff(norm: Normalizer, w: Workflow, decision: Decision, available: Option<set<string>>)
    requires BuildExecutionPlan(norm, w, decision, available).Some?
    ensures
      var plan, steps := BuildExecutionPlan(norm, w, decision, available).value, decision.plan.steps;
      Unblocked(plan) <==>
        && !decision.needsClarification && decision.blockingRuleIds == []
        && decision.plan.missingPlanningSteps == [] && decision.missingRequiredToolHints == []
        && AllUsable(w, UniqueNormal(norm, decision.requiredToolHints), available)
        && (forall i :: 0 <= i < |steps| ==> StepIsFree(norm, w, available, steps, i))
        && (w.executionBudget.Some? ==>
              && |steps| <= w.executionBudget.value.maxPlanningSteps
              && plan.maximumToolCalls <= w.executionBudget.value.maxToolCalls)
  {
    var plan, steps := BuildExecutionPlan(norm, w, decision, available).value, decision.plan.steps;
    UsableIff(w, UniqueNormal(norm, decision.requiredToolHints), available);
    if w.executionBudget.Some? {
      BlockedIff(w.executionBudget.value, |steps|, plan.maximumToolCalls, 0.0);
    }
    UnblockedIffNoReason(norm, w, decision, available);
    assert plan.steps == ExecutionSteps(norm, w, available, steps);
    assert w.executionBudget.Some? ==>
      plan.budgetAssessment == Some(Assess(w.executionBudget.value, |steps|, plan.maximumToolCalls, 0.0));
    forall i | 0 <= i < |steps|
      ensures StepIsFree(norm, w, available, steps, i) <==> plan.steps[i].blockingReasons == []
    {
      FreeStepIsNotBlocked(norm, w, available, steps, i);
    }
    hide BuildExecutionPlan, ExecutionSteps, NotReady, WithoutContext, Assess, UniqueNormal, ResolveAll, AllUsable,
         StepIsFree, PlanExecutionStep;
  }

  lemma UnblockedIffNoReason(norm: Normalizer, w: Workflow, decision: Decision, available: Option<set<string>>)
    requires BuildExecutionPlan(norm, w, decision, available).Some?
    ensures
      var plan := BuildExecutionPlan(norm, w, decision, available).value;
      var required := ResolveAll(w, UniqueNormal(norm, decision.requiredToolHints));
      Unblocked(plan) <==>
        && !decision.needsClarification && decision.blockingRuleIds == []
        && decision.plan.missingPlanningSteps == [] && decision.missingRequiredToolHints == []
        && NotReady(required) + WithoutContext(required, available) == []
        && InSteps(plan.steps) == []
        && (w.executionBudget.Some? ==> !Blocked(plan.budgetAssessment.value))
  {
    hide ExecutionSteps, NotReady, WithoutContext, MaximumToolCalls, Assess, UniqueNormal, ResolveAll, HasWarnings,
      InSteps;
  }

  lemma UsableIff(w: Workflow, names: seq<string>, available: Option<set<string>>)
    ensures var rs := ResolveAll(w, names);
            NotReady(rs) + WithoutContext(rs, available) == [] <==> AllUsable(w, names, available)
  {
    var rs := ResolveAll(w, names);
    assert NotReady(rs) + WithoutContext(rs, available) == [] <==>
      NotReady(rs) == [] && WithoutContext(rs, available) == [];
    hide NotReady, WithoutContext, ResolveAll;
  }

  // ----- Statuses and reasons -----

  /** What stands against a step, read off its definition: a required tool that cannot be resolved or lacks
      context, or a dependency that is not planned or comes later. */
  ghost predicate StandsAgainst(w: Workflow, names: seq<string>, available: Option<set<string>>, r: StepReason) {
    match r
    case ToolNotReady(t, status) => t in names && status == ResolveTool(w, t).Status() && status != Ready
    case MissingContext(t) => t in names && !HasContext(ResolveTool(w, t), available)
    case _ => false
  }

  ghost predicate DependencyStandsAgainst(dependencies: seq<string>, selected: set<string>, seen: set<string>,
                                          r: StepReason)
  {
    match r
    case MissingDependency(d) => d in dependencies && d !in selected
    case OutOfOrderDependency(d) => d in dependencies && d in selected && d !in seen
    case _ => false
  }

  lemma {:induction false} NotReadyIff(rs: seq<Resolution>, r: StepReason)
    ensures r in NotReady(rs) <==> exists i :: IsNotReady(rs, i, r)
  {
    if rs != [] {
      NotReadyIff(rs[1..], r);
      if i :| IsNotReady(rs, i, r) {
        assert i == 0 || IsNotReady(rs[1..], i - 1, r);
      }
      if i :| IsNotReady(rs[1..], i, r) {
        assert IsNotReady(rs, i + 1, r);
      }
      assert IsNotReady(rs, 0, r) <==> rs[0].Status() != Ready && r == ToolNotReady(rs[0].toolName, rs[0].Status());
    }
  }

  predicate IsNotReady(rs: seq<Resolution>, i: int, r: StepReason) {
    0 <= i < |rs| && rs[i].Status() != Ready && r == ToolNotReady(rs[i].toolName, rs[i].Status())
  }

  lemma {:induction false} WithoutContextIff(rs: seq<Resolution>, available: Option<set<string>>, r: StepReason)
    ensures r in WithoutContext(rs, available) <==> exists i :: IsWithoutContext(rs, available, i, r)
  {
    hide HasContext;
    if rs != [] {
      WithoutContextIff(rs[1..], available, r);
      if i :| IsWithoutContext(rs, available, i, r) {
        assert i == 0 || IsWithoutContext(rs[1..], available, i - 1, r);
      }
      if i :| IsWithoutContext(rs[1..], available, i, r) {
        assert IsWithoutContext(rs, available, i + 1, r);
      }
      assert IsWithoutContext(rs, available, 0, r) <==>
             !HasContext(rs[0], available) && r == MissingContext(rs[0].toolName);
    }
  }

  predicate IsWithoutContext(rs: seq<Resolution>, available: Option<set<string>>, i: int, r: StepReason) {
    0 <= i < |rs| && !HasContext(rs[i], available) && r == MissingContext(rs[i].toolName)
  }

  lemma {:induction false} MissingIff(dependencies: seq<string>, selected: set<string>, r: StepReason)
    ensures r in MissingDependencies(dependencies, selected) <==>
      r.MissingDependency? && r.dependencyId in dependencies && r.dependencyId !in selected
  {
    if dependencies != [] {
      MissingIff(dependencies[1..], selected, r);
      assert dependencies == [dependencies[0]] + dependencies[1..];
    }
  }

  lemma {:induction false} LateIff(dependencies: seq<string>, selected: set<string>, seen: set<string>, r: StepReason)
    ensures r in LateDependencies(dependencies, selected, seen) <==>
      && r.OutOfOrderDependency? && r.dependencyId in dependencies
      && r.dependencyId in selected && r.dependencyId !in seen
  {
    if dependencies != [] {
      LateIff(dependencies[1..], selected, seen, r);
      assert dependencies == [dependencies[0]] + dependencies[1..];
    }
  }

  lemma GapsIff(w: Workflow, names: seq<string>, available: Option<set<string>>, r: StepReason)
    ensures r in NotReady(ResolveAll(w, names)) + WithoutContext(ResolveAll(w, names), available) <==>
            StandsAgainst(w, names, available, r)
  {
    var rs := ResolveAll(w, names);
    NotReadyIff(rs, r);
    WithoutContextIff(rs, available, r);
    hide NotReady, WithoutContext, HasContext, ResolveAll;
    forall i | 0 <= i < |names|
      ensures rs[i].toolName == names[i]
    {
      NamedAsAsked(w, names[i]);
    }
    if StandsAgainst(w, names, available, r) {
      var i :| 0 <= i < |names| && names[i] == r.toolName;
      assert rs[i] == ResolveTool(w, names[i]);
      assert IsNotReady(rs, i, r) || IsWithoutContext(rs, available, i, r);
    }
  }

  lemma NamedAsAsked(w: Workflow, name: string)
    ensures ResolveTool(w, name).toolName == name
  {
  }

  /** The reasons that a planned step is blocked or warns for: if it is optional, everything only warns; if not,
      its required tools and its dependencies block it. Tools that it does not require only warn. */
  lemma StepReasonsIff(norm: Normalizer, w: Workflow, available: Option<set<string>>, selected: set<string>,
                       seen: set<string>, step: PlanStep, r: StepReason)
    ensures var e := PlanExecutionStep(norm, w, available, selected, seen, step);
            var against := StandsAgainst(w, UniqueNormal(norm, RequiredNames(step)), available, r)
                           || DependencyStandsAgainst(step.dependsOnStepIds, selected, seen, r);
            && (r in e.blockingReasons <==> !step.optional && against)
            && (r in e.warnings <==> (step.optional && against)
                                     || StandsAgainst(w, UniqueNormal(norm, OptionalNames(step)), available, r))
  {
    GapsIff(w, UniqueNormal(norm, RequiredNames(step)), available, r);
    GapsIff(w, UniqueNormal(norm, OptionalNames(step)), available, r);
    MissingIff(step.dependsOnStepIds, selected, r);
    LateIff(step.dependsOnStepIds, selected, seen, r);
    hide NotReady, WithoutContext, MissingDependencies, LateDependencies, UniqueNormal, RequiredNames, OptionalNames,
      ResolveAll, StandsAgainst, ReadyNames;
  }

  /** The four statuses of a planned step. */
  lemma StepStatusIff(norm: Normalizer, w: Workflow, available: Option<set<string>>, selected: set<string>,
                      seen: set<string>, step: PlanStep)
    ensures var e := PlanExecutionStep(norm, w, available, selected, seen, step);
            var required := AllUsable(w, UniqueNormal(norm, RequiredNames(step)), available);
            var others := AllUsable(w, UniqueNormal(norm, OptionalNames(step)), available);
            var inOrder := forall d :: d in step.dependsOnStepIds ==> d in selected && d in seen;
            && (e.status == StepOptionalSkipped <==> step.optional && !required)
            && (e.status == StepBlocked <==> !step.optional && !(required && inOrder))
            && (e.status == StepPartial <==> required && (step.optional || inOrder) && !others)
            && (e.status == StepReady <==> required && (step.optional || inOrder) && others)
  {
    StepRunsIff(norm, w, available, selected, seen, step);
    UsableIff(w, UniqueNormal(norm, RequiredNames(step)), available);
    UsableIff(w, UniqueNormal(norm, OptionalNames(step)), available);
    hide NotReady, WithoutContext, MissingDependencies, LateDependencies, UniqueNormal, RequiredNames, OptionalNames,
      ResolveAll, AllUsable, ReadyNames;
  }

  /** The tools that a planned step is ready to use: those it names, required or not, that are usable. */
  lemma ReadyToolsIff(norm: Normalizer, w: Workflow, available: Option<set<string>>, selected: set<string>,
                      seen: set<string>, step: PlanStep, t: string)
    ensures var e := PlanExecutionStep(norm, w, available, selected, seen, step);
            && (t in e.readyToolNames <==>
                  && (t in UniqueNormal(norm, RequiredNames(step)) || t in UniqueNormal(norm, OptionalNames(step)))
                  && Usable(ResolveTool(w, t), available))
            && (t in e.requiredToolNames <==> t in step.requiredToolHints)
  {
    var required, optional := UniqueNormal(norm, RequiredNames(step)), UniqueNormal(norm, OptionalNames(step));
    var rs := ResolveAll(w, required) + ResolveAll(w, optional);
    UniqueIsDistinct(UsableNames(rs, available));
    UniqueIsDistinct(step.requiredToolHints);
    hide UniqueNormal, OptionalNames, UsableNames, Usable, Unique, ResolveTool;
    forall i | 0 <= i < |rs|
      ensures rs[i] == ResolveTool(w, (required + optional)[i]) && rs[i].toolName == (required + optional)[i]
    {
      NamedAsAsked(w, (required + optional)[i]);
    }
    if i :| 0 <= i < |required + optional| && (required + optional)[i] == t {
      assert rs[i].toolName == t;
    }
    assert t in required + optional <==> t in required || t in optional;
  }

  lemma {:induction false} InStepsIff(steps: seq<ExecutionStep>, r: PlanReason)
    ensures r in InSteps(steps) <==> exists i :: IsInStep(steps, i, r)
  {
    if steps != [] {
      InStepsIff(steps[1..], r);
      var here := steps[0].blockingReasons;
      var listed := seq(|here|, i requires 0 <= i < |here| => InStep(steps[0].id, here[i]));
      assert InSteps(steps) == listed + InSteps(steps[1..]);
      hide InSteps;
      if IsInStep(steps, 0, r) {
        var i :| 0 <= i < |here| && here[i] == r.reason;
        assert listed[i] == r;
      }
      assert r in listed ==> IsInStep(steps, 0, r);
      if i :| IsInStep(steps, i, r) {
        assert i == 0 || IsInStep(steps[1..], i - 1, r);
      }
      if i :| IsInStep(steps[1..], i, r) {
        assert IsInStep(steps, i + 1, r);
      }
    }
  }

  predicate IsInStep(steps: seq<ExecutionStep>, i: int, r: PlanReason) {
    0 <= i < |steps| && r.InStep? && r.stepId == steps[i].id && r.reason in steps[i].blockingReasons
  }

  lemma ReasonIff<T>(items: seq<T>, reason: T -> PlanReason, r: PlanReason)
    ensures r in Reasons(items, reason) <==> exists i :: 0 <= i < |items| && r == reason(items[i])
  {
  }

  /** Every reason that blocks a plan, and the four statuses of plans. */
  lemma PlanReasonsIff(norm: Normalizer, w: Workflow, decision: Decision, available: Option<set<string>>,
                       r: PlanReason)
    requires BuildExecutionPlan(norm, w, decision, available).Some?
    ensures var plan := BuildExecutionPlan(norm, w, decision, available).value;
            r in plan.blockingReasons <==>
            match r
            case ClarificationRequired(id) => id in decision.blockingRuleIds
            case MissingPlanningStep(id) => id in decision.plan.missingPlanningSteps
            case RequiredToolUnavailable(t) => t in decision.missingRequiredToolHints
            case WorkflowReason(reason) =>
              StandsAgainst(w, UniqueNormal(norm, decision.requiredToolHints), available, reason)
            case InStep(_, _) => exists i :: IsInStep(plan.steps, i, r)
            case OverBudget(v) =>
              w.executionBudget.Some? && v in plan.budgetAssessment.value.violations
  {
    var plan := BuildExecutionPlan(norm, w, decision, available).value;
    var required := ResolveAll(w, UniqueNormal(norm, decision.requiredToolHints));
    var reasons := NotReady(required) + WithoutContext(required, available);
    var violations := if w.executionBudget.Some? then plan.budgetAssessment.value.violations else [];
    BlockingReasonsAre(norm, w, decision, available);
    InStepsIff(plan.steps, r);
    if r.WorkflowReason? {
      GapsIff(w, UniqueNormal(norm, decision.requiredToolHints), available, r.reason);
    }
    hide BuildExecutionPlan, NotReady, WithoutContext, InSteps, UniqueNormal, ResolveAll, StandsAgainst;
    ReasonIff(decision.blockingRuleIds, id => ClarificationRequired(id), r);
    ReasonIff(decision.plan.missingPlanningSteps, id => MissingPlanningStep(id), r);
    ReasonIff(decision.missingRequiredToolHints, tool => RequiredToolUnavailable(tool), r);
    ReasonIff(reasons, reason => WorkflowReason(reason), r);
    ReasonIff(violations, violation => OverBudget(violation), r);
    hide Reasons;
  }

  lemma BlockingReasonsAre(norm: Normalizer, w: Workflow, decision: Decision, available: Option<set<string>>)
    requires BuildExecutionPlan(norm, w, decision, available).Some?
    ensures var plan := BuildExecutionPlan(norm, w, decision, available).value;
            var required := ResolveAll(w, UniqueNormal(norm, decision.requiredToolHints));
            && (w.executionBudget.Some? <==> plan.budgetAssessment.Some?)
            && plan.blockingReasons ==
               Reasons(decision.blockingRuleIds, id => ClarificationRequired(id))
               + Reasons(decision.plan.missingPlanningSteps, id => MissingPlanningStep(id))
               + Reasons(decision.missingRequiredToolHints, tool => RequiredToolUnavailable(tool))
               + Reasons(NotReady(required) + WithoutContext(required, available), reason => WorkflowReason(reason))
               + InSteps(plan.steps)
               + Reasons(if w.executionBudget.Some? then plan.budgetAssessment.value.violations else [],
                         violation => OverBudget(violation))
  {
    hide ExecutionSteps, MaximumToolCalls, Assess, NotReady, WithoutContext, UniqueNormal, InSteps, HasWarnings;
  }

  /** Building a plan throws exactly when the workflow's policy does not allow one to three attempts, or its budget is
      not valid. */
  lemma PlanThrowsIff(norm: Normalizer, w: Workflow, decision: Decision, available: Option<set<string>>)
    ensures BuildExecutionPlan(norm, w, decision, available).None? <==>
            || (w.executionPolicy.Some? && !(1 <= w.executionPolicy.value.maxAttemptsPerTool <= 3))
            || (w.executionBudget.Some? && !ValidBudget(w.executionBudget.value))
    ensures BuildExecutionPlan(norm, w, decision, available).Some? ==>
      BuildExecutionPlan(norm, w, decision, available).value.executionPolicy
        == if w.executionPolicy.Some? then w.executionPolicy.value else Policy(FailFast, 1)
  {
    hide ExecutionSteps, MaximumToolCalls, Assess, NotReady, WithoutContext, UniqueNormal, InSteps, HasWarnings,
      Reasons;
  }

  /** A plan needs clarification, or else is blocked by some reason, or else is partial if an optional tool is
      missing or a step warns, is partial or left out; otherwise it is ready. */
  lemma PlanStatusIff(norm: Normalizer, w: Workflow, decision: Decision, available: Option<set<string>>)
    requires BuildExecutionPlan(norm, w, decision, available).Some?
    ensures var plan := BuildExecutionPlan(norm, w, decision, available).value;
            var clean := decision.missingToolHints == []
                         && forall i :: 0 <= i < |plan.steps| ==>
                           plan.steps[i].warnings == [] && plan.steps[i].status !in {StepPartial, StepOptionalSkipped};
            && (plan.status == PlanNeedsClarification <==> decision.needsClarification)
            && (plan.status == PlanBlocked <==> !decision.needsClarification && plan.blockingReasons != [])
            && (plan.status == PlanPartial <==>
                  !decision.needsClarification && plan.blockingReasons == [] && !clean)
            && (plan.status == PlanReady <==> !decision.needsClarification && plan.blockingReasons == [] && clean)
  {
    hide ExecutionSteps, MaximumToolCalls, Assess, NotReady, WithoutContext, UniqueNormal, InSteps, Reasons;
  }
}
