/** Small workflows and all that their plans, queues and runs are, among them some that do what a reader may not
    expect. */
module WorkflowExamples {
  import opened Wrappers
  import opened ExecutionBudget
  import opened WorkflowTypes
  import opened Planning
  import opened ToolBindings
  import opened ExecutionPlanning
  import opened ToolInvocations
  import opened ToolRuns
  import opened WorkflowRun
  import opened InvocationIds

  // ----- Workflows given by their steps -----

  /** A step with the tools that it requires. */
  datatype Part = Part(id: string, dependsOn: seq<string>, tools: seq<string>, optional: bool)

  function StepOf(p: Part): StepDefinition {
    StepDefinition(p.id, Fetch, p.dependsOn, [], p.tools, p.optional)
  }

  function StepsOf(parts: seq<Part>): (steps: seq<StepDefinition>)
    ensures |steps| == |parts| && forall i :: 0 <= i < |parts| ==> steps[i] == StepOf(parts[i])
  {
    seq(|parts|, i requires 0 <= i < |parts| => StepOf(parts[i]))
  }

  function IdsOf(parts: seq<Part>): (ids: seq<string>)
    ensures |ids| == |parts| && forall i :: 0 <= i < |parts| ==> ids[i] == parts[i].id
  {
    seq(|parts|, i requires 0 <= i < |parts| => parts[i].id)
  }

  function ToolsOf(parts: seq<Part>): seq<string> {
    if parts == [] then [] else ToolsOf(parts[..|parts| - 1]) + parts[|parts| - 1].tools
  }

  function CapabilityOf(t: string): Capability {
    Capability(t, LocalFunction, RetryNever, [])
  }

  function Capabilities(names: seq<string>): (cs: seq<Capability>)
    ensures |cs| == |names| && forall i :: 0 <= i < |names| ==> cs[i] == CapabilityOf(names[i])
  {
    seq(|names|, i requires 0 <= i < |names| => CapabilityOf(names[i]))
  }

  function Bindings(names: seq<string>): (bs: seq<Binding>)
    ensures |bs| == |names| && forall i :: 0 <= i < |names| ==> bs[i] == Binding(names[i], LocalFunction)
  {
    seq(|names|, i requires 0 <= i < |names| => Binding(names[i], LocalFunction))
  }

  /** All tools are declared and bound, and there is neither a budget nor a policy. */
  function WorkflowOf(parts: seq<Part>): Workflow {
    Workflow(Capabilities(ToolsOf(parts)), Bindings(ToolsOf(parts)), StepsOf(parts), None, None)
  }

  ghost predicate NormalPart(norm: Normalizer, p: Part) {
    && norm(p.id) == Some(p.id)
    && Distinct(p.tools) && (forall t :: t in p.tools ==> norm(t) == Some(t))
    && Distinct(p.dependsOn) && (forall d :: d in p.dependsOn ==> norm(d) == Some(d))
  }

  /** Whether the steps, in this order, can be planned without a reason against them. */
  ghost predicate Fits(norm: Normalizer, parts: seq<Part>) {
    && Distinct(IdsOf(parts))
    && forall i | 0 <= i < |parts| ::
      && NormalPart(norm, parts[i])
      && (parts[i].optional || forall d :: d in parts[i].dependsOn ==> d in IdsOf(parts[..i]))
  }

  // ----- Their plans -----

  /** The tools of a part that planning keeps. */
  function Offered(p: Part, tools: set<string>): seq<string> {
    if tools == {} then p.tools else Filter(p.tools, t => t in tools)
  }

  function PlanStepOf(p: Part, tools: set<string>): PlanStep {
    PlanStep(p.id, Fetch, p.optional, p.dependsOn, [], Offered(p, tools))
  }

  function PlanStepsOf(parts: seq<Part>, tools: set<string>): (steps: seq<PlanStep>)
    ensures |steps| == |parts| && forall i :: 0 <= i < |parts| ==> steps[i] == PlanStepOf(parts[i], tools)
  {
    seq(|parts|, i requires 0 <= i < |parts| => PlanStepOf(parts[i], tools))
  }

  function PlanOfParts(norm: Normalizer, parts: seq<Part>, tools: set<string>): Plan {
    PlanOf(norm, WorkflowOf(parts).planningSteps, IdsOf(parts), [], tools)
  }

  function DecisionOf(plan: Plan): Decision {
    Decision(plan, false, [], [], [], [])
  }

  lemma {:induction false} FilterAll(values: seq<string>, keep: string -> bool)
    requires forall v :: v in values ==> keep(v)
    ensures Filter(values, keep) == values
  {
    if values != [] {
      var n := |values| - 1;
      assert values == values[..n] + [values[n]];
      FilterAll(values[..n], keep);
    }
  }

  lemma FilterNone(values: seq<string>, keep: string -> bool)
    requires forall v :: v in values ==> !keep(v)
    ensures Filter(values, keep) == []
  {
  }

  lemma TracedPart(norm: Normalizer, p: Part, tools: set<string>)
    requires NormalPart(norm, p)
    ensures TracePlanStep(norm, StepOf(p), tools) == PlanStepOf(p, tools)
  {
    UniqueNormalOfNormal(norm, p.dependsOn);
    UniqueNormalOfNormal(norm, p.tools);
    UniqueNormalOfNormal(norm, []);
    hide UniqueNormal;
  }

  lemma {:induction false} PartsAreMapped(parts: seq<Part>, k: nat)
    requires Distinct(IdsOf(parts)) && k < |parts|
    ensures parts[k].id in StepsById(StepsOf(parts)) && StepsById(StepsOf(parts))[parts[k].id] == StepOf(parts[k])
    decreases |parts|
  {
    var n := |parts| - 1;
    assert StepsOf(parts)[..n] == StepsOf(parts[..n]);
    if k < n {
      assert IdsOf(parts)[..n] == IdsOf(parts[..n]);
      PartsAreMapped(parts[..n], k);
      assert IdsOf(parts)[k] != IdsOf(parts)[n];
    }
  }

  lemma KnownStepsArePlanned(norm: Normalizer, steps: seq<StepDefinition>, ids: seq<string>, tools: set<string>)
    requires Distinct(ids) && forall id :: id in ids ==> norm(id) == Some(id) && id in StepsById(steps)
    ensures PlanOf(norm, steps, ids, [], tools) == Plan(Traced(norm, StepsById(steps), ids, tools), [])
  {
    var byId := StepsById(steps);
    UniqueNormalOfNormal(norm, ids);
    FilterAll(ids, id => id in byId);
    FilterNone(ids, id => id !in byId);
    assert OrderedStepIds(norm, byId, ids, ConditionalStepIds([])) == ids;
    hide StepsById, UniqueNormal, Filter, OrderedStepIds, TracePlanStep;
  }

  lemma PartsArePlanned(norm: Normalizer, parts: seq<Part>, tools: set<string>)
    requires Fits(norm, parts)
    ensures PlanOfParts(norm, parts, tools) == Plan(PlanStepsOf(parts, tools), [])
  {
    hide StepsById, UniqueNormal, TracePlanStep, PlanStepOf, StepOf, PlanOf, NormalPart;
    var steps, ids := StepsOf(parts), IdsOf(parts);
    forall k | 0 <= k < |parts|
      ensures ids[k] in StepsById(steps) && norm(ids[k]) == Some(ids[k])
      ensures TracePlanStep(norm, StepsById(steps)[ids[k]], tools) == PlanStepOf(parts[k], tools)
    {
      PartsAreMapped(parts, k);
      TracedPart(norm, parts[k], tools);
      NormalPartHasNormalId(norm, parts[k]);
    }
    KnownStepsArePlanned(norm, steps, ids, tools);
    assert Traced(norm, StepsById(steps), ids, tools) == PlanStepsOf(parts, tools);
  }

  lemma NormalPartHasNormalId(norm: Normalizer, p: Part)
    requires NormalPart(norm, p)
    ensures norm(p.id) == Some(p.id)
  {
  }

  lemma {:induction false} ListedIsFound(names: seq<string>, t: string)
    requires t in names
    ensures FindCapability(Capabilities(names), t) == Some(CapabilityOf(t))
    ensures FindBinding(Bindings(names), t) == Some(Binding(t, LocalFunction))
  {
    var n := |names| - 1;
    if names[n] != t {
      assert names == names[..n] + [names[n]];
      assert Capabilities(names)[..n] == Capabilities(names[..n]) && Bindings(names)[..n] == Bindings(names[..n]);
      ListedIsFound(names[..n], t);
    }
  }

  lemma {:induction false} ToolIsListed(parts: seq<Part>, k: nat, t: string)
    requires k < |parts| && t in parts[k].tools
    ensures t in ToolsOf(parts)
    decreases |parts|
  {
    if k < |parts| - 1 {
      ToolIsListed(parts[..|parts| - 1], k, t);
    }
  }

  lemma OfferedIsRequired(norm: Normalizer, p: Part, tools: set<string>)
    requires NormalPart(norm, p)
    ensures Distinct(Offered(p, tools))
    ensures forall t :: t in Offered(p, tools) ==> t in p.tools && norm(t) == Some(t)
  {
  }

  /** How the tools of a part are resolved. */
  lemma PartIsResolved(norm: Normalizer, parts: seq<Part>, k: nat, tools: set<string>)
    requires k < |parts| && NormalPart(norm, parts[k])
    ensures var w, names := WorkflowOf(parts), Offered(parts[k], tools);
            && AllUsable(w, names, None)
            && forall t :: t in names ==>
              ResolveTool(w, t) == Resolution(t, Some(CapabilityOf(t)), Some(Binding(t, LocalFunction)))
  {
    OfferedIsRequired(norm, parts[k], tools);
    hide Offered, NormalPart, ToolsOf;
    forall t | t in Offered(parts[k], tools)
      ensures ResolveTool(WorkflowOf(parts), t) == Resolution(t, Some(CapabilityOf(t)), Some(Binding(t, LocalFunction)))
    {
      ToolIsListed(parts, k, t);
      ListedIsFound(ToolsOf(parts), t);
    }
  }

  /** The names in a step of the plan are distinct and normal already. */
  lemma PartNames(norm: Normalizer, p: Part, tools: set<string>)
    requires NormalPart(norm, p)
    ensures var step, names := PlanStepOf(p, tools), Offered(p, tools);
            && RequiredNames(step) == UniqueNormal(norm, RequiredNames(step)) == names
            && OptionalNames(step) == UniqueNormal(norm, OptionalNames(step)) == []
  {
    OfferedIsRequired(norm, p, tools);
    UniqueOfDistinct(Offered(p, tools));
    UniqueNormalOfNormal(norm, Offered(p, tools));
    assert Unique([]) == [];
    hide Offered, NormalPart;
  }

  lemma {:induction false} AllNamesAreUsable(w: Workflow, names: seq<string>, available: Option<set<string>>)
    requires AllUsable(w, names, available)
    ensures UsableNames(ResolveAll(w, names), available) == names
  {
    hide Usable;
    if names != [] {
      assert ResolveAll(w, names)[1..] == ResolveAll(w, names[1..]);
      assert forall i :: 0 <= i < |names| - 1 ==> names[1..][i] == names[i + 1];
      AllNamesAreUsable(w, names[1..], available);
      assert names == [names[0]] + names[1..];
    }
  }

  /** A step of the plan runs, and its ready tools are those that planning kept. */
  lemma PartRuns(norm: Normalizer, parts: seq<Part>, k: nat, tools: set<string>, selected: set<string>,
                 seen: set<string>)
    requires k < |parts| && NormalPart(norm, parts[k])
    requires parts[k].optional || forall d :: d in parts[k].dependsOn ==> d in selected && d in seen
    ensures var p := parts[k];
            var e := PlanExecutionStep(norm, WorkflowOf(parts), None, selected, seen, PlanStepOf(p, tools));
            && Runs(e) && e.id == p.id && e.dependsOnStepIds == p.dependsOn && e.optional == p.optional
            && e.blockingReasons == [] && e.readyToolNames == e.requiredToolNames == Offered(p, tools)
  {
    var w, step := WorkflowOf(parts), PlanStepOf(parts[k], tools);
    PartIsResolved(norm, parts, k, tools);
    PartNames(norm, parts[k], tools);
    OfferedIsRequired(norm, parts[k], tools);
    StepRunsIff(norm, w, None, selected, seen, step);
    AllNamesAreUsable(w, Offered(parts[k], tools), None);
    UniqueOfDistinct(Offered(parts[k], tools));
    assert ResolveAll(w, Offered(parts[k], tools)) + ResolveAll(w, []) == ResolveAll(w, Offered(parts[k], tools));
    hide AllUsable, UniqueNormal, RequiredNames, OptionalNames, UsableNames, Unique, Offered, NormalPart, WorkflowOf,
         NotReady, WithoutContext, MissingDependencies, LateDependencies, ResolveTool, Runs;
  }

  lemma EarlierIds(parts: seq<Part>, tools: set<string>, k: nat)
    requires k <= |parts|
    ensures forall d :: d in IdsOf(parts[..k]) ==>
      d in Ids(PlanStepsOf(parts, tools)[..k]) && d in Ids(PlanStepsOf(parts, tools))
  {
    var steps := PlanStepsOf(parts, tools);
    forall d | d in IdsOf(parts[..k])
      ensures d in Ids(steps[..k]) && d in Ids(steps)
    {
      var j :| 0 <= j < k && IdsOf(parts[..k])[j] == d;
      assert steps[..k][j].id == d && steps[j].id == d;
    }
  }

  /** What planning makes of each part. */
  lemma PartStep(norm: Normalizer, parts: seq<Part>, tools: set<string>, k: nat)
    requires Fits(norm, parts) && k < |parts|
    ensures var p, steps := parts[k], PlanStepsOf(parts, tools);
            var e := PlanExecutionStep(norm, WorkflowOf(parts), None, Ids(steps), Ids(steps[..k]), steps[k]);
            && Runs(e) && e.id == p.id && e.dependsOnStepIds == p.dependsOn && e.optional == p.optional
            && e.blockingReasons == [] && e.readyToolNames == e.requiredToolNames == Offered(p, tools)
  {
    hide NormalPart, PlanExecutionStep, Runs, Offered, WorkflowOf;
    EarlierIds(parts, tools, k);
    var steps := PlanStepsOf(parts, tools);
    PartRuns(norm, parts, k, tools, Ids(steps), Ids(steps[..k]));
  }

  lemma NothingRequired(norm: Normalizer, w: Workflow)
    ensures AllUsable(w, UniqueNormal(norm, []), None)
  {
  }

  lemma BuildsWhenConfigured(norm: Normalizer, w: Workflow, decision: Decision, available: Option<set<string>>)
    requires WellConfigured(w)
    ensures BuildExecutionPlan(norm, w, decision, available).Some?
    ensures BuildExecutionPlan(norm, w, decision, available).value.executionPolicy == ResolvePolicy(w.executionPolicy)
  {
    hide ExecutionSteps, MaximumToolCalls, Assess, NotReady, WithoutContext, UniqueNormal, InSteps, HasWarnings;
  }

  /** Steps that fit are planned, and nothing blocks the plan, whatever tools are available. */
  lemma PartsGoOn(norm: Normalizer, parts: seq<Part>, tools: set<string>) returns (plan: ExecutionPlan)
    requires IsNormalizer(norm) && Fits(norm, parts)
    ensures Planned(norm, WorkflowOf(parts), DecisionOf(PlanOfParts(norm, parts, tools)), None, plan)
  {
    var w, decision := WorkflowOf(parts), DecisionOf(PlanOfParts(norm, parts, tools));
    assert WellConfigured(w) && w.executionBudget.None?;
    PartsArePlanned(norm, parts, tools);
    var steps := PlanStepsOf(parts, tools);
    assert decision == DecisionOf(Plan(steps, []));
    NothingRequired(norm, w);
    BuildsWhenConfigured(norm, w, decision, None);
    hide *;
    forall i | 0 <= i < |steps|
      ensures StepIsFree(norm, w, None, steps, i)
    {
      PartStep(norm, parts, tools, i);
      FreeStepIsNotBlocked(norm, w, None, steps, i);
    }
    plan := UnhinderedPlan(norm, w, decision, steps);
  }

  lemma UnhinderedPlan(norm: Normalizer, w: Workflow, decision: Decision, steps: seq<PlanStep>)
    returns (plan: ExecutionPlan)
    requires WellConfigured(w) && w.executionBudget.None? && decision == DecisionOf(Plan(steps, []))
    requires forall i :: 0 <= i < |steps| ==> StepIsFree(norm, w, None, steps, i)
    ensures Planned(norm, w, decision, None, plan)
  {
    NothingRequired(norm, w);
    BuildsWhenConfigured(norm, w, decision, None);
    PlanIsUnblockedIff(norm, w, decision, None);
    plan := BuildExecutionPlan(norm, w, decision, None).value;
    hide BuildExecutionPlan, StepIsFree, UniqueNormal, AllUsable, WellConfigured, Unblocked;
  }

  // ----- Their queues -----

  function InvocationFor(p: Part, t: string): Invocation {
    Invocation(Joined(p.id, t), p.id, p.dependsOn, t, true, LocalFunction, CapabilityOf(t), Binding(t, LocalFunction),
               Some(1))
  }

  function PartInvocations(p: Part, tools: set<string>): (invocations: seq<Invocation>)
    ensures |invocations| == |Offered(p, tools)|
    ensures forall i :: 0 <= i < |invocations| ==> invocations[i] == InvocationFor(p, Offered(p, tools)[i])
  {
    var names := Offered(p, tools);
    seq(|names|, i requires 0 <= i < |names| => InvocationFor(p, names[i]))
  }

  function QueueOfParts(parts: seq<Part>, tools: set<string>): seq<Invocation> {
    if parts == [] then []
    else QueueOfParts(parts[..|parts| - 1], tools) + PartInvocations(parts[|parts| - 1], tools)
  }

  lemma PartIsQueued(norm: Normalizer, parts: seq<Part>, tools: set<string>, policy: Policy, step: ExecutionStep,
                     k: nat)
    requires ValidPolicy(policy) && GoodStep(norm, WorkflowOf(parts), None, step)
    requires k < |parts| && NormalPart(norm, parts[k])
    requires Runs(step) && step.id == parts[k].id && step.dependsOnStepIds == parts[k].dependsOn
    requires step.readyToolNames == step.requiredToolNames == Offered(parts[k], tools)
    ensures StepInvocations(norm, WorkflowOf(parts), policy, step, true) == PartInvocations(parts[k], tools)
  {
    GoodStepInvocations(norm, WorkflowOf(parts), policy, None, step);
    PartIsResolved(norm, parts, k, tools);
    hide StepInvocations, ResolveTool, WorkflowOf, Offered, NormalPart, GoodStep;
  }

  lemma {:induction false} QueueOfEach(norm: Normalizer, w: Workflow, policy: Policy, steps: seq<ExecutionStep>,
                                       parts: seq<Part>, tools: set<string>)
    requires |steps| == |parts|
    requires forall k :: 0 <= k < |steps| ==>
      StepInvocations(norm, w, policy, steps[k], true) == PartInvocations(parts[k], tools)
    ensures PlanInvocations(norm, w, policy, steps, true) == QueueOfParts(parts, tools)
  {
    hide StepInvocations, PartInvocations;
    if steps != [] {
      QueueOfEach(norm, w, policy, steps[..|steps| - 1], parts[..|parts| - 1], tools);
    }
  }

  /** The default queue of the plan, invocation for invocation. */
  lemma PartsAreQueued(norm: Normalizer, parts: seq<Part>, tools: set<string>, plan: ExecutionPlan)
    requires IsNormalizer(norm) && Fits(norm, parts)
    requires Planned(norm, WorkflowOf(parts), DecisionOf(PlanOfParts(norm, parts, tools)), None, plan)
    ensures DefaultQueue(norm, WorkflowOf(parts), plan).invocations == QueueOfParts(parts, tools)
  {
    hide *;
    var w, decision := WorkflowOf(parts), DecisionOf(PlanOfParts(norm, parts, tools));
    DefaultInvocations(norm, w, decision, None, plan);
    AllStepsAreGood(norm, w, decision, None, plan);
    BudgetOfPlan(norm, w, decision, None, plan);
    PlanHasExecutionSteps(norm, w, decision, None, plan);
    PartsArePlanned(norm, parts, tools);
    DecidedSteps(PlanOfParts(norm, parts, tools));
    forall k | 0 <= k < |plan.steps|
      ensures StepInvocations(norm, w, plan.executionPolicy, plan.steps[k], true) == PartInvocations(parts[k], tools)
    {
      PartStep(norm, parts, tools, k);
      FittingPart(norm, parts, k);
      PartIsQueued(norm, parts, tools, plan.executionPolicy, plan.steps[k], k);
    }
    QueueOfEach(norm, w, plan.executionPolicy, plan.steps, parts, tools);
  }

  lemma DecidedSteps(plan: Plan)
    ensures DecisionOf(plan).plan == plan
  {
  }

  lemma FittingPart(norm: Normalizer, parts: seq<Part>, k: nat)
    requires Fits(norm, parts) && k < |parts|
    ensures NormalPart(norm, parts[k])
  {
  }

  // ----- Their runs -----

  /** The environment of a run whose budget is not set. */
  lemma RunOfParts(norm: Normalizer, parts: seq<Part>, tools: set<string>, plan: ExecutionPlan, options: Options,
                   succeeds: (nat, nat) -> bool, clock: nat -> real)
    requires IsNormalizer(norm) && Fits(norm, parts) && options.executionBudget.None?
    requires Planned(norm, WorkflowOf(parts), DecisionOf(PlanOfParts(norm, parts, tools)), None, plan)
    ensures var env := EnvOf(DefaultQueue(norm, WorkflowOf(parts), plan), options, succeeds, clock);
            && env.invocations == QueueOfParts(parts, tools) && env.budget.None? && env.succeeds == succeeds
            && (options.continueOnError.Some? ==> env.continueIndependent == options.continueOnError.value)
  {
    PartsAreQueued(norm, parts, tools, plan);
    hide PlanInvocations, SkippedIds, CallSum, Assess, Planned, Fits, QueueOfParts, IsNormalizer, Blocked, ToolsOf,
         Capabilities, Bindings, StepsOf;
  }

  /** Two invocations that may each be tried once, the second of which does not depend on a failed first. */
  ghost predicate TwoTries(env: Env) {
    && |env.invocations| == 2 && env.budget.None?
    && env.invocations[0].maxAttempts == env.invocations[1].maxAttempts == Some(1)
    && (env.succeeds(0, 1)
        || (env.continueIndependent && env.invocations[0].stepId !in env.invocations[1].dependsOnStepIds))
  }

  function TwoRecords(env: Env): seq<Record> {
    [Ran([0], env.succeeds(0, 1)), Ran([2], env.succeeds(1, 1))]
  }

  lemma FirstTry(env: Env, r: Record)
    requires TwoTries(env)
    ensures LegalNext(env, [], r) <==>
            r.Ran? && |r.starts| == 1 && r.ok == env.succeeds(0, 1)
  {
    FirstFailedIsFailed(env.invocations[0].dependsOnStepIds, {});
  }

  lemma SecondTry(env: Env, first: Record, r: Record)
    requires TwoTries(env) && first.Ran? && first.ok == env.succeeds(0, 1)
    ensures LegalNext(env, [first], r) <==>
            r.Ran? && |r.starts| == 1 && r.ok == env.succeeds(1, 1)
  {
    assert [first][..0] == [];
    assert FailedSteps(env, [first]) == if first.ok then {} else {env.invocations[0].stepId};
    FirstFailedIsFailed(env.invocations[1].dependsOnStepIds, FailedSteps(env, [first]));
    assert StopIndex(env, [first]).None?;
    hide FailedSteps, StopIndex, FirstFailed;
  }

  /** Both run, in every explanation of a run, and there is one. */
  lemma TwoTriesRun(env: Env)
    requires TwoTries(env)
    ensures Explains(env, TwoRecords(env))
    ensures forall records: seq<Record> :: Explains(env, records) ==>
      && |records| == 2
      && records[0].Status() == (if env.succeeds(0, 1) then Success else Error)
      && records[1].Status() == (if env.succeeds(1, 1) then Success else Error)
  {
    var records := TwoRecords(env);
    FirstTry(env, records[0]);
    SecondTry(env, records[0], records[1]);
    hide LegalNext;
    assert records[..1] == [records[0]] && records[..1][..0] == [];
    assert Legal(env, []) && Legal(env, records[..1]);
    forall records: seq<Record> | Explains(env, records)
      ensures |records| == 2 && records[0].Ran? && records[0].ok == env.succeeds(0, 1)
      ensures records[1].Ran? && records[1].ok == env.succeeds(1, 1)
    {
      assert records[..1] == [records[0]] && records[..1][..0] == [];
      assert Legal(env, records[..1]);
      FirstTry(env, records[0]);
      SecondTry(env, records[0], records[1]);
    }
  }

  lemma OneTool(p: Part, t: string)
    requires p.tools == [t]
    ensures PartInvocations(p, {}) == [InvocationFor(p, t)]
  {
  }

  /** The queue of two steps with one tool each. */
  lemma QueueOfTwo(p: Part, q: Part, t: string, u: string)
    requires p.tools == [t] && q.tools == [u]
    ensures QueueOfParts([p, q], {}) == [InvocationFor(p, t), InvocationFor(q, u)]
  {
    OneTool(p, t);
    OneTool(q, u);
    hide PartInvocations;
    assert [p, q][..1] == [p] && [p][..0] == [];
    assert QueueOfParts([p], {}) == [] + [InvocationFor(p, t)];
  }

  // ----- Ids that collide -----

  /** Two steps whose ids and tools split: the default queue holds two invocations with one id. */
  lemma SplitIdsCollide(norm: Normalizer, p: Part, q: Part, t: string, u: string) returns (plan: ExecutionPlan)
    requires IsNormalizer(norm) && Fits(norm, [p, q]) && p.tools == [t] && q.tools == [u] && Splits(p.id, t, q.id, u)
    ensures Planned(norm, WorkflowOf([p, q]), DecisionOf(PlanOfParts(norm, [p, q], {})), None, plan)
    ensures var invocations := DefaultQueue(norm, WorkflowOf([p, q]), plan).invocations;
            && |invocations| == 2 && invocations[0].id == invocations[1].id
            && invocations[0].stepId != invocations[1].stepId
  {
    SplitsJoin(p.id, t, q.id, u);
    hide *;
    plan := PartsGoOn(norm, [p, q], {});
    PartsAreQueued(norm, [p, q], {}, plan);
    QueueOfTwo(p, q, t, u);
    JoinedInvocation(p, t);
    JoinedInvocation(q, u);
  }

  lemma JoinedInvocation(p: Part, t: string)
    ensures InvocationFor(p, t).id == Joined(p.id, t) && InvocationFor(p, t).stepId == p.id
  {
  }

  /** Such steps: `a` with tool `b:c`, and `a:b` with tool `c`. */
  lemma ColonMakesIdsCollide(norm: Normalizer) returns (plan: ExecutionPlan)
    requires IsNormalizer(norm) && forall s :: s in {"a", "b:c", "a:b", "c"} ==> norm(s) == Some(s)
    ensures var parts := [Part("a", [], ["b:c"], false), Part("a:b", [], ["c"], false)];
            var invocations := DefaultQueue(norm, WorkflowOf(parts), plan).invocations;
            && Planned(norm, WorkflowOf(parts), DecisionOf(PlanOfParts(norm, parts, {})), None, plan)
            && |invocations| == 2 && invocations[0].id == invocations[1].id
            && invocations[0].stepId != invocations[1].stepId
  {
    var p, q := Part("a", [], ["b:c"], false), Part("a:b", [], ["c"], false);
    assert |p.id| != |q.id|;
    assert "a:b" == "a" + ":" + "b" && "b:c" == "b" + ":" + "c";
    assert Splits(p.id, "b:c", q.id, "c");
    assert Fits(norm, [p, q]);
    hide *;
    plan := SplitIdsCollide(norm, p, q, "b:c", "c");
  }

  // ----- An optional step before its dependency -----

  /** An optional step planned before the step that it depends on: the plan goes on unblocked, its default queue
      does not list dependency steps first, and when the tool of the second step fails, the first has run and
      succeeded by then. */
  lemma OptionalBeforeItsDependency(norm: Normalizer, p: Part, q: Part, t: string, u: string, options: Options,
                                    succeeds: (nat, nat) -> bool, clock: nat -> real) returns (plan: ExecutionPlan)
    requires IsNormalizer(norm) && Fits(norm, [p, q]) && p.tools == [t] && q.tools == [u]
    requires p.optional && q.id in p.dependsOn
    requires options.executionBudget.None? && succeeds(0, 1) && !succeeds(1, 1)
    ensures Planned(norm, WorkflowOf([p, q]), DecisionOf(PlanOfParts(norm, [p, q], {})), None, plan)
    ensures var queue := DefaultQueue(norm, WorkflowOf([p, q]), plan);
            && !DependenciesFirst(queue.invocations) && DependsDirectly(queue.invocations, 0, 1)
            && RunIs(EnvOf(queue, options, succeeds, clock), Success, Error)
  {
    hide *;
    plan := PartsGoOn(norm, [p, q], {});
    PartsAreQueued(norm, [p, q], {}, plan);
    QueueOfTwo(p, q, t, u);
    RunOfParts(norm, [p, q], {}, plan, options, succeeds, clock);
    ForwardDependency(p, q, t, u);
    var env := EnvOf(DefaultQueue(norm, WorkflowOf([p, q]), plan), options, succeeds, clock);
    BothMayBeTried(env, p, q, t, u);
    RunOfTwoIs(env);
  }

  /** Whatever records explain a run, the two invocations end like this, and some records do. */
  ghost predicate RunIs(env: Env, first: Status, second: Status) {
    && (exists records: seq<Record> :: Explains(env, records))
    && forall records: seq<Record> :: Explains(env, records) ==>
      |records| == 2 && records[0].Status() == first && records[1].Status() == second
  }

  lemma RunOfTwoIs(env: Env)
    requires TwoTries(env)
    ensures RunIs(env, if env.succeeds(0, 1) then Success else Error, if env.succeeds(1, 1) then Success else Error)
  {
    TwoTriesRun(env);
    hide Explains, TwoTries;
  }

  lemma BothMayBeTried(env: Env, p: Part, q: Part, t: string, u: string)
    requires env.invocations == [InvocationFor(p, t), InvocationFor(q, u)] && env.budget.None?
    requires env.succeeds(0, 1) || (env.continueIndependent && p.id !in q.dependsOn)
    ensures TwoTries(env)
  {
  }

  lemma ForwardDependency(p: Part, q: Part, t: string, u: string)
    requires q.id in p.dependsOn
    ensures var invocations := [InvocationFor(p, t), InvocationFor(q, u)];
            DependsDirectly(invocations, 0, 1) && !DependenciesFirst(invocations)
  {
    var invocations := [InvocationFor(p, t), InvocationFor(q, u)];
    assert !DependenciesBefore(invocations, 0) by {
      assert invocations[1].stepId in invocations[0].dependsOnStepIds;
    }
  }

  /** Such steps: `a`, optional and dependent on `b`, and then `b`, whose tool fails. */
  lemma OptionalMayComeFirst(norm: Normalizer, clock: nat -> real) returns (plan: ExecutionPlan)
    requires IsNormalizer(norm) && forall s :: s in {"a", "b", "t", "u"} ==> norm(s) == Some(s)
    ensures var parts := [Part("a", ["b"], ["t"], true), Part("b", [], ["u"], false)];
            var queue := DefaultQueue(norm, WorkflowOf(parts), plan);
            && Planned(norm, WorkflowOf(parts), DecisionOf(PlanOfParts(norm, parts, {})), None, plan)
            && !DependenciesFirst(queue.invocations) && DependsDirectly(queue.invocations, 0, 1)
            && RunIs(EnvOf(queue, Options(None, false, None), (i, a) => i == 0, clock), Success, Error)
  {
    var p, q := Part("a", ["b"], ["t"], true), Part("b", [], ["u"], false);
    assert p.id[0] != q.id[0];
    assert Fits(norm, [p, q]);
    hide *;
    plan := OptionalBeforeItsDependency(norm, p, q, "t", "u", Options(None, false, None), (i, a) => i == 0, clock);
  }

  // ----- A failure that does not pass on -----

  /** Three steps of which each depends on the one before, and of which the second has no tool. When the tool of
      the first fails in continue-independent mode, the third runs all the same. */
  lemma FailureStopsAtStepWithoutTools(norm: Normalizer, p: Part, m: Part, q: Part, t: string, u: string,
                                       options: Options, succeeds: (nat, nat) -> bool, clock: nat -> real)
    returns (plan: ExecutionPlan)
    requires IsNormalizer(norm) && Fits(norm, [p, m, q]) && p.tools == [t] && m.tools == [] && q.tools == [u]
    requires m.dependsOn == [p.id] && q.dependsOn == [m.id]
    requires options.executionBudget.None? && options.continueOnError == Some(true)
    requires !succeeds(0, 1) && succeeds(1, 1)
    ensures Planned(norm, WorkflowOf([p, m, q]), DecisionOf(PlanOfParts(norm, [p, m, q], {})), None, plan)
    ensures var queue := DefaultQueue(norm, WorkflowOf([p, m, q]), plan);
            && queue.invocations == [InvocationFor(p, t), InvocationFor(q, u)]
            && RunIs(EnvOf(queue, options, succeeds, clock), Error, Success)
  {
    hide *;
    var parts := [p, m, q];
    FirstIsNotSecond(norm, p, m, q);
    plan := PartsGoOn(norm, parts, {});
    PartsAreQueued(norm, parts, {}, plan);
    QueueOfThree(p, m, q, t, u);
    RunOfParts(norm, parts, {}, plan, options, succeeds, clock);
    var env := EnvOf(DefaultQueue(norm, WorkflowOf(parts), plan), options, succeeds, clock);
    BothMayBeTried(env, p, q, t, u);
    RunOfTwoIs(env);
  }

  lemma FirstIsNotSecond(norm: Normalizer, p: Part, m: Part, q: Part)
    requires Fits(norm, [p, m, q])
    ensures p.id != m.id
  {
    assert IdsOf([p, m, q])[0] == p.id && IdsOf([p, m, q])[1] == m.id;
  }

  lemma QueueOfThree(p: Part, m: Part, q: Part, t: string, u: string)
    requires p.tools == [t] && m.tools == [] && q.tools == [u]
    ensures QueueOfParts([p, m, q], {}) == [InvocationFor(p, t), InvocationFor(q, u)]
  {
    OneTool(p, t);
    OneTool(q, u);
    assert PartInvocations(m, {}) == [];
    hide PartInvocations;
    assert [p, m, q][..2] == [p, m] && [p, m][..1] == [p] && [p][..0] == [];
    assert QueueOfParts([p], {}) == [] + [InvocationFor(p, t)];
    assert QueueOfParts([p, m], {}) == [InvocationFor(p, t)] + [];
  }

  /** Such steps: `a`, whose tool fails, `b`, which only stands for its dependency, and `c`. */
  lemma FailureMayStop(norm: Normalizer, clock: nat -> real) returns (plan: ExecutionPlan)
    requires IsNormalizer(norm) && forall s :: s in {"a", "b", "c", "t", "u"} ==> norm(s) == Some(s)
    ensures var parts := [Part("a", [], ["t"], false), Part("b", ["a"], [], false), Part("c", ["b"], ["u"], false)];
            var queue := DefaultQueue(norm, WorkflowOf(parts), plan);
            && Planned(norm, WorkflowOf(parts), DecisionOf(PlanOfParts(norm, parts, {})), None, plan)
            && RunIs(EnvOf(queue, Options(Some(true), false, None), (i, a) => i == 1, clock), Error, Success)
  {
    hide *;
    var p, m, q := Part("a", [], ["t"], false), Part("b", ["a"], [], false), Part("c", ["b"], ["u"], false);
    LineFits(norm, p, m, q);
    plan := FailureStopsAtStepWithoutTools(norm, p, m, q, "t", "u", Options(Some(true), false, None),
                                           (i, a) => i == 1, clock);
  }

  lemma LineFits(norm: Normalizer, p: Part, m: Part, q: Part)
    requires forall s :: s in {"a", "b", "c", "t", "u"} ==> norm(s) == Some(s)
    requires p == Part("a", [], ["t"], false) && m == Part("b", ["a"], [], false) && q == Part("c", ["b"], ["u"], false)
    ensures Fits(norm, [p, m, q])
  {
    var parts := [p, m, q];
    assert p.id[0] != m.id[0] && m.id[0] != q.id[0] && p.id[0] != q.id[0];
    assert parts[..1] == [p] && parts[..2] == [p, m];
    assert IdsOf([p])[0] == "a" && IdsOf([p, m])[1] == "b";
  }

  // ----- A required tool that planning drops -----

  /** A step whose only tool is not available is planned all the same, nothing blocks the plan, and the default
      queue is empty. */
  lemma RequiredToolIsLost(norm: Normalizer, p: Part, t: string, tools: set<string>) returns (plan: ExecutionPlan)
    requires IsNormalizer(norm) && Fits(norm, [p]) && p.tools == [t] && tools != {} && t !in tools
    ensures Planned(norm, WorkflowOf([p]), DecisionOf(PlanOfParts(norm, [p], tools)), None, plan)
    ensures RequiresTool(norm, StepOf(p), t) && DefaultQueue(norm, WorkflowOf([p]), plan).invocations == []
  {
    assert RequiresTool(norm, StepOf(p), t) by {
      assert NormalPart(norm, [p][0]) && t in p.tools;
    }
    hide *;
    plan := PartsGoOn(norm, [p], tools);
    PartsAreQueued(norm, [p], tools, plan);
    NothingIsOffered(p, t, tools);
  }

  lemma LetterFits(norm: Normalizer, p: Part)
    requires p == Part("a", [], ["t"], false) && norm("a") == Some("a") && norm("t") == Some("t")
    ensures Fits(norm, [p])
  {
  }

  lemma NothingIsOffered(p: Part, t: string, tools: set<string>)
    requires p.tools == [t] && tools != {} && t !in tools
    ensures QueueOfParts([p], tools) == []
  {
    FilterNone(p.tools, t => t in tools);
    hide Filter;
    assert Offered(p, tools) == [] && [p][..0] == [];
  }

  /** Such a step: `a` with tool `t`, when only `u` is available. */
  lemma RequiredToolMayBeLost(norm: Normalizer) returns (plan: ExecutionPlan)
    requires IsNormalizer(norm) && norm("a") == Some("a") && norm("t") == Some("t")
    ensures var p := Part("a", [], ["t"], false);
            && Planned(norm, WorkflowOf([p]), DecisionOf(PlanOfParts(norm, [p], {"u"})), None, plan)
            && RequiresTool(norm, StepOf(p), "t") && DefaultQueue(norm, WorkflowOf([p]), plan).invocations == []
  {
    hide *;
    var p := Part("a", [], ["t"], false);
    assert p.tools[0][0] != "u"[0];
    LetterFits(norm, p);
    plan := RequiredToolIsLost(norm, p, "t", {"u"});
  }
}
