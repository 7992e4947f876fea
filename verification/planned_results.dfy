/** Results of planned runs: the default queue of a plan can be recorded, and its summary is never partial. */
module PlannedResults {
  import opened Wrappers
  import opened Texts
  import opened ExecutionBudget
  import opened WorkflowTypes
  import opened Planning
  import opened ToolBindings
  import opened ExecutionPlanning
  import opened ToolInvocations
  import opened ToolRuns
  import opened ToolResults
  import opened WorkflowRun
  import opened InvocationIds

  lemma StepIdsAreNormal(norm: Normalizer, w: Workflow, decision: Decision, available: Option<set<string>>,
                         plan: ExecutionPlan,
                         base: seq<string>, profiles: seq<Profile>, tools: set<string>)
    requires IsNormalizer(norm) && Planned(norm, w, decision, available, plan)
    requires decision.plan == PlanOf(norm, w.planningSteps, base, profiles, tools)
    ensures forall k :: 0 <= k < |plan.steps| ==> IsNormalId(norm, plan.steps[k].id)
  {
    hide *;
    PlanIsWellFormed(norm, w.planningSteps, base, profiles, tools);
    forall k | 0 <= k < |plan.steps|
      ensures IsNormalId(norm, plan.steps[k].id)
    {
      PlannedStepOf(norm, w, decision, available, plan, k);
    }
  }

  lemma JoinedIsRecordable(norm: Normalizer, v: Invocation)
    requires IsNormalId(norm, v.stepId) && IsNormalId(norm, v.toolName) && v.id == Joined(v.stepId, v.toolName)
    ensures Recordable(v) && Trim(v.id) == v.id
  {
    JoinOfTrimmed(v.stepId, ":", v.toolName);
    hide Trim;
  }

  /** Every invocation of the default queue can be recorded, under its own trimmed id. */
  lemma DefaultQueueIsRecordable(norm: Normalizer, w: Workflow, decision: Decision, available: Option<set<string>>,
                                 plan: ExecutionPlan,
                                 base: seq<string>, profiles: seq<Profile>, tools: set<string>, i: nat)
    requires IsNormalizer(norm) && Planned(norm, w, decision, available, plan)
    requires decision.plan == PlanOf(norm, w.planningSteps, base, profiles, tools)
    requires i < |DefaultQueue(norm, w, plan).invocations|
    ensures var v := DefaultQueue(norm, w, plan).invocations[i];
            Recordable(v) && Trim(v.id) == v.id
  {
    hide *;
    DefaultInvocations(norm, w, decision, available, plan);
    AllStepsAreGood(norm, w, decision, available, plan);
    BudgetOfPlan(norm, w, decision, available, plan);
    StepIdsAreNormal(norm, w, decision, available, plan, base, profiles, tools);
    var k := InvocationIsJoined(norm, w, plan.executionPolicy, available, plan.steps, i);
    InvokedIsNormal(norm, w, available, plan.steps, k, DefaultQueue(norm, w, plan).invocations[i].toolName);
    JoinedIsRecordable(norm, DefaultQueue(norm, w, plan).invocations[i]);
  }

  lemma InvokedIsNormal(norm: Normalizer, w: Workflow, available: Option<set<string>>, steps: seq<ExecutionStep>,
                        k: nat, t: string)
    requires Invoked(steps, k, t) && forall j :: 0 <= j < |steps| ==> GoodStep(norm, w, available, steps[j])
    ensures k < |steps| && IsNormalId(norm, t)
  {
    assert GoodStep(norm, w, available, steps[k]);
  }

  lemma BudgetOfQueue(norm: Normalizer, w: Workflow, plan: ExecutionPlan, options: Options,
                      succeeds: (nat, nat) -> bool, clock: nat -> real)
    ensures var env := EnvOf(DefaultQueue(norm, w, plan), options, succeeds, clock);
            env.budget == if options.executionBudget.Some? then options.executionBudget else w.executionBudget
  {
    hide PlanInvocations, SkippedIds, CallSum, Assess;
  }

  /** No result is missing or unexpected, and the run is complete exactly if something was invoked and all of
      it succeeded. */
  ghost predicate SummarizedInFull(env: Env, records: seq<Record>) {
    && |records| == |env.invocations|
    && var s := Summarize(env.invocations, Results(env, records));
       && s.status != SummaryPartial && s.missingResultInvocationIds == s.unexpectedResultInvocationIds == []
       && (s.status == SummaryComplete <==>
             records != [] && forall i :: 0 <= i < |records| ==> records[i].Status() == Success)
  }

  /** With a valid budget, the executor completes on the default queue of every unblocked plan, whatever the
      tools and the clock do. Whatever run it reports, the summary is not partial. */
  lemma PlannedRunCompletes(norm: Normalizer, w: Workflow, decision: Decision, available: Option<set<string>>,
                            plan: ExecutionPlan,
                            base: seq<string>, profiles: seq<Profile>, tools: set<string>,
                            options: Options, succeeds: (nat, nat) -> bool, clock: nat -> real)
    requires IsNormalizer(norm) && Planned(norm, w, decision, available, plan)
    requires decision.plan == PlanOf(norm, w.planningSteps, base, profiles, tools)
    requires options.executionBudget.Some? ==> ValidBudget(options.executionBudget.value)
    ensures var env := EnvOf(DefaultQueue(norm, w, plan), options, succeeds, clock);
            && !Throws(env)
            && forall records :: Explains(env, records) ==> SummarizedInFull(env, records)
  {
    hide *;
    var env := EnvOf(DefaultQueue(norm, w, plan), options, succeeds, clock);
    EnvHasInvocations(DefaultQueue(norm, w, plan), options, succeeds, clock);
    BudgetOfQueue(norm, w, plan, options, succeeds, clock);
    BudgetOfPlan(norm, w, decision, available, plan);
    forall i | 0 <= i < |env.invocations|
      ensures Recordable(env.invocations[i]) && Trim(env.invocations[i].id) == env.invocations[i].id
    {
      DefaultQueueIsRecordable(norm, w, decision, available, plan, base, profiles, tools, i);
    }
    NothingThrows(env);
    forall records | Explains(env, records)
      ensures SummarizedInFull(env, records)
    {
      TrimmedRun(env, records);
    }
  }

  lemma NothingThrows(env: Env)
    requires env.budget.Some? ==> ValidBudget(env.budget.value)
    requires forall i :: 0 <= i < |env.invocations| ==> Recordable(env.invocations[i])
    ensures !Throws(env)
  {
  }

  lemma TrimmedRun(env: Env, records: seq<Record>)
    requires Explains(env, records)
    requires forall i :: 0 <= i < |env.invocations| ==> Trim(env.invocations[i].id) == env.invocations[i].id
    ensures SummarizedInFull(env, records)
  {
    AsManyRecords(env, records);
    hide Explains, Summarize, Results, Trim;
    NoIdIsMissing(env, records);
    RunStatus(env, records);
  }

  // ----- A queue that nobody planned -----

  /** One invocation without dependencies, run without a budget by a tool that succeeds at once. */
  function EnvOfOne(v: Invocation): Env {
    Env([v], false, None, false, (i, a) => true, t => 0.0)
  }

  /** An id that begins with a space is trimmed away from its result: though the one tool succeeds, the summary
      calls its result missing and the run partial. */
  lemma UntrimmedIdIsMissing(v: Invocation)
    requires Recordable(v) && v.dependsOnStepIds == [] && v.id != "" && IsSpace(v.id[0])
    ensures var env, records := EnvOfOne(v), [Ran([0], true)];
            && Explains(env, records) && records[0].Status() == Success
            && Summarize([v], Results(env, records)).status == SummaryPartial
            && Summarize([v], Results(env, records)).missingResultInvocationIds == [v.id]
  {
    var env, records := EnvOfOne(v), [Ran([0], true)];
    OneRunIsExplained(v);
    TrimmedIff(v.id);
    AsManyRecords(env, records);
    assert !IdsAreTrimmed(env.invocations) by {
      assert Trim(env.invocations[0].id) != env.invocations[0].id;
    }
    NoIdIsMissing(env, records);
    RunStatus(env, records);
    MissingAreOutside(v, Results(env, records));
    hide Explains, Results, Trim, IsSpace, Summarize, IdsAreTrimmed;
  }

  lemma MissingAreOutside(v: Invocation, results: seq<Result>)
    ensures var missing := Summarize([v], results).missingResultInvocationIds;
            missing == [] || missing == [v.id]
  {
    var ids, known := QueueIds([v]), Members(ResultIds(results));
    assert ids == [v.id] && ids[1..] == [];
    hide Members, ResultIds;
    assert IdsOutside([], known) == [];
    assert IdsOutside(ids, known) == (if v.id in known then [] else [v.id]) + IdsOutside(ids[1..], known);
  }

  lemma OneRunIsExplained(v: Invocation)
    requires v.dependsOnStepIds == []
    ensures Explains(EnvOfOne(v), [Ran([0], true)])
  {
    var env, r := EnvOfOne(v), Ran([0], true);
    assert [r][..0] == [];
    assert LegalAttempts(env, 0, 0, r);
    assert LegalNext(env, [], r);
  }
}
