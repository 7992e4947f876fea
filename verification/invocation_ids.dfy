/** Invocation ids join step id and tool name with a colon. When two of them are equal, and when the ids of a
    queue tell its invocations apart. */
module InvocationIds {
  import opened Wrappers
  import opened WorkflowTypes
  import opened Planning
  import opened ToolBindings
  import opened ExecutionPlanning
  import opened ToolInvocations
  import opened ToolRuns
  import opened WorkflowRun

  /** The longer step id goes on with a colon and a text that the tool name of the other begins with. */
  ghost predicate Splits(s: string, t: string, s': string, t': string) {
    exists u :: s' == s + ":" + u && t == u + ":" + t'
  }

  function Joined(s: string, t: string): string {
    s + ":" + t
  }

  lemma LongerSplits(s: string, t: string, s': string, t': string)
    requires Joined(s, t) == Joined(s', t') && |s| < |s'|
    ensures Splits(s, t, s', t')
  {
    var id, u := Joined(s, t), s'[|s| + 1..];
    assert s' == id[..|s'|] && id[..|s|] == s && id[|s|] == ':';
    assert s' == s + ":" + u;
    assert t == id[|s| + 1..] == u + ":" + t';
  }

  lemma SplitsJoin(s: string, t: string, s': string, t': string)
    ensures Splits(s, t, s', t') ==> Joined(s, t) == Joined(s', t') && |s| < |s'| && ':' in s' && ':' in t
  {
    if u :| s' == s + ":" + u && t == u + ":" + t' {
      assert Joined(s, t) == s + ":" + u + ":" + t' == Joined(s', t');
      assert s'[|s|] == ':' && t[|u|] == ':';
    }
  }

  /** Two joined ids are equal exactly if they join the same parts, or one splits into the other. */
  lemma JoinedIffSplit(s: string, t: string, s': string, t': string)
    ensures Joined(s, t) == Joined(s', t') <==> (s == s' && t == t') || Splits(s, t, s', t') || Splits(s', t', s, t)
  {
    SplitsJoin(s, t, s', t');
    SplitsJoin(s', t', s, t);
    if Joined(s, t) == Joined(s', t') {
      if |s| < |s'| {
        LongerSplits(s, t, s', t');
      } else if |s'| < |s| {
        LongerSplits(s', t', s, t);
      } else {
        assert s == Joined(s, t)[..|s|] == s';
        assert t == Joined(s, t)[|s| + 1..] == t';
      }
    }
  }

  /** Two invocations that the queue builder makes share an id exactly if they are of one step id and tool, or
      one splits into the other. */
  lemma SameIdIff(step: ExecutionStep, r: Resolution, step': ExecutionStep, r': Resolution, policy: Policy)
    requires r.Status() == Ready && r'.Status() == Ready
    ensures InvocationOf(step, r, policy).id == InvocationOf(step', r', policy).id <==>
            || (step.id == step'.id && r.toolName == r'.toolName)
            || Splits(step.id, r.toolName, step'.id, r'.toolName)
            || Splits(step'.id, r'.toolName, step.id, r.toolName)
  {
    JoinedIffSplit(step.id, r.toolName, step'.id, r'.toolName);
    hide Splits;
  }

  // ----- Ids of a queue -----

  /** Tool `t` is invoked for step `k`. */
  predicate Invoked(steps: seq<ExecutionStep>, k: nat, t: string) {
    k < |steps| && Runs(steps[k]) && t in steps[k].readyToolNames
  }

  lemma {:induction false} SomeTime(invocations: seq<Invocation>, stepId: string, toolName: string) returns (i: nat)
    requires Times(invocations, stepId, toolName) > 0
    ensures i < |invocations| && invocations[i].stepId == stepId && invocations[i].toolName == toolName
  {
    var n := |invocations| - 1;
    if invocations[n].stepId == stepId && invocations[n].toolName == toolName {
      i := n;
    } else {
      i := SomeTime(invocations[..n], stepId, toolName);
    }
  }

  lemma {:induction false} OnceAtMost(invocations: seq<Invocation>, i: nat, j: nat)
    requires i < j < |invocations|
    requires invocations[i].stepId == invocations[j].stepId && invocations[i].toolName == invocations[j].toolName
    ensures Times(invocations, invocations[i].stepId, invocations[i].toolName) >= 2
    decreases |invocations|
  {
    var n := |invocations| - 1;
    if j < n {
      OnceAtMost(invocations[..n], i, j);
    } else {
      SomeTimes(invocations[..n], i);
    }
  }

  lemma {:induction false} SomeTimes(invocations: seq<Invocation>, i: nat)
    requires i < |invocations|
    ensures Times(invocations, invocations[i].stepId, invocations[i].toolName) >= 1
    decreases |invocations|
  {
    var n := |invocations| - 1;
    if i < n {
      SomeTimes(invocations[..n], i);
    }
  }

  /** What the queue of a plan says about one of its invocations. */
  lemma InvocationIsJoined(norm: Normalizer, w: Workflow, policy: Policy, available: Option<set<string>>,
                           steps: seq<ExecutionStep>, i: nat) returns (k: nat)
    requires ValidPolicy(policy) && forall j :: 0 <= j < |steps| ==> GoodStep(norm, w, available, steps[j])
    requires i < |PlanInvocations(norm, w, policy, steps, true)|
    ensures var v := PlanInvocations(norm, w, policy, steps, true)[i];
            Invoked(steps, k, v.toolName) && steps[k].id == v.stepId && v.id == Joined(v.stepId, v.toolName)
  {
    hide PlanInvocations, GoodStep, ValidPolicy;
    var t;
    k, t := SourceTool(norm, w, policy, available, steps, i);
    ResolveKeepsName(w, t);
  }

  /** Two invocations of a queue are never of the same step and tool. */
  lemma PairsAreDistinct(norm: Normalizer, w: Workflow, policy: Policy, available: Option<set<string>>,
                         steps: seq<ExecutionStep>, i: nat, j: nat)
    requires ValidPolicy(policy) && DistinctStepIds(steps)
    requires forall k :: 0 <= k < |steps| ==> GoodStep(norm, w, available, steps[k])
    requires i < j < |PlanInvocations(norm, w, policy, steps, true)|
    ensures var invocations := PlanInvocations(norm, w, policy, steps, true);
            invocations[i].stepId != invocations[j].stepId || invocations[i].toolName != invocations[j].toolName
  {
    hide PlanInvocations, GoodStep, ValidPolicy, Times;
    var invocations := PlanInvocations(norm, w, policy, steps, true);
    var k := InvocationIsJoined(norm, w, policy, available, steps, i);
    ReadyToolsOnce(norm, w, policy, available, steps, true, k, invocations[i].toolName);
    if invocations[i].stepId == invocations[j].stepId && invocations[i].toolName == invocations[j].toolName {
      OnceAtMost(invocations, i, j);
    }
  }

  /** The invocation of a tool for a step. */
  lemma InvocationOfPair(norm: Normalizer, w: Workflow, policy: Policy, available: Option<set<string>>,
                         steps: seq<ExecutionStep>, k: nat, t: string) returns (i: nat)
    requires ValidPolicy(policy) && DistinctStepIds(steps) && Invoked(steps, k, t)
    requires forall j :: 0 <= j < |steps| ==> GoodStep(norm, w, available, steps[j])
    ensures i < |PlanInvocations(norm, w, policy, steps, true)|
    ensures var v := PlanInvocations(norm, w, policy, steps, true)[i];
            v.stepId == steps[k].id && v.toolName == t && v.id == Joined(steps[k].id, t)
  {
    hide PlanInvocations, GoodStep, ValidPolicy, Times;
    ReadyToolsOnce(norm, w, policy, available, steps, true, k, t);
    i := SomeTime(PlanInvocations(norm, w, policy, steps, true), steps[k].id, t);
    var m := InvocationIsJoined(norm, w, policy, available, steps, i);
  }

  ghost predicate IdsAreDistinct(invocations: seq<Invocation>) {
    forall i, j :: 0 <= i < j < |invocations| ==> invocations[i].id != invocations[j].id
  }

  /** No tool that is invoked for a step splits into another one for another step. */
  ghost predicate NothingSplits(steps: seq<ExecutionStep>) {
    forall k: nat, m: nat, t, u :: Invoked(steps, k, t) && Invoked(steps, m, u) ==>
      !Splits(steps[k].id, t, steps[m].id, u)
  }

  lemma PlanIdsAreDistinctIff(norm: Normalizer, w: Workflow, policy: Policy, available: Option<set<string>>,
                              steps: seq<ExecutionStep>)
    requires ValidPolicy(policy) && DistinctStepIds(steps)
    requires forall k :: 0 <= k < |steps| ==> GoodStep(norm, w, available, steps[k])
    ensures IdsAreDistinct(PlanInvocations(norm, w, policy, steps, true)) <==> NothingSplits(steps)
  {
    hide PlanInvocations, GoodStep, ValidPolicy, DistinctStepIds, Splits, Joined;
    var invocations := PlanInvocations(norm, w, policy, steps, true);
    if IdsAreDistinct(invocations) {
      forall k: nat, m: nat, t, u | Invoked(steps, k, t) && Invoked(steps, m, u)
        ensures !Splits(steps[k].id, t, steps[m].id, u)
      {
        var i := InvocationOfPair(norm, w, policy, available, steps, k, t);
        var j := InvocationOfPair(norm, w, policy, available, steps, m, u);
        SplitsJoin(steps[k].id, t, steps[m].id, u);
        assert i < j || j < i || i == j;
      }
    }
    if NothingSplits(steps) {
      forall i, j | 0 <= i < j < |invocations|
        ensures invocations[i].id != invocations[j].id
      {
        var k := InvocationIsJoined(norm, w, policy, available, steps, i);
        var m := InvocationIsJoined(norm, w, policy, available, steps, j);
        PairsAreDistinct(norm, w, policy, available, steps, i, j);
        JoinedIffSplit(invocations[i].stepId, invocations[i].toolName, invocations[j].stepId, invocations[j].toolName);
      }
    }
  }

  /** The ids of the default queue of an unblocked plan tell its invocations apart exactly if no two pairs of
      a running step and a ready tool split. */
  lemma InvocationIdsAreDistinctIff(norm: Normalizer, w: Workflow, decision: Decision, available: Option<set<string>>,
                                    plan: ExecutionPlan,
                                    base: seq<string>, profiles: seq<Profile>, tools: set<string>)
    requires IsNormalizer(norm) && Planned(norm, w, decision, available, plan)
    requires decision.plan == PlanOf(norm, w.planningSteps, base, profiles, tools)
    ensures IdsAreDistinct(DefaultQueue(norm, w, plan).invocations) <==> NothingSplits(plan.steps)
  {
    hide *;
    DefaultInvocations(norm, w, decision, available, plan);
    AllStepsAreGood(norm, w, decision, available, plan);
    BudgetOfPlan(norm, w, decision, available, plan);
    UnblockedPlanIsTopological(norm, w, decision, available, plan, base, profiles, tools);
    PlanIdsAreDistinctIff(norm, w, plan.executionPolicy, available, plan.steps);
  }

  /** Without a colon in step ids, or without one in tool names, nothing splits. */
  lemma NoColonNoSplit(steps: seq<ExecutionStep>)
    requires
      || (forall k :: 0 <= k < |steps| ==> ':' !in steps[k].id)
      || (forall k: nat, t :: Invoked(steps, k, t) ==> ':' !in t)
    ensures NothingSplits(steps)
  {
    forall k: nat, m: nat, t, u | Invoked(steps, k, t) && Invoked(steps, m, u)
      ensures !Splits(steps[k].id, t, steps[m].id, u)
    {
      SplitsJoin(steps[k].id, t, steps[m].id, u);
    }
  }
}
