/** The records that pass from planning to execution. */
module WorkflowTypes {
  import opened Wrappers
  import opened ExecutionBudget

  datatype Provider = LocalFunction | Http | OpenAiHosted | Mcp | Repl
  datatype RetryClass = RetrySafe | RetryBounded | RetryNever
  datatype FailureMode = FailFast | ContinueIndependent
  datatype Policy = Policy(failureMode: FailureMode, maxAttemptsPerTool: int)

  const DEFAULT_POLICY := Policy(FailFast, 1)

  /** What `assertAssistantWorkflowExecutionPolicy` accepts without throwing. */
  predicate ValidPolicy(p: Policy) {
    1 <= p.maxAttemptsPerTool <= 3
  }

  datatype Capability = Capability(name: string, provider: Provider, retryClass: RetryClass,
                                   requiredContext: seq<string>)
  datatype Binding = Binding(name: string, provider: Provider)

  datatype Invocation = Invocation(
    id: string,
    stepId: string,
    dependsOnStepIds: seq<string>,
    toolName: string,
    required: bool,
    provider: Provider,
    capability: Capability,
    binding: Binding,
    maxAttempts: Option<int>)

  datatype QueueStatus = QueueReady | QueuePartial | QueueBlocked | QueueEmpty

  datatype Queue = Queue(
    status: QueueStatus,
    invocations: seq<Invocation>,
    skippedStepIds: seq<string>,
    executionBudget: Option<Budget>,
    executionPolicy: Option<Policy>)

  /** Any value other than 2 and 3 counts as one attempt. */
  function NormalizeMaxAttempts(value: Option<int>): nat {
    if value == Some(2) then 2 else if value == Some(3) then 3 else 1
  }

  /** The worst case of a queue: the sum that the executor's preflight check adds up. */
  function AttemptSum(invocations: seq<Invocation>): nat {
    if invocations == [] then 0
    else AttemptSum(invocations[..|invocations| - 1]) + NormalizeMaxAttempts(invocations[|invocations| - 1].maxAttempts)
  }

  lemma {:induction false} AttemptSumConcat(a: seq<Invocation>, b: seq<Invocation>)
    ensures AttemptSum(a + b) == AttemptSum(a) + AttemptSum(b)
  {
    if b == [] {
      assert a + b == a;
    } else {
      assert (a + b)[..|a + b| - 1] == a + b[..|b| - 1];
      AttemptSumConcat(a, b[..|b| - 1]);
    }
  }

  /** Invocation `i` stands after all invocations of the steps that its step depends on. */
  predicate DependenciesBefore(invocations: seq<Invocation>, i: nat)
    requires i < |invocations|
  {
    forall j :: 0 <= j < |invocations| && invocations[j].stepId in invocations[i].dependsOnStepIds ==> j < i
  }

  predicate DependenciesFirst(invocations: seq<Invocation>) {
    forall i :: 0 <= i < |invocations| ==> DependenciesBefore(invocations, i)
  }
}
