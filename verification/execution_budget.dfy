/** Budgets of a run and the assessment of its use of planning steps, tool calls and time. */
module ExecutionBudget {
  datatype Budget = Budget(
    maxPlanningSteps: int, maxToolCalls: int, maxProviderCalls: int, maxDurationMs: int, maxEvidenceBytes: int)

  /** What `assertAssistantWorkflowExecutionBudget` accepts without throwing. */
  predicate ValidBudget(b: Budget) {
    && 1 <= b.maxPlanningSteps <= 32
    && 0 <= b.maxToolCalls <= 16
    && 0 <= b.maxProviderCalls <= 8
    && 1 <= b.maxDurationMs <= 300_000
    && 0 <= b.maxEvidenceBytes <= 1_000_000
  }

  datatype ViolationCode = PlanningStepsExceeded | ToolCallsExceeded | DurationExceeded
  datatype Violation = Violation(code: ViolationCode, actual: int, limit: int)
  datatype Assessment = Assessment(budget: Budget, planningSteps: nat, toolCalls: nat, elapsedMs: int,
                                   violations: seq<Violation>)

  function ViolationIf(code: ViolationCode, actual: int, limit: int): seq<Violation> {
    if actual > limit then [Violation(code, actual, limit)] else []
  }

  /** Provider calls and evidence bytes are never reported by the modelled callers, so they count 0. */
  function Assess(budget: Budget, planningSteps: nat, toolCalls: nat, elapsedMs: real): Assessment
    requires elapsedMs >= 0.0
  {
    Assessment(budget, planningSteps, toolCalls, elapsedMs.Floor,
      ViolationIf(PlanningStepsExceeded, planningSteps, budget.maxPlanningSteps)
      + ViolationIf(ToolCallsExceeded, toolCalls, budget.maxToolCalls)
      + ViolationIf(DurationExceeded, elapsedMs.Floor, budget.maxDurationMs))
  }

  predicate Blocked(a: Assessment) {
    a.violations != []
  }

  /** An assessment blocks exactly when one of the three limits is passed. */
  lemma BlockedIff(budget: Budget, planningSteps: nat, toolCalls: nat, elapsedMs: real)
    requires elapsedMs >= 0.0
    ensures Blocked(Assess(budget, planningSteps, toolCalls, elapsedMs)) <==>
      || planningSteps > budget.maxPlanningSteps
      || toolCalls > budget.maxToolCalls
      || elapsedMs.Floor > budget.maxDurationMs
  {
    var parts := ViolationIf(PlanningStepsExceeded, planningSteps, budget.maxPlanningSteps)
                 + ViolationIf(ToolCallsExceeded, toolCalls, budget.maxToolCalls);
    assert Assess(budget, planningSteps, toolCalls, elapsedMs).violations ==
           parts + ViolationIf(DurationExceeded, elapsedMs.Floor, budget.maxDurationMs);
  }

  /** A violation names the limit that was passed and by what. */
  lemma ViolationIff(budget: Budget, planningSteps: nat, toolCalls: nat, elapsedMs: real, v: Violation)
    requires elapsedMs >= 0.0
    ensures v in Assess(budget, planningSteps, toolCalls, elapsedMs).violations <==>
            match v.code
            case PlanningStepsExceeded => v.actual == planningSteps && v.limit == budget.maxPlanningSteps < v.actual
            case ToolCallsExceeded => v.actual == toolCalls && v.limit == budget.maxToolCalls < v.actual
            case DurationExceeded => v.actual == elapsedMs.Floor && v.limit == budget.maxDurationMs < v.actual
  {
  }

  /** The limits that a budget may set: between none, or one, and the largest of each kind. */
  lemma LimitsOfBudgets(b: Budget)
    ensures ValidBudget(Budget(32, 16, 8, 300_000, 1_000_000)) && ValidBudget(Budget(1, 0, 0, 1, 0))
    ensures ValidBudget(b) <==>
      b == Budget(Within(b.maxPlanningSteps, 1, 32), Within(b.maxToolCalls, 0, 16), Within(b.maxProviderCalls, 0, 8),
                  Within(b.maxDurationMs, 1, 300_000), Within(b.maxEvidenceBytes, 0, 1_000_000))
  {
  }

  /** The nearest number between two. */
  function Within(n: int, least: int, most: int): int {
    if n < least then least else if n > most then most else n
  }
}
