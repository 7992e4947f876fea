/** Runs of an invocation queue: retries, a budget, fail-fast or continue-independent failure handling and failure
    propagation along step dependencies.

    The tool behind an invocation is an arbitrary oracle from invocation index and attempt number to
    success or failure, and the clock an arbitrary sequence of readings. A run leaves one record per
    invocation. `Legal` says locally how each record follows from the earlier ones, and what is promised of whole
    runs is proved of all legal records. */
module ToolRuns {
  import opened Wrappers
  import opened Texts
  import opened ExecutionBudget
  import opened WorkflowTypes

  // ----- Records -----

  datatype Status = Success | Error | Skipped

  /** How one invocation ended. `starts` holds, for each attempt begun, the number of the clock reading
      taken just before it. */
  datatype Record =
    | Ran(starts: seq<nat>, ok: bool)
    | Refused(starts: seq<nat>, tick: nat, assessment: Assessment)
    | DependencySkip(stepId: string)
    | CutOff(invocationId: string)
  {
    function Starts(): seq<nat> {
      if Ran? || Refused? then starts else []
    }

    /** All clock readings that decided about attempts. */
    function Readings(): seq<nat> {
      if Refused? then starts + [tick] else Starts()
    }

    predicate Failing() {
      !(Ran? && ok)
    }

    function Status(): Status {
      if Ran? && ok then Success else if Ran? || Refused? then Error else Skipped
    }
  }

  datatype Env = Env(
    invocations: seq<Invocation>,
    continueIndependent: bool,
    budget: Option<Budget>,
    retryableOnError: bool,
    succeeds: (nat, nat) -> bool,
    clock: nat -> real)

  function Max0(x: real): real {
    if x < 0.0 then 0.0 else x
  }

  /** The assessment made before an attempt: the first clock reading of a budgeted run is its start. */
  function AssessAt(env: Env, tick: nat, calls: nat): Assessment
    requires env.budget.Some?
  {
    Assess(env.budget.value, 0, calls, Max0(env.clock(tick) - env.clock(0)))
  }

  predicate MayStart(env: Env, tick: nat, calls: nat) {
    env.budget.Some? ==> !Blocked(AssessAt(env, tick, calls))
  }

  function CallsMade(records: seq<Record>): nat {
    if records == [] then 0 else CallsMade(records[..|records| - 1]) + |records[|records| - 1].Starts()|
  }

  /** The time from the start of a budgeted run to the end of its last attempt; the clock is read at that end
      right after the reading that began the attempt. */
  function Elapsed(env: Env, records: seq<Record>): real {
    if records == [] then 0.0
    else
      var last := records[|records| - 1];
      if last.Ran? && last.starts != [] then Max0(env.clock(last.starts[|last.starts| - 1] + 1) - env.clock(0))
      else Elapsed(env, records[..|records| - 1])
  }

  function AllReadings(records: seq<Record>): seq<nat> {
    if records == [] then [] else AllReadings(records[..|records| - 1]) + records[|records| - 1].Readings()
  }

  /** Every reading is taken after the ones before it, from `low` on and before `high`. */
  predicate InOrder(readings: seq<nat>, low: nat, high: nat) {
    && (forall i :: 0 <= i < |readings| ==> low <= readings[i] < high)
    && (forall i, j :: 0 <= i < j < |readings| ==> readings[i] < readings[j])
  }

  /** The readings of a run; in a budgeted run the first reading of all was its start. */
  predicate ReadInOrder(env: Env, records: seq<Record>, high: nat) {
    InOrder(AllReadings(records), if env.budget.Some? then 1 else 0, high)
  }

  function FailedSteps(env: Env, records: seq<Record>): set<string>
    requires |records| <= |env.invocations|
  {
    if records == [] then {}
    else
      var n := |records| - 1;
      FailedSteps(env, records[..n]) + if records[n].Failing() then {env.invocations[n].stepId} else {}
  }

  /** The record after which nothing more runs: a refusal, or in fail-fast mode an error. */
  predicate Stops(env: Env, r: Record) {
    r.Refused? || (!env.continueIndependent && r == Ran(r.Starts(), false))
  }

  function StopIndex(env: Env, records: seq<Record>): (k: Option<nat>)
    ensures k.Some? ==> k.value < |records| && Stops(env, records[k.value])
  {
    if records == [] then None
    else
      var n := |records| - 1;
      var before := StopIndex(env, records[..n]);
      if before.Some? then before else if Stops(env, records[n]) then Some(n) else None
  }

  /** The first listed dependency that has failed. */
  function FirstFailed(dependencies: seq<string>, failed: set<string>): Option<string> {
    if dependencies == [] then None
    else if dependencies[0] in failed then Some(dependencies[0])
    else FirstFailed(dependencies[1..], failed)
  }

  /** One invocation's attempts after `made` earlier executor calls: each is started within the budget and
      only after a failed one, and they end with a success, with the last allowed attempt, or with a
      refusal. Attempts are numbered from 1. */
  ghost predicate LegalAttempts(env: Env, index: nat, made: nat, r: Record)
    requires index < |env.invocations|
  {
    var max := NormalizeMaxAttempts(env.invocations[index].maxAttempts);
    && (r.Ran? || r.Refused?)
    && |r.starts| <= max
    && (forall a :: 0 <= a < |r.starts| ==> MayStart(env, r.starts[a], made + a))
    && (forall a :: 1 <= a < |r.starts| ==> !env.succeeds(index, a))
    && (r.Ran? ==>
          && |r.starts| >= 1
          && r.ok == env.succeeds(index, |r.starts|)
          && (!r.ok ==> |r.starts| == max))
    && (r.Refused? ==>
          && |r.starts| < max
          && (r.starts != [] ==> !env.succeeds(index, |r.starts|))
          && env.budget.Some? && Blocked(r.assessment)
          && r.assessment == AssessAt(env, r.tick, made + |r.starts|))
  }

  /** How the next record follows from the earlier ones. */
  ghost predicate LegalNext(env: Env, before: seq<Record>, r: Record)
    requires |before| < |env.invocations|
  {
    var invocation := env.invocations[|before|];
    match StopIndex(env, before)
    case Some(k) => r == CutOff(env.invocations[k].id)
    case None =>
      match FirstFailed(invocation.dependsOnStepIds, FailedSteps(env, before))
      case Some(stepId) => r == DependencySkip(stepId)
      case None => LegalAttempts(env, |before|, CallsMade(before), r)
  }

  ghost predicate Legal(env: Env, records: seq<Record>) {
    && |records| <= |env.invocations|
    && (records != [] ==>
          && Legal(env, records[..|records| - 1])
          && LegalNext(env, records[..|records| - 1], records[|records| - 1]))
  }

  // ----- Results and events -----

  datatype Reason =
    | NoReason
    | ToolFailed
    | BudgetExceeded(violation: Violation)
    | DependencyFailed(stepId: string)
    | PreviousFailed(invocationId: string)
  datatype Result = Result(invocationId: string, toolName: string, stepId: string, provider: Provider, status: Status,
                           retryable: Option<bool>, reason: Reason)

  function ReasonOf(r: Record): Reason {
    match r
    case Ran(_, ok) => if ok then NoReason else ToolFailed
    case Refused(_, _, a) => if a.violations == [] then NoReason else BudgetExceeded(a.violations[0])
    case DependencySkip(stepId) => DependencyFailed(stepId)
    case CutOff(invocationId) => PreviousFailed(invocationId)
  }

  /** Only errors say whether a retry is worthwhile; a refusal never is. */
  function ResultOf(env: Env, invocation: Invocation, r: Record): Result {
    var retryable := if r.Refused? then Some(false) else if r.Ran? && !r.ok then Some(env.retryableOnError) else None;
    Result(Trim(invocation.id), Trim(invocation.toolName), Trim(invocation.stepId), invocation.provider,
           r.Status(), retryable, ReasonOf(r))
  }

  /** The three required strings of a result; without them its constructor throws. */
  predicate Recordable(invocation: Invocation) {
    Trim(invocation.id) != "" && Trim(invocation.toolName) != "" && Trim(invocation.stepId) != ""
  }

  /** What an observer sees. `Rejected` stands for the `failed` event of a budget refusal. */
  datatype Event =
    | Started(index: nat, attempt: nat)
    | Succeeded(index: nat, attempt: nat)
    | Failed(index: nat, attempt: nat, retryable: bool)
    | RefusedEvent(index: nat)
    | SkippedEvent(index: nat)

  /** The events of `n` attempts of which all but perhaps the last failed. */
  function AttemptEvents(env: Env, index: nat, n: nat, ok: bool): seq<Event>
    requires index < |env.invocations|
  {
    if n == 0 then []
    else
      var max := NormalizeMaxAttempts(env.invocations[index].maxAttempts);
      AttemptEvents(env, index, n - 1, false)
      + [Started(index, n), if ok then Succeeded(index, n) else Failed(index, n, n < max || env.retryableOnError)]
  }

  function EventsOf(env: Env, index: nat, r: Record): seq<Event>
    requires index < |env.invocations|
  {
    match r
    case Ran(starts, ok) => AttemptEvents(env, index, |starts|, ok)
    case Refused(starts, _, _) => AttemptEvents(env, index, |starts|, false) + [RefusedEvent(index)]
    case _ => [SkippedEvent(index)]
  }

  /** The results and events that a list of records stands for. */
  function Results(env: Env, records: seq<Record>): (results: seq<Result>)
    requires |records| <= |env.invocations|
    ensures |results| == |records|
    ensures forall i :: 0 <= i < |records| ==> results[i] == ResultOf(env, env.invocations[i], records[i])
  {
    if records == [] then []
    else
      var n := |records| - 1;
      Results(env, records[..n]) + [ResultOf(env, env.invocations[n], records[n])]
  }

  function Events(env: Env, records: seq<Record>): seq<Event>
    requires |records| <= |env.invocations|
  {
    if records == [] then []
    else
      var n := |records| - 1;
      Events(env, records[..n]) + EventsOf(env, n, records[n])
  }

  // ----- Runs -----

  datatype Options = Options(continueOnError: Option<bool>, retryableOnError: bool, executionBudget: Option<Budget>)
  datatype Report = Report(results: seq<Result>, events: seq<Event>, assessment: Option<Assessment>)

  /** The promise rejects when the budget is not valid or a result cannot be constructed. */
  datatype Outcome = Completed(report: Report) | Thrown

  function EnvOf(queue: Queue, options: Options, succeeds: (nat, nat) -> bool, clock: nat -> real): Env {
    var policy := if queue.executionPolicy.Some? then queue.executionPolicy.value else DEFAULT_POLICY;
    Env(queue.invocations,
        if options.continueOnError.Some? then options.continueOnError.value
          else policy.failureMode.ContinueIndependent?,
        if options.executionBudget.Some? then options.executionBudget else queue.executionBudget,
        options.retryableOnError, succeeds, clock)
  }

  predicate Throws(env: Env) {
    || (env.budget.Some? && !ValidBudget(env.budget.value))
    || exists i :: 0 <= i < |env.invocations| && !Recordable(env.invocations[i])
  }

  /** The preflight check fails: the queue's worst case is over the budget for tool calls. */
  predicate OverBudgetAtOnce(env: Env) {
    env.budget.Some? && Blocked(Assess(env.budget.value, 0, AttemptSum(env.invocations), 0.0))
  }

  /** The record of invocation `i` in a run refused before its first clock reading. */
  function RefusedRecord(env: Env, i: nat): Record
    requires env.budget.Some? && i < |env.invocations|
  {
    if i == 0 then Refused([], 0, Assess(env.budget.value, 0, AttemptSum(env.invocations), 0.0))
    else CutOff(env.invocations[0].id)
  }

  ghost predicate RefusedAtOnce(env: Env, records: seq<Record>)
    requires env.budget.Some?
  {
    && |records| == |env.invocations|
    && forall i :: 0 <= i < |records| ==> records[i] == RefusedRecord(env, i)
  }

  // ----- Extending a list of records -----

  lemma ExtendRecords(env: Env, records: seq<Record>, r: Record)
    requires |records| < |env.invocations|
    ensures
      var n, more := |records|, records + [r];
      && (Legal(env, records) && LegalNext(env, records, r) ==> Legal(env, more))
      && StopIndex(env, more) == (if StopIndex(env, records).Some? then StopIndex(env, records)
                                  else if Stops(env, r) then Some(n) else None)
      && FailedSteps(env, more) ==
        (if r.Failing() then FailedSteps(env, records) + {env.invocations[n].stepId} else FailedSteps(env, records))
      && CallsMade(more) == CallsMade(records) + |r.Starts()|
      && AllReadings(more) == AllReadings(records) + r.Readings()
      && Results(env, more) == Results(env, records) + [ResultOf(env, env.invocations[n], r)]
      && Events(env, more) == Events(env, records) + EventsOf(env, n, r)
  {
    var more := records + [r];
    assert more[..|more| - 1] == records && more[|more| - 1] == r;
  }

  lemma {:induction false} FirstFailedIsFailed(dependencies: seq<string>, failed: set<string>)
    ensures match FirstFailed(dependencies, failed)
            case Some(d) => d in dependencies && d in failed
            case None => forall d :: d in dependencies ==> d !in failed
  {
    if dependencies != [] {
      FirstFailedIsFailed(dependencies[1..], failed);
    }
  }

  lemma StopsAtRefusalOrError(env: Env, r: Record)
    ensures r.Refused? ==> Stops(env, r) && r.Failing()
    ensures r.Ran? && r.ok ==> !Stops(env, r) && !r.Failing()
    ensures r.Ran? && !r.ok ==> Stops(env, r) == !env.continueIndependent && r.Failing()
    ensures r.DependencySkip? ==> !Stops(env, r) && r.Failing() && r.Starts() == []
    ensures r.DependencySkip? || r.CutOff? ==> r.Readings() == r.Starts() == []
    ensures r.Ran? || r.Refused? ==> r.Starts() == r.starts
  {
  }

  /** The records of a run, whether or not its preflight check passed. */
  ghost predicate Explains(env: Env, records: seq<Record>) {
    && |records| == |env.invocations|
    && if OverBudgetAtOnce(env) then RefusedAtOnce(env, records) else Legal(env, records)
  }

  lemma AsManyRecords(env: Env, records: seq<Record>)
    requires Explains(env, records)
    ensures |records| == |env.invocations|
  {
  }

  lemma ExplainedIsLegal(env: Env, records: seq<Record>)
    requires Explains(env, records) && !OverBudgetAtOnce(env)
    ensures Legal(env, records) && |records| == |env.invocations|
  {
    hide Legal, OverBudgetAtOnce;
  }

  // ----- What holds of every run -----

  /** Any record of a run follows from the ones before it. */
  lemma {:induction false} RecordIsLegal(env: Env, records: seq<Record>, i: nat)
    requires Legal(env, records) && i < |records|
    ensures Legal(env, records[..i]) && LegalNext(env, records[..i], records[i])
    decreases |records|
  {
    var n := |records| - 1;
    if i < n {
      RecordIsLegal(env, records[..n], i);
      assert records[..n][..i] == records[..i];
    }
  }

  lemma {:induction false} StopIndexStays(env: Env, records: seq<Record>, i: nat)
    requires i <= |records| && StopIndex(env, records[..i]).Some?
    ensures StopIndex(env, records) == StopIndex(env, records[..i])
    decreases |records|
  {
    if i < |records| {
      assert records[..|records| - 1][..i] == records[..i];
      StopIndexStays(env, records[..|records| - 1], i);
    } else {
      assert records[..i] == records;
    }
  }

  lemma {:induction false} FailedStepsAre(env: Env, records: seq<Record>, stepId: string)
    requires |records| <= |env.invocations|
    ensures stepId in FailedSteps(env, records) <==>
      exists j :: 0 <= j < |records| && records[j].Failing() && env.invocations[j].stepId == stepId
  {
    if records != [] {
      var n := |records| - 1;
      FailedStepsAre(env, records[..n], stepId);
      assert forall j :: 0 <= j < n ==> records[..n][j] == records[j];
    }
  }

  /** The whole queue after a stopping record is cut off, with the id of the invocation that stopped it. */
  lemma NothingRunsAfterStop(env: Env, records: seq<Record>, k: nat, i: nat)
    requires Legal(env, records) && k < i < |records| && Stops(env, records[k])
    requires StopIndex(env, records[..k]).None?
    ensures records[i] == CutOff(env.invocations[k].id)
  {
    assert records[..k + 1][..k] == records[..k];
    assert StopIndex(env, records[..k + 1]) == Some(k);
    assert records[..i][..k + 1] == records[..k + 1];
    StopIndexStays(env, records[..i], k + 1);
    RecordIsLegal(env, records, i);
  }

  /** A record that is not a cut-off was made before anything stopped the run. */
  lemma LiveRecord(env: Env, records: seq<Record>, i: nat)
    requires Legal(env, records) && i < |records| && !records[i].CutOff?
    ensures StopIndex(env, records[..i]).None?
  {
    RecordIsLegal(env, records, i);
  }

  /** After a refusal nothing more runs, in either failure mode. */
  lemma NothingRunsAfterRefusal(env: Env, records: seq<Record>, k: nat, i: nat)
    requires Explains(env, records) && k < i < |records| && records[k].Refused?
    ensures records[i] == CutOff(env.invocations[k].id)
  {
    if !OverBudgetAtOnce(env) {
      LiveRecord(env, records, k);
      NothingRunsAfterStop(env, records, k, i);
    }
  }

  /** The shape of a fail-fast run: successes, then at most one error, then only skips. */
  ghost predicate FailFastShape(records: seq<Record>, k: nat) {
    && k <= |records|
    && (forall i :: 0 <= i < k ==> records[i].Status() == Success)
    && (k < |records| ==> records[k].Status() == Error)
    && (forall i :: k < i < |records| ==> records[i].Status() == Skipped)
  }

  lemma FailFastRunsHaveShape(env: Env, records: seq<Record>) returns (k: nat)
    requires Explains(env, records) && !env.continueIndependent
    ensures FailFastShape(records, k)
  {
    if OverBudgetAtOnce(env) {
      k := 0;
    } else {
      k := FirstNonSuccess(env, records);
    }
  }

  lemma {:induction false} FirstNonSuccess(env: Env, records: seq<Record>) returns (k: nat)
    requires Legal(env, records) && !env.continueIndependent
    ensures FailFastShape(records, k)
    ensures k == |records| ==> StopIndex(env, records).None? && FailedSteps(env, records) == {}
    ensures k < |records| ==> StopIndex(env, records) == Some(k)
  {
    if records == [] {
      k := 0;
    } else {
      var init, r := records[..|records| - 1], records[|records| - 1];
      hide Legal, LegalNext, FailFastShape, StopIndex, FailedSteps, Stops, CallsMade, AllReadings, Results, Events;
      assert records == init + [r];
      LastIsLegalNext(env, init, r);
      k := FirstNonSuccess(env, init);
      FailFastNext(env, init, r, k);
      ShapeOfMore(init, r, k);
      ExtendRecords(env, init, r);
      StopsAtRefusalOrError(env, r);
      if k == |init| && r.Status() == Success {
        k := |init| + 1;
      }
    }
  }

  lemma LastIsLegalNext(env: Env, init: seq<Record>, r: Record)
    requires Legal(env, init + [r])
    ensures |init| < |env.invocations| && Legal(env, init) && LegalNext(env, init, r)
  {
    assert (init + [r])[..|init|] == init;
    hide LegalNext;
  }

  /** After only successes comes a success or an error; after an error or a refusal comes a skip. */
  lemma FailFastNext(env: Env, init: seq<Record>, r: Record, k: nat)
    requires k <= |init| < |env.invocations| && LegalNext(env, init, r)
    requires k == |init| ==> StopIndex(env, init).None? && FailedSteps(env, init) == {}
    requires k < |init| ==> StopIndex(env, init) == Some(k)
    ensures if k < |init| then r.CutOff? && r.Status() == Skipped else r.Ran? || r.Refused?
  {
    FirstFailedIsFailed(env.invocations[|init|].dependsOnStepIds, FailedSteps(env, init));
  }

  lemma ShapeOfMore(init: seq<Record>, r: Record, k: nat)
    requires FailFastShape(init, k) && (k < |init| ==> r.Status() == Skipped)
    ensures k < |init| || r.Status() == Error ==> FailFastShape(init + [r], k)
    ensures k == |init| && r.Status() == Success ==> FailFastShape(init + [r], k + 1)
  {
    var more := init + [r];
    assert more[|init|] == r && forall i :: 0 <= i < |init| ==> more[i] == init[i];
    if k == |init| && r.Status() == Success {
      assert FailFastShape(more, k + 1);
    } else if k < |init| || r.Status() == Error {
      assert FailFastShape(more, k);
    }
  }

  /** In continue-independent mode without a refusal, an invocation is skipped exactly when a step that it
      depends on has an earlier invocation that failed or was skipped. */
  lemma SkippedIffDependencyFailed(env: Env, records: seq<Record>, i: nat)
    requires Legal(env, records) && env.continueIndependent && i < |records|
    requires forall j :: 0 <= j < i ==> !records[j].Refused?
    ensures (records[i].DependencySkip? || records[i].CutOff?) <==>
      exists j :: 0 <= j < i && records[j].Failing() && env.invocations[j].stepId in env.invocations[i].dependsOnStepIds
  {
    RecordIsLegal(env, records, i);
    NoStopWithoutRefusal(env, records[..i]);
    var failed := FailedSteps(env, records[..i]);
    FirstFailedIsFailed(env.invocations[i].dependsOnStepIds, failed);
    forall d | d in env.invocations[i].dependsOnStepIds
      ensures d in failed <==> exists j :: 0 <= j < i && records[j].Failing() && env.invocations[j].stepId == d
    {
      FailedStepsAre(env, records[..i], d);
    }
  }

  lemma {:induction false} NoStopWithoutRefusal(env: Env, records: seq<Record>)
    requires env.continueIndependent && forall j :: 0 <= j < |records| ==> !records[j].Refused?
    ensures StopIndex(env, records).None?
  {
    if records != [] {
      NoStopWithoutRefusal(env, records[..|records| - 1]);
    }
  }

  // ----- Dependencies -----

  /** The step of invocation `i` depends on the step of invocation `j`, wherever that stands in the queue. */
  predicate DependsDirectly(invocations: seq<Invocation>, i: nat, j: nat) {
    i < |invocations| && j < |invocations| && invocations[j].stepId in invocations[i].dependsOnStepIds
  }

  /** A chain of invocations each of which depends directly on the next. */
  predicate DependencyChain(invocations: seq<Invocation>, chain: seq<nat>) {
    && |chain| >= 2 && (forall k :: 0 <= k < |chain| ==> chain[k] < |invocations|)
    && forall k, m | 0 <= k && m == k + 1 < |chain| :: DependsDirectly(invocations, chain[k], chain[m])
  }

  /** Invocation `i` depends on invocation `j`, directly or through steps that have invocations. */
  ghost predicate DependsOn(invocations: seq<Invocation>, i: nat, j: nat) {
    exists chain :: DependencyChain(invocations, chain) && chain[0] == i && chain[|chain| - 1] == j
  }

  predicate Executed(r: Record) {
    r.Ran? || r.Refused?
  }

  /** A direct dependency that stands earlier than an executed invocation has succeeded. */
  lemma EarlierDependencySucceeded(env: Env, records: seq<Record>, i: nat, j: nat)
    requires Legal(env, records) && i < |records| && Executed(records[i])
    requires DependsDirectly(env.invocations, i, j) && j < i
    ensures records[j].Status() == Success && Executed(records[j])
  {
    RecordIsLegal(env, records, i);
    var failed := FailedSteps(env, records[..i]);
    FirstFailedIsFailed(env.invocations[i].dependsOnStepIds, failed);
    FailedStepsAre(env, records[..i], env.invocations[j].stepId);
    hide Legal, FailedSteps, StopIndex, LegalAttempts;
    assert records[..i][j] == records[j] && !records[j].Failing();
  }

  /** Down a chain of dependencies that starts at an executed invocation, and in which every invocation but
      the last stands after all its dependencies, each invocation comes earlier and has succeeded. */
  lemma ExecutedChainSucceeded(env: Env, records: seq<Record>, chain: seq<nat>)
    requires Explains(env, records) && DependencyChain(env.invocations, chain)
    requires |records| == |env.invocations|
    requires forall k :: 0 <= k < |chain| - 1 ==> DependenciesBefore(env.invocations, chain[k])
    requires Executed(records[chain[0]])
    ensures forall k :: 1 <= k < |chain| ==> chain[k] < chain[0] && records[chain[k]].Status() == Success
  {
    var i, j := chain[0], chain[1];
    assert DependsDirectly(env.invocations, i, j) && DependenciesBefore(env.invocations, i);
    assert i > 0; // so that no run refused at once executes it
    if !OverBudgetAtOnce(env) {
      LegalChainSucceeded(env, records, chain);
    }
  }

  lemma {:induction false} LegalChainSucceeded(env: Env, records: seq<Record>, chain: seq<nat>)
    requires Legal(env, records) && |records| == |env.invocations| && DependencyChain(env.invocations, chain)
    requires forall k :: 0 <= k < |chain| - 1 ==> DependenciesBefore(env.invocations, chain[k])
    requires Executed(records[chain[0]])
    ensures forall k :: 1 <= k < |chain| ==> chain[k] < chain[0] && records[chain[k]].Status() == Success
    decreases |chain|
  {
    hide Legal;
    var i, j := chain[0], chain[1];
    assert DependsDirectly(env.invocations, i, j) && DependenciesBefore(env.invocations, i);
    EarlierDependencySucceeded(env, records, i, j);
    if |chain| > 2 {
      var rest := chain[1..];
      forall k, m | 0 <= k && m == k + 1 < |rest|
        ensures DependsDirectly(env.invocations, rest[k], rest[m])
      {
        assert DependsDirectly(env.invocations, chain[m], chain[m + 1]);
      }
      LegalChainSucceeded(env, records, rest);
      forall k | 1 <= k < |chain|
        ensures chain[k] < i && records[chain[k]].Status() == Success
      {
        assert k > 1 ==> chain[k] == rest[k - 1];
      }
    }
  }

  /** When the queue lists dependency steps first, all invocations that an executed one depends on, wherever
      they stand, come earlier and have succeeded. */
  lemma ExecutedHasSuccessfulDependencies(env: Env, records: seq<Record>, i: nat, j: nat)
    requires Explains(env, records) && DependenciesFirst(env.invocations)
    requires i < |records| && Executed(records[i]) && DependsOn(env.invocations, i, j)
    ensures j < i && j < |records| && records[j].Status() == Success
  {
    AsManyRecords(env, records);
    hide Explains, DependenciesBefore;
    var chain :| DependencyChain(env.invocations, chain) && chain[0] == i && chain[|chain| - 1] == j;
    forall k | 0 <= k < |chain| - 1
      ensures DependenciesBefore(env.invocations, chain[k])
    {
      assert DependsDirectly(env.invocations, chain[k], chain[k + 1]);
    }
    ExecutedChainSucceeded(env, records, chain);
  }

  // ----- How failures pass on -----

  /** A chain of invocations each of which depends directly on the next, an earlier one, and the last of which
      ended in an error. */
  ghost predicate FailureChain(env: Env, records: seq<Record>, chain: seq<nat>) {
    && DependencyChain(env.invocations, chain)
    && (forall k :: 0 <= k < |chain| ==> chain[k] < |records|)
    && (forall k, m | 0 <= k && m == k + 1 < |chain| :: chain[m] < chain[k])
    && records[chain[|chain| - 1]].Status() == Error
  }

  /** A failure passes on to invocation `i`. */
  ghost predicate FailureReaches(env: Env, records: seq<Record>, i: nat) {
    exists chain :: FailureChain(env, records, chain) && chain[0] == i
  }

  lemma ShortChain(env: Env, records: seq<Record>, i: nat, j: nat)
    requires j < i < |records| && DependsDirectly(env.invocations, i, j) && records[j].Status() == Error
    ensures FailureChain(env, records, [i, j])
  {
    var chain := [i, j];
    assert chain[|chain| - 1] == j && |chain| == 2;
  }

  lemma LongerChain(env: Env, records: seq<Record>, i: nat, rest: seq<nat>)
    requires FailureChain(env, records, rest) && rest[0] < i < |records|
    requires DependsDirectly(env.invocations, i, rest[0])
    ensures FailureChain(env, records, [i] + rest)
  {
    var chain := [i] + rest;
    assert chain[0] == i && forall k :: 1 <= k < |chain| ==> chain[k] == rest[k - 1];
    forall k, m | 0 <= k && m == k + 1 < |chain|
      ensures DependsDirectly(env.invocations, chain[k], chain[m]) && chain[m] < chain[k]
    {
      if k > 0 {
        assert DependsDirectly(env.invocations, rest[k - 1], rest[m - 1]) && rest[m - 1] < rest[k - 1];
      }
    }
  }

  lemma ChainWithoutFirst(env: Env, records: seq<Record>, chain: seq<nat>)
    requires FailureChain(env, records, chain)
    ensures |chain| >= 2 && chain[1] < chain[0] < |records| && DependsDirectly(env.invocations, chain[0], chain[1])
    ensures |chain| == 2 ==> records[chain[1]].Status() == Error
    ensures |chain| > 2 ==> FailureChain(env, records, chain[1..])
  {
    var rest := chain[1..];
    forall k, m | 0 <= k && m == k + 1 < |rest|
      ensures DependsDirectly(env.invocations, rest[k], rest[m]) && rest[m] < rest[k]
    {
      assert DependsDirectly(env.invocations, chain[k + 1], chain[m + 1]) && chain[m + 1] < chain[k + 1];
    }
  }

  lemma SkippedIffNotExecuted(r: Record)
    ensures r.Status() == Skipped <==> r.DependencySkip? || r.CutOff?
    ensures r.Failing() <==> r.Status() == Skipped || r.Status() == Error
  {
  }

  lemma {:induction false} SkippedHasChain(env: Env, records: seq<Record>, i: nat) returns (chain: seq<nat>)
    requires Legal(env, records) && env.continueIndependent && i < |records|
    requires forall j :: 0 <= j < i ==> !records[j].Refused?
    requires records[i].Status() == Skipped
    ensures FailureChain(env, records, chain) && chain[0] == i
    decreases i
  {
    SkippedIffDependencyFailed(env, records, i);
    SkippedIffNotExecuted(records[i]);
    LegalLength(env, records, i);
    hide *;
    var j :| 0 <= j < i && records[j].Failing() && env.invocations[j].stepId in env.invocations[i].dependsOnStepIds;
    SkippedIffNotExecuted(records[j]);
    DirectlyMeans(env.invocations, i, j);
    if records[j].Status() == Error {
      ShortChain(env, records, i, j);
      chain := [i, j];
    } else {
      var rest := SkippedHasChain(env, records, j);
      LongerChain(env, records, i, rest);
      chain := [i] + rest;
    }
  }

  lemma DirectlyMeans(invocations: seq<Invocation>, i: nat, j: nat)
    requires i < |invocations| && j < |invocations|
    ensures DependsDirectly(invocations, i, j) <==> invocations[j].stepId in invocations[i].dependsOnStepIds
  {
  }

  lemma {:induction false} ChainSkips(env: Env, records: seq<Record>, chain: seq<nat>)
    requires Legal(env, records) && env.continueIndependent && FailureChain(env, records, chain)
    requires chain[0] < |records| && forall j :: 0 <= j < chain[0] ==> !records[j].Refused?
    ensures records[chain[0]].Status() == Skipped
    decreases |chain|
  {
    hide *;
    ChainWithoutFirst(env, records, chain);
    var i, j := chain[0], chain[1];
    LegalLength(env, records, i);
    if |chain| > 2 {
      ChainSkips(env, records, chain[1..]);
    }
    DirectlyMeans(env.invocations, i, j);
    SkippedIffNotExecuted(records[j]);
    SkippedIffNotExecuted(records[i]);
    SkippedIffDependencyFailed(env, records, i);
  }

  /** In continue-independent mode, an invocation is skipped exactly when a refusal came before it or a failure
      passes on to it: along a chain of invocations, each earlier than and depended upon by the one before, from
      it to one that ended in an error. */
  lemma SkippedIffFailureReaches(env: Env, records: seq<Record>, i: nat)
    requires Explains(env, records) && env.continueIndependent && i < |records|
    ensures records[i].Status() == Skipped <==>
      (exists k :: 0 <= k < i && records[k].Refused?) || FailureReaches(env, records, i)
  {
    hide *;
    if k :| 0 <= k < i && records[k].Refused? {
      NothingRunsAfterRefusal(env, records, k, i);
      SkippedIffNotExecuted(records[i]);
    } else {
      if OverBudgetAtOnce(env) {
        FirstIsRefused(env, records);
        FirstIsNotReached(env, records);
      } else {
        ExplainedIsLegal(env, records);
        SkippedIffReached(env, records, i);
      }
    }
  }

  lemma SkippedIffReached(env: Env, records: seq<Record>, i: nat)
    requires Legal(env, records) && env.continueIndependent && i < |records|
    requires forall j :: 0 <= j < i ==> !records[j].Refused?
    ensures records[i].Status() == Skipped <==> FailureReaches(env, records, i)
  {
    hide Legal;
    if records[i].Status() == Skipped {
      var chain := SkippedHasChain(env, records, i);
    }
    if FailureReaches(env, records, i) {
      var chain :| FailureChain(env, records, chain) && chain[0] == i;
      ChainSkips(env, records, chain);
    }
  }

  lemma FirstIsRefused(env: Env, records: seq<Record>)
    requires Explains(env, records) && OverBudgetAtOnce(env) && records != []
    ensures records[0].Refused? && records[0].Status() != Skipped
  {
  }

  lemma FirstIsNotReached(env: Env, records: seq<Record>)
    ensures !FailureReaches(env, records, 0)
  {
    if chain :| FailureChain(env, records, chain) && chain[0] == 0 {
      ChainWithoutFirst(env, records, chain);
    }
  }

  // ----- Retries and the budget -----

  /** Every executed invocation is tried at most its normalized number of times, stops at its first
      success and gives up only after its last attempt. */
  lemma AttemptsAreBounded(env: Env, records: seq<Record>, i: nat)
    requires Legal(env, records) && i < |records| && records[i].Ran?
    ensures 1 <= |records[i].starts| <= NormalizeMaxAttempts(env.invocations[i].maxAttempts) <= 3
    ensures forall a :: 1 <= a < |records[i].starts| ==> !env.succeeds(i, a)
    ensures records[i].ok == env.succeeds(i, |records[i].starts|)
    ensures !records[i].ok ==> |records[i].starts| == NormalizeMaxAttempts(env.invocations[i].maxAttempts)
  {
    RecordIsLegal(env, records, i);
  }

  lemma {:induction false} CallsAreBounded(env: Env, records: seq<Record>)
    requires Legal(env, records)
    ensures CallsMade(records) <= AttemptSum(env.invocations[..|records|])
    ensures records != [] && records[|records| - 1].Refused? ==>
      CallsMade(records) < AttemptSum(env.invocations[..|records|])
  {
    if records != [] {
      var n := |records| - 1;
      CallsAreBounded(env, records[..n]);
      assert env.invocations[..n + 1][..n] == env.invocations[..n];
    }
  }

  lemma {:induction false} AttemptSumOfPrefix(invocations: seq<Invocation>, n: nat)
    requires n <= |invocations|
    ensures AttemptSum(invocations[..n]) <= AttemptSum(invocations)
  {
    assert invocations == invocations[..n] + invocations[n..];
    AttemptSumConcat(invocations[..n], invocations[n..]);
  }

  /** No run makes more executor calls than its budget allows. */
  lemma CallsStayWithinBudget(env: Env, records: seq<Record>)
    requires Explains(env, records) && env.budget.Some? && ValidBudget(env.budget.value)
    ensures CallsMade(records) <= env.budget.value.maxToolCalls
  {
    var budget := env.budget.value;
    BlockedIff(budget, 0, AttemptSum(env.invocations), 0.0);
    if OverBudgetAtOnce(env) {
      NoCallsWhenRefusedAtOnce(env, records, |records|);
      assert records[..|records|] == records;
    } else {
      CallsAreBounded(env, records);
      AttemptSumOfPrefix(env.invocations, |records|);
    }
  }

  lemma {:induction false} NoCallsWhenRefusedAtOnce(env: Env, records: seq<Record>, n: nat)
    requires env.budget.Some? && RefusedAtOnce(env, records) && n <= |records|
    ensures CallsMade(records[..n]) == 0
  {
    if n > 0 {
      NoCallsWhenRefusedAtOnce(env, records, n - 1);
      assert records[..n][..n - 1] == records[..n - 1];
    }
  }

  /** No attempt starts once the elapsed time, rounded down, is over the limit. */
  lemma AttemptsStartInTime(env: Env, records: seq<Record>, i: nat, a: nat)
    requires Legal(env, records) && i < |records| && a < |records[i].Starts()| && env.budget.Some?
    ensures Max0(env.clock(records[i].Starts()[a]) - env.clock(0)).Floor <= env.budget.value.maxDurationMs
  {
    RecordIsLegal(env, records, i);
    var calls := CallsMade(records[..i]) + a;
    var tick := records[i].Starts()[a];
    assert MayStart(env, tick, calls);
    BlockedIff(env.budget.value, 0, calls, Max0(env.clock(tick) - env.clock(0)));
  }

  lemma RefusedNext(env: Env, before: seq<Record>, r: Record)
    requires |before| < |env.invocations| && LegalNext(env, before, r) && r.Refused?
    ensures var calls := CallsMade(before) + |r.starts|;
            && env.budget.Some? && Blocked(r.assessment)
            && r.assessment == Assess(env.budget.value, 0, calls, Max0(env.clock(r.tick) - env.clock(0)))
  {
    hide CallsMade, Assess, Blocked, StopIndex, FailedSteps, FirstFailed, Max0, MayStart;
  }

  lemma LegalLength(env: Env, records: seq<Record>, i: nat)
    requires Legal(env, records) && i < |records|
    ensures i < |env.invocations| && |records[..i]| == i
  {
  }

  lemma RefusalIsAssessed(env: Env, records: seq<Record>, i: nat)
    requires Legal(env, records) && env.budget.Some? && i < |records| && records[i].Refused?
    ensures var r := records[i];
            var calls, elapsed := CallsMade(records[..i]) + |r.starts|, Max0(env.clock(r.tick) - env.clock(0));
            r.assessment == Assess(env.budget.value, 0, calls, elapsed) && Blocked(r.assessment)
  {
    hide *;
    LegalLength(env, records, i);
    RecordIsLegal(env, records, i);
    RefusedNext(env, records[..i], records[i]);
  }

  lemma OnlyDurationIsOver(budget: Budget, calls: nat, elapsed: real)
    requires ValidBudget(budget) && calls <= budget.maxToolCalls && elapsed >= 0.0
      && Blocked(Assess(budget, 0, calls, elapsed))
    ensures var a := Assess(budget, 0, calls, elapsed);
            && a.violations == [Violation(DurationExceeded, a.elapsedMs, budget.maxDurationMs)]
            && a.elapsedMs > budget.maxDurationMs
  {
  }

  /** After a passed preflight check, only the duration can refuse an invocation. */
  lemma OnlyDurationRefuses(env: Env, records: seq<Record>, i: nat)
    requires Explains(env, records) && env.budget.Some? && ValidBudget(env.budget.value)
    requires !OverBudgetAtOnce(env) && i < |records| && records[i].Refused?
    ensures var a, limit := records[i].assessment, env.budget.value.maxDurationMs;
            a.violations == [Violation(DurationExceeded, a.elapsedMs, limit)] && a.elapsedMs > limit
  {
    var r, budget := records[i], env.budget.value;
    var calls := CallsMade(records[..i]) + |r.starts|;
    var elapsed := Max0(env.clock(r.tick) - env.clock(0));
    RefusalIsAssessed(env, records, i);
    hide Legal, LegalNext, CallsMade, AttemptSum, Assess, Blocked;
    RefusedCallsAreFew(env, records, i);
    BlockedIff(budget, 0, AttemptSum(env.invocations), 0.0);
    OnlyDurationIsOver(budget, calls, elapsed);
  }

  lemma RefusedCallsAreFew(env: Env, records: seq<Record>, i: nat)
    requires Legal(env, records) && |records| == |env.invocations| && i < |records| && records[i].Refused?
    ensures CallsMade(records[..i]) + |records[i].starts| <= AttemptSum(env.invocations)
  {
    RecordIsLegal(env, records, i);
    LegalPrefix(env, records, i + 1);
    CallsAreBounded(env, records[..i + 1]);
    assert records[..i + 1][..i] == records[..i];
    AttemptSumOfPrefix(env.invocations, i + 1);
  }

  lemma {:induction false} LegalPrefix(env: Env, records: seq<Record>, n: nat)
    requires Legal(env, records) && n <= |records|
    ensures Legal(env, records[..n])
    decreases |records|
  {
    if n < |records| {
      LegalPrefix(env, records[..|records| - 1], n);
      assert records[..|records| - 1][..n] == records[..n];
    } else {
      assert records[..n] == records;
    }
  }

  // ----- Events -----

  function StartedCount(events: seq<Event>): nat {
    if events == [] then 0
    else StartedCount(events[..|events| - 1]) + if events[|events| - 1].Started? then 1 else 0
  }

  lemma {:induction false} StartedCountConcat(a: seq<Event>, b: seq<Event>)
    ensures StartedCount(a + b) == StartedCount(a) + StartedCount(b)
  {
    if b == [] {
      assert a + b == a;
    } else {
      assert (a + b)[..|a + b| - 1] == a + b[..|b| - 1];
      StartedCountConcat(a, b[..|b| - 1]);
    }
  }

  lemma {:induction false} AttemptsStart(env: Env, index: nat, n: nat, ok: bool)
    requires index < |env.invocations|
    ensures StartedCount(AttemptEvents(env, index, n, ok)) == n
  {
    if n > 0 {
      var max := NormalizeMaxAttempts(env.invocations[index].maxAttempts);
      var started := Started(index, n);
      var ended := if ok then Succeeded(index, n) else Failed(index, n, n < max || env.retryableOnError);
      AttemptsStart(env, index, n - 1, false);
      StartedCountConcat(AttemptEvents(env, index, n - 1, false), [started, ended]);
      StartedCountConcat([started], [ended]);
      assert [started] + [ended] == [started, ended] && [started][..0] == [] && [ended][..0] == [];
      assert !ended.Started?;
    }
  }

  lemma StartsOfRecord(env: Env, index: nat, r: Record)
    requires index < |env.invocations|
    ensures StartedCount(EventsOf(env, index, r)) == |r.Starts()|
  {
    if r.Ran? || r.Refused? {
      AttemptsStart(env, index, |r.starts|, r.Ran? && r.ok);
      StartedCountConcat(AttemptEvents(env, index, |r.starts|, false), [RefusedEvent(index)]);
    }
    hide AttemptEvents;
  }

  /** An observer sees one `started` event for every call of a tool. */
  lemma {:induction false} StartedEventsAreCalls(env: Env, records: seq<Record>)
    requires |records| <= |env.invocations|
    ensures StartedCount(Events(env, records)) == CallsMade(records)
  {
    if records != [] {
      var n := |records| - 1;
      StartedEventsAreCalls(env, records[..n]);
      StartedCountConcat(Events(env, records[..n]), EventsOf(env, n, records[n]));
      StartsOfRecord(env, n, records[n]);
      hide StartedCount, EventsOf;
    }
  }
}
