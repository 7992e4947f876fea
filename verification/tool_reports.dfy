/** What the report of a run says, in terms of the queue, the options, the tools and the report only. */
module ToolReports {
  import opened Wrappers
  import opened Texts
  import opened ExecutionBudget
  import opened WorkflowTypes
  import opened ToolRuns

  function FinalAssessment(env: Env, made: nat, elapsedMs: real): Option<Assessment> {
    if env.budget.Some? then Some(Assess(env.budget.value, 0, made, Max0(elapsedMs))) else None
  }

  /** A report holds the assessment that refused an invocation; otherwise one of all calls made, at the end
      of the last attempt. Without a budget it holds none. */
  ghost predicate Assessed(env: Env, records: seq<Record>, assessment: Option<Assessment>) {
    var k := StopIndex(env, records);
    if k.Some? && records[k.value].Refused? then assessment == Some(records[k.value].assessment)
    else assessment == FinalAssessment(env, CallsMade(records), Elapsed(env, records))
  }

  /** A report and the records that explain it. */
  ghost predicate Reports(env: Env, records: seq<Record>, report: Report) {
    && Explains(env, records)
    && report.results == Results(env, records)
    && report.events == Events(env, records)
    && if OverBudgetAtOnce(env)
       then report.assessment == Some(Assess(env.budget.value, 0, AttemptSum(env.invocations), 0.0))
       else Assessed(env, records, report.assessment) && exists high :: ReadInOrder(env, records, high)
  }

  // ----- Results -----

  // These laws speak of the queue, the options, the tools and the report, and of nothing in between.

  /** A result needs an id, a tool and a step that are not blank. */
  predicate IsBlank(v: Invocation) {
    Trim(v.id) == "" || Trim(v.toolName) == "" || Trim(v.stepId) == ""
  }

  predicate HasBlank(invocations: seq<Invocation>) {
    exists i :: 0 <= i < |invocations| && IsBlank(invocations[i])
  }

  /** Two and three are the only numbers of attempts above one. */
  lemma AttemptsAllowed(value: Option<int>)
    ensures NormalizeMaxAttempts(value) ==
            match value
            case Some(n) => if 2 <= n <= 3 then n else 1
            case None => 1
  {
  }

  /** Whether the first error of a run is to end it. */
  predicate FailsFast(queue: Queue, options: Options) {
    match options.continueOnError
    case Some(goOn) => !goOn
    case None => queue.executionPolicy.None? || queue.executionPolicy.value.failureMode.FailFast?
  }

  /** The budget of a run: that of the options, if there is one, and otherwise that of the queue. */
  function BudgetOf(queue: Queue, options: Options): Option<Budget> {
    match options.executionBudget
    case Some(budget) => Some(budget)
    case None => queue.executionBudget
  }

  predicate IsRefusal(r: Result) {
    r.status == Error && r.reason.BudgetExceeded?
  }

  predicate EndsRun(queue: Queue, options: Options, r: Result) {
    IsRefusal(r) || (FailsFast(queue, options) && r.status == Error)
  }

  /** A result before the `i`-th is a failed or a skipped one of step `d`. */
  ghost predicate HasFailedBefore(invocations: seq<Invocation>, results: seq<Result>, i: nat, d: string)
    requires i <= |results| == |invocations|
  {
    exists j :: 0 <= j < i && results[j].status != Success && invocations[j].stepId == d
  }

  /** The first of the steps depended upon of which a result before the `i`-th failed. */
  ghost predicate IsFirstFailed(invocations: seq<Invocation>, results: seq<Result>, i: nat, d: string)
    requires i < |results| == |invocations|
  {
    var ds := invocations[i].dependsOnStepIds;
    exists p :: 0 <= p < |ds| && ds[p] == d && HasFailedBefore(invocations, results, i, d)
                && forall q :: 0 <= q < p ==> !HasFailedBefore(invocations, results, i, ds[q])
  }

  /** Attempt `a` is the first success of the tool of invocation `i`. */
  predicate FirstSuccess(succeeds: (nat, nat) -> bool, i: nat, a: nat) {
    a >= 1 && succeeds(i, a) && forall b :: 1 <= b < a ==> !succeeds(i, b)
  }

  /** A success means that some allowed attempt succeeded, a failure of the tool that none did. Only errors say
      whether a retry is worthwhile, and a refusal never is. */
  ghost predicate ExecutedAs(options: Options, succeeds: (nat, nat) -> bool, i: nat, max: nat, r: Result) {
    match r.status
    case Success =>
      r.reason == NoReason && r.retryable == None && exists a: nat :: a <= max && FirstSuccess(succeeds, i, a)
    case Error =>
      if r.reason.BudgetExceeded? then r.retryable == Some(false)
      else
        && r.reason == ToolFailed && r.retryable == Some(options.retryableOnError)
        && forall a :: 1 <= a <= max ==> !succeeds(i, a)
    case Skipped => r.retryable == None
  }

  /** What ended the run is the reason of everything after it. Otherwise what is skipped names the first failed
      step that it depends on. */
  ghost predicate SkippedFor(queue: Queue, options: Options, results: seq<Result>, i: nat)
    requires i < |results| == |queue.invocations|
  {
    && (forall k :: 0 <= k < i && EndsRun(queue, options, results[k]) ==>
          results[i].status == Skipped && results[i].reason == PreviousFailed(queue.invocations[k].id))
    && (results[i].status == Skipped && (forall k :: 0 <= k < i ==> !EndsRun(queue, options, results[k])) ==>
          && results[i].reason.DependencyFailed?
          && IsFirstFailed(queue.invocations, results, i, results[i].reason.stepId))
  }

  /** There is one result for each invocation, in their order, under its trimmed names. */
  ghost predicate NamesOf(v: Invocation, r: Result) {
    && r.invocationId == Trim(v.id) && r.toolName == Trim(v.toolName) && r.stepId == Trim(v.stepId)
    && r.provider == v.provider
  }

  ghost predicate ResultsTell(queue: Queue, options: Options, succeeds: (nat, nat) -> bool, results: seq<Result>) {
    && |results| == |queue.invocations|
    && forall i :: 0 <= i < |results| ==>
      && NamesOf(queue.invocations[i], results[i])
      && ExecutedAs(options, succeeds, i, NormalizeMaxAttempts(queue.invocations[i].maxAttempts), results[i])
      && SkippedFor(queue, options, results, i)
  }

  /** Successes, then at most one error, then only skips. */
  ghost predicate FailFastResults(results: seq<Result>, k: nat) {
    && k <= |results|
    && (forall i :: 0 <= i < k ==> results[i].status == Success)
    && (k < |results| ==> results[k].status == Error)
    && (forall i :: k < i < |results| ==> results[i].status == Skipped)
  }

  ghost predicate ErrorChain(invocations: seq<Invocation>, results: seq<Result>, chain: seq<nat>) {
    && DependencyChain(invocations, chain)
    && (forall k :: 0 <= k < |chain| ==> chain[k] < |results|)
    && (forall k, m | 0 <= k && m == k + 1 < |chain| :: chain[m] < chain[k])
    && results[chain[|chain| - 1]].status == Error
  }

  ghost predicate ErrorReaches(invocations: seq<Invocation>, results: seq<Result>, i: nat) {
    exists chain :: ErrorChain(invocations, results, chain) && chain[0] == i
  }

  /** Skipped is what comes after a refusal or what an error reaches along dependencies, and nothing else. */
  ghost predicate SkipsFollowErrors(invocations: seq<Invocation>, results: seq<Result>) {
    forall i | 0 <= i < |results| ::
      results[i].status == Skipped <==>
        (exists k :: 0 <= k < i && IsRefusal(results[k])) || ErrorReaches(invocations, results, i)
  }

  /** What a record says, in terms of its place in the run. */
  ghost predicate RecordTells(env: Env, records: seq<Record>, i: nat)
    requires i < |records| == |env.invocations|
  {
    var max := NormalizeMaxAttempts(env.invocations[i].maxAttempts);
    match records[i]
    case Ran(starts, true) => |starts| <= max && FirstSuccess(env.succeeds, i, |starts|)
    case Ran(starts, false) => |starts| == max && forall a :: 1 <= a <= max ==> !env.succeeds(i, a)
    case Refused(starts, _, assessment) =>
      && |starts| < max && assessment.violations != []
      && forall a :: 1 <= a <= |starts| ==> !env.succeeds(i, a)
    case DependencySkip(d) =>
      var ds := env.invocations[i].dependsOnStepIds;
      && (forall k :: 0 <= k < i ==> !Stops(env, records[k]))
      && exists p :: 0 <= p < |ds| && ds[p] == d && FailedBefore(env, records, i, d)
                     && forall q :: 0 <= q < p ==> !FailedBefore(env, records, i, ds[q])
    case CutOff(id) => exists k :: 0 <= k < i && Stops(env, records[k]) && id == env.invocations[k].id
  }

  ghost predicate FailedBefore(env: Env, records: seq<Record>, i: nat, d: string)
    requires i <= |records| == |env.invocations|
  {
    exists j :: 0 <= j < i && records[j].Failing() && env.invocations[j].stepId == d
  }

  lemma {:induction false} FirstFailedIsFirst(dependencies: seq<string>, failed: set<string>) returns (p: nat)
    requires FirstFailed(dependencies, failed).Some?
    ensures p < |dependencies| && dependencies[p] == FirstFailed(dependencies, failed).value
      && dependencies[p] in failed
    ensures forall q :: 0 <= q < p ==> dependencies[q] !in failed
  {
    if dependencies[0] in failed {
      p := 0;
    } else {
      p := FirstFailedIsFirst(dependencies[1..], failed);
      p := p + 1;
      assert forall q :: 1 <= q < p ==> dependencies[q] == dependencies[1..][q - 1];
    }
  }

  lemma {:induction false} NothingStopped(env: Env, records: seq<Record>)
    requires StopIndex(env, records).None?
    ensures forall k :: 0 <= k < |records| ==> !Stops(env, records[k])
  {
    if records != [] {
      var n := |records| - 1;
      NothingStopped(env, records[..n]);
      assert forall k :: 0 <= k < n ==> records[k] == records[..n][k];
    }
  }

  lemma SkipTells(env: Env, records: seq<Record>, i: nat)
    requires Legal(env, records) && i < |records| == |env.invocations| && records[i].DependencySkip?
    ensures RecordTells(env, records, i)
  {
    RecordIsLegal(env, records, i);
    LiveRecord(env, records, i);
    NothingStopped(env, records[..i]);
    var ds, failed := env.invocations[i].dependsOnStepIds, FailedSteps(env, records[..i]);
    var p := FirstFailedIsFirst(ds, failed);
    hide Legal, StopIndex, FailedSteps, FirstFailed, Stops;
    forall d
      ensures d in failed <==> FailedBefore(env, records, i, d)
    {
      FailedStepsAre(env, records[..i], d);
      assert forall j :: 0 <= j < i ==> records[..i][j] == records[j];
    }
    assert forall k :: 0 <= k < i ==> records[k] == records[..i][k];
  }

  lemma LegalRecordTells(env: Env, records: seq<Record>, i: nat)
    requires Legal(env, records) && i < |records| == |env.invocations|
    ensures RecordTells(env, records, i)
  {
    if records[i].DependencySkip? {
      SkipTells(env, records, i);
    } else if records[i].CutOff? {
      CutOffTells(env, records, i);
    } else {
      RecordIsLegal(env, records, i);
      AttemptsTell(env, records, i);
    }
  }

  lemma CutOffTells(env: Env, records: seq<Record>, i: nat)
    requires Legal(env, records) && i < |records| == |env.invocations| && records[i].CutOff?
    ensures RecordTells(env, records, i)
  {
    RecordIsLegal(env, records, i);
    var k := StopIndex(env, records[..i]);
    hide Legal, FailedSteps, FirstFailed, LegalAttempts, StopIndex, Stops, FirstSuccess, FailedBefore;
    assert k.Some?;
    assert records[..i][k.value] == records[k.value];
  }

  lemma AttemptsTell(env: Env, records: seq<Record>, i: nat)
    requires i < |records| == |env.invocations| && (records[i].Ran? || records[i].Refused?)
    requires LegalNext(env, records[..i], records[i])
    ensures RecordTells(env, records, i)
  {
    hide Legal, FailedSteps, FirstFailed, StopIndex, Stops, FailedBefore, CallsMade, MayStart, AssessAt;
    assert LegalAttempts(env, i, CallsMade(records[..i]), records[i]);
  }

  lemma ExplainedRecordTells(env: Env, records: seq<Record>, i: nat)
    requires Explains(env, records) && i < |records|
    ensures i < |env.invocations| == |records| && RecordTells(env, records, i)
  {
    if OverBudgetAtOnce(env) {
      assert Stops(env, records[0]);
      assert NormalizeMaxAttempts(env.invocations[i].maxAttempts) >= 1;
    } else {
      LegalRecordTells(env, records, i);
    }
  }

  /** Nothing after what stops a run is executed. */
  lemma StoppedForGood(env: Env, records: seq<Record>, k: nat, i: nat)
    requires Explains(env, records) && k < i < |records| && Stops(env, records[k])
    ensures i < |env.invocations| && records[i] == CutOff(env.invocations[k].id)
  {
    if !OverBudgetAtOnce(env) {
      LiveRecord(env, records, k);
      NothingRunsAfterStop(env, records, k, i);
    }
  }

  lemma EnvIsAsked(queue: Queue, options: Options, succeeds: (nat, nat) -> bool, clock: nat -> real)
    ensures var env := EnvOf(queue, options, succeeds, clock);
            && env.invocations == queue.invocations && env.succeeds == succeeds && env.clock == clock
            && env.continueIndependent == !FailsFast(queue, options)
            && env.budget == BudgetOf(queue, options) && env.retryableOnError == options.retryableOnError
  {
  }

  /** A record and the result made of it. */
  lemma ResultSays(env: Env, v: Invocation, r: Record)
    requires r.Refused? ==> r.assessment.violations != []
    ensures var result := ResultOf(env, v, r);
            && NamesOf(v, result) && result.status == r.Status() && (IsRefusal(result) <==> r.Refused?)
            && (r.Ran? ==> result.reason == if r.ok then NoReason else ToolFailed)
            && (r.DependencySkip? ==> result.reason == DependencyFailed(r.stepId))
            && (r.CutOff? ==> result.reason == PreviousFailed(r.invocationId))
            && result.retryable == (if r.Refused? then Some(false)
                                    else if r.Ran? && !r.ok then Some(env.retryableOnError) else None)
            && (r.Status() == Success <==> !r.Failing()) && (r.Status() == Skipped <==> r.DependencySkip? || r.CutOff?)
            && (Stops(env, r) <==> IsRefusal(result) || (!env.continueIndependent && result.status == Error))
  {
    hide Trim;
  }

  /** The results of an explained run and its records, place by place. */
  lemma ResultsMatch(env: Env, records: seq<Record>)
    requires Explains(env, records)
    ensures |records| == |env.invocations| == |Results(env, records)|
    ensures forall i :: 0 <= i < |records| ==>
      && RecordTells(env, records, i)
      && Results(env, records)[i] == ResultOf(env, env.invocations[i], records[i])
      && (records[i].Refused? ==> records[i].assessment.violations != [])
  {
    AsManyRecords(env, records);
    forall i | 0 <= i < |records|
      ensures RecordTells(env, records, i) && (records[i].Refused? ==> records[i].assessment.violations != [])
    {
      ExplainedRecordTells(env, records, i);
    }
    hide Explains, Results, ResultOf;
  }

  lemma ResultTellsExecution(env: Env, options: Options, records: seq<Record>, i: nat)
    requires Explains(env, records) && i < |records| && env.retryableOnError == options.retryableOnError
    ensures i < |env.invocations| == |Results(env, records)|
    ensures ExecutedAs(options, env.succeeds, i, NormalizeMaxAttempts(env.invocations[i].maxAttempts),
                       Results(env, records)[i])
  {
    ResultsMatch(env, records);
    ResultSays(env, env.invocations[i], records[i]);
    hide Explains, Results, ResultOf, FirstSuccess, Stops, NormalizeMaxAttempts, FailedBefore;
  }

  lemma ResultTellsSkip(queue: Queue, options: Options, succeeds: (nat, nat) -> bool, clock: nat -> real,
                        records: seq<Record>, i: nat)
    requires Explains(EnvOf(queue, options, succeeds, clock), records) && i < |records|
    ensures |Results(EnvOf(queue, options, succeeds, clock), records)| == |queue.invocations| == |records|
    ensures SkippedFor(queue, options, Results(EnvOf(queue, options, succeeds, clock), records), i)
  {
    var env := EnvOf(queue, options, succeeds, clock);
    EnvIsAsked(queue, options, succeeds, clock);
    ResultsMatch(env, records);
    var results := Results(env, records);
    hide EnvOf, Explains, Results, ResultOf, FirstSuccess, Stops, NormalizeMaxAttempts, FailsFast, IsRefusal;
    forall k | 0 <= k < |records|
      ensures EndsRun(queue, options, results[k]) <==> Stops(env, records[k])
      ensures results[k].status != Success <==> records[k].Failing()
    {
      ResultSays(env, env.invocations[k], records[k]);
    }
    ResultSays(env, env.invocations[i], records[i]);
    forall k | 0 <= k < i && EndsRun(queue, options, results[k])
      ensures results[i].status == Skipped && results[i].reason == PreviousFailed(queue.invocations[k].id)
    {
      StoppedForGood(env, records, k, i);
    }
    hide EndsRun, RecordTells;
    if records[i].DependencySkip? {
      SkipNamesFirst(env, records, results, i);
    } else if records[i].CutOff? {
      StoppedBefore(env, records, i);
    }
  }

  lemma SkipNamesFirst(env: Env, records: seq<Record>, results: seq<Result>, i: nat)
    requires i < |records| == |env.invocations| == |results| && records[i].DependencySkip?
    requires RecordTells(env, records, i)
    requires forall k :: 0 <= k < |records| ==> (results[k].status != Success <==> records[k].Failing())
    ensures IsFirstFailed(env.invocations, results, i, records[i].stepId)
  {
    forall d
      ensures FailedBefore(env, records, i, d) <==> HasFailedBefore(env.invocations, results, i, d)
    {
    }
    hide HasFailedBefore, FailedBefore, Stops;
  }

  lemma StoppedBefore(env: Env, records: seq<Record>, i: nat)
    requires i < |records| == |env.invocations| && records[i].CutOff? && RecordTells(env, records, i)
    ensures exists k :: 0 <= k < i && Stops(env, records[k])
  {
    hide Stops;
  }

  lemma ResultsTellAll(queue: Queue, options: Options, succeeds: (nat, nat) -> bool, clock: nat -> real,
                       records: seq<Record>)
    requires Explains(EnvOf(queue, options, succeeds, clock), records)
    ensures ResultsTell(queue, options, succeeds, Results(EnvOf(queue, options, succeeds, clock), records))
  {
    var env := EnvOf(queue, options, succeeds, clock);
    EnvIsAsked(queue, options, succeeds, clock);
    ResultsMatch(env, records);
    hide EnvOf, Explains, Results, ResultOf, RecordTells, ExecutedAs, SkippedFor, NormalizeMaxAttempts;
    forall i | 0 <= i < |records|
      ensures NamesOf(queue.invocations[i], Results(env, records)[i])
      ensures ExecutedAs(options, succeeds, i, NormalizeMaxAttempts(queue.invocations[i].maxAttempts),
                         Results(env, records)[i])
      ensures SkippedFor(queue, options, Results(env, records), i)
    {
      ResultSays(env, env.invocations[i], records[i]);
      ResultTellsExecution(env, options, records, i);
      ResultTellsSkip(queue, options, succeeds, clock, records, i);
    }
  }

  lemma SameStatuses(env: Env, records: seq<Record>)
    requires Explains(env, records)
    ensures |Results(env, records)| == |records| == |env.invocations|
    ensures forall i :: 0 <= i < |records| ==>
      && Results(env, records)[i].status == records[i].Status()
      && (IsRefusal(Results(env, records)[i]) <==> records[i].Refused?)
  {
    ResultsMatch(env, records);
    forall i | 0 <= i < |records|
      ensures Results(env, records)[i].status == records[i].Status()
      ensures IsRefusal(Results(env, records)[i]) <==> records[i].Refused?
    {
      ResultSays(env, env.invocations[i], records[i]);
    }
    hide Explains, Results, ResultOf, RecordTells, IsRefusal;
  }

  /** A fail-fast report has its shape; in any other, what is skipped comes after a refusal or an error. */
  lemma FailureModeTells(queue: Queue, options: Options, succeeds: (nat, nat) -> bool, clock: nat -> real,
                         records: seq<Record>)
    requires Explains(EnvOf(queue, options, succeeds, clock), records)
    ensures var results := Results(EnvOf(queue, options, succeeds, clock), records);
            if FailsFast(queue, options) then exists k :: FailFastResults(results, k)
            else SkipsFollowErrors(queue.invocations, results)
  {
    hide *;
    var env := EnvOf(queue, options, succeeds, clock);
    AsManyRecords(env, records);
    var results := Results(env, records);
    EnvIsAsked(queue, options, succeeds, clock);
    SameStatuses(env, records);
    if FailsFast(queue, options) {
      var k := FailFastRunsHaveShape(env, records);
      SameShape(records, results, k);
    } else {
      forall i | 0 <= i < |records|
        ensures results[i].status == Skipped <==>
          (exists k :: 0 <= k < i && IsRefusal(results[k])) || ErrorReaches(queue.invocations, results, i)
      {
        SkippedIffFailureReaches(env, records, i);
        SameChains(env, records, results, i);
      }
      SkipsAreFollowing(queue.invocations, results);
    }
  }

  lemma SkipsAreFollowing(invocations: seq<Invocation>, results: seq<Result>)
    requires forall i | 0 <= i < |results| ::
      results[i].status == Skipped <==>
        (exists k :: 0 <= k < i && IsRefusal(results[k])) || ErrorReaches(invocations, results, i)
    ensures SkipsFollowErrors(invocations, results)
  {
    hide IsRefusal, ErrorReaches;
  }

  lemma SameShape(records: seq<Record>, results: seq<Result>, k: nat)
    requires |records| == |results| && forall i :: 0 <= i < |records| ==> results[i].status == records[i].Status()
    requires FailFastShape(records, k)
    ensures FailFastResults(results, k)
  {
  }

  lemma SameChains(env: Env, records: seq<Record>, results: seq<Result>, i: nat)
    requires |records| == |results| && forall j :: 0 <= j < |records| ==> results[j].status == records[j].Status()
    ensures FailureReaches(env, records, i) <==> ErrorReaches(env.invocations, results, i)
  {
    if FailureReaches(env, records, i) {
      var chain :| FailureChain(env, records, chain) && chain[0] == i;
      assert ErrorChain(env.invocations, results, chain);
    }
    if ErrorReaches(env.invocations, results, i) {
      var chain :| ErrorChain(env.invocations, results, chain) && chain[0] == i;
      assert FailureChain(env, records, chain);
    }
  }

  // ----- Events -----

  /** The events of `n` attempts, as a set. */
  ghost predicate IsAttemptEvent(env: Env, index: nat, n: nat, ok: bool, e: Event)
    requires index < |env.invocations|
  {
    match e
    case Started(i, a) => i == index && 1 <= a <= n
    case Succeeded(i, a) => i == index && ok && a == n
    case Failed(i, a, retryable) =>
      && i == index && 1 <= a <= n && !(ok && a == n)
      && retryable == (a < NormalizeMaxAttempts(env.invocations[index].maxAttempts) || env.retryableOnError)
    case _ => false
  }

  lemma {:induction false} AttemptEventIff(env: Env, index: nat, n: nat, ok: bool, e: Event)
    requires index < |env.invocations| && (ok ==> n >= 1)
    ensures e in AttemptEvents(env, index, n, ok) <==> IsAttemptEvent(env, index, n, ok, e)
  {
    if n > 0 {
      AttemptEventIff(env, index, n - 1, false, e);
      hide NormalizeMaxAttempts;
    }
  }

  /** An event of a record. */
  ghost predicate IsEventOf(env: Env, index: nat, r: Record, e: Event)
    requires index < |env.invocations|
  {
    match r
    case Ran(starts, ok) => IsAttemptEvent(env, index, |starts|, ok, e)
    case Refused(starts, _, _) => e == RefusedEvent(index) || IsAttemptEvent(env, index, |starts|, false, e)
    case _ => e == SkippedEvent(index)
  }

  lemma {:induction false} EventIff(env: Env, records: seq<Record>, e: Event)
    requires |records| <= |env.invocations|
    requires forall i :: 0 <= i < |records| && records[i].Ran? && records[i].ok ==> records[i].starts != []
    ensures e in Events(env, records) <==>
      e.index < |records| && IsEventOf(env, e.index, records[e.index], e)
  {
    if records != [] {
      var n := |records| - 1;
      var init, r := records[..n], records[n];
      assert forall i :: 0 <= i < n ==> init[i] == records[i];
      EventIff(env, init, e);
      assert e in Events(env, records) <==> e in Events(env, init) || e in EventsOf(env, n, r);
      hide AttemptEvents, Events, IsAttemptEvent, EventsOf;
      EventOfIff(env, n, r, e);
      OtherIndexIsOther(env, n, r, e);
    }
  }

  lemma EventOfIff(env: Env, n: nat, r: Record, e: Event)
    requires n < |env.invocations| && (r.Ran? && r.ok ==> r.starts != [])
    ensures e in EventsOf(env, n, r) <==> IsEventOf(env, n, r, e)
  {
    if r.Ran? || r.Refused? {
      AttemptEventIff(env, n, |r.starts|, r.Ran? && r.ok, e);
    }
    hide AttemptEvents, IsAttemptEvent;
  }

  lemma OtherIndexIsOther(env: Env, n: nat, r: Record, e: Event)
    requires n < |env.invocations|
    ensures IsEventOf(env, n, r, e) ==> e.index == n
  {
  }

  /** Attempts are reported as started and then as succeeded or failed, without a gap in their numbers. Which of
      them succeeded is for the tool to say. */
  ghost predicate AttemptsReported(options: Options, succeeds: (nat, nat) -> bool, i: nat, max: nat, r: Result,
                                   events: seq<Event>)
  {
    && (forall a: nat :: Succeeded(i, a) in events <==> r.status == Success && FirstSuccess(succeeds, i, a))
    && (forall a: nat, retryable :: Failed(i, a, retryable) in events ==>
          1 <= a <= max && !succeeds(i, a) && retryable == (a < max || options.retryableOnError))
    && (forall a: nat :: Started(i, a) in events <==>
          Succeeded(i, a) in events || Failed(i, a, true) in events || Failed(i, a, false) in events)
    && (forall a: nat, b: nat :: Started(i, a) in events && 1 <= b < a ==> Started(i, b) in events)
    && (r.status == Error && r.reason == ToolFailed ==> Started(i, max) in events)
  }

  /** The events of invocation `i` tell what its result tells. */
  ghost predicate EventsTellOf(options: Options, succeeds: (nat, nat) -> bool, i: nat, max: nat, r: Result,
                               events: seq<Event>)
  {
    && AttemptsReported(options, succeeds, i, max, r, events)
    && (SkippedEvent(i) in events <==> r.status == Skipped)
    && (RefusedEvent(i) in events <==> IsRefusal(r))
  }

  ghost predicate EventsTell(queue: Queue, options: Options, succeeds: (nat, nat) -> bool, report: Report)
    requires |report.results| == |queue.invocations|
  {
    && (forall e :: e in report.events ==> e.index < |queue.invocations|)
    && forall i | 0 <= i < |queue.invocations| ::
      EventsTellOf(options, succeeds, i, NormalizeMaxAttempts(queue.invocations[i].maxAttempts), report.results[i],
                   report.events)
  }

  /** The events are those of the record of each index. */
  ghost predicate EventsAre(env: Env, i: nat, r: Record, events: seq<Event>)
    requires i < |env.invocations|
  {
    forall e: Event :: e.index == i ==> (e in events <==> IsEventOf(env, i, r, e))
  }

  lemma EventsOfAttempts(env: Env, i: nat, r: Record, events: seq<Event>, n: nat, ok: bool)
    requires i < |env.invocations| && EventsAre(env, i, r, events) && (r.Ran? || r.Refused?)
    requires n == |r.starts| && ok == (r.Ran? && r.ok)
    ensures forall a: nat :: Started(i, a) in events <==> 1 <= a <= n
    ensures forall a: nat :: Succeeded(i, a) in events <==> ok && a == n
    ensures forall a: nat, retryable :: Failed(i, a, retryable) in events <==>
      && 1 <= a <= n && !(ok && a == n)
      && retryable == (a < NormalizeMaxAttempts(env.invocations[i].maxAttempts) || env.retryableOnError)
  {
    hide NormalizeMaxAttempts;
    assert forall a: nat :: Started(i, a).index == i && Succeeded(i, a).index == i;
    assert forall a: nat, retryable :: Failed(i, a, retryable).index == i;
  }

  lemma AttemptsAreReported(options: Options, succeeds: (nat, nat) -> bool, i: nat, max: nat, r: Result,
                            events: seq<Event>, n: nat)
    requires forall a: nat :: Started(i, a) in events <==> 1 <= a <= n
    requires forall a: nat :: Succeeded(i, a) in events <==> r.status == Success && a == n
    requires forall a: nat, retryable :: Failed(i, a, retryable) in events <==>
      && 1 <= a <= n && !(r.status == Success && a == n)
      && retryable == (a < max || options.retryableOnError)
    requires n <= max && if r.status == Success then FirstSuccess(succeeds, i, n)
                         else forall a :: 1 <= a <= n ==> !succeeds(i, a)
    requires r.status == Error && r.reason == ToolFailed ==> n == max >= 1
    ensures AttemptsReported(options, succeeds, i, max, r, events)
  {
    forall a: nat
      ensures Started(i, a) in events <==>
        Succeeded(i, a) in events || Failed(i, a, true) in events || Failed(i, a, false) in events
    {
      assert Failed(i, a, true) in events || Failed(i, a, false) in events <==>
             1 <= a <= n && !(r.status == Success && a == n);
    }
  }

  lemma RecordEventsTell(env: Env, options: Options, i: nat, v: Invocation, r: Record, events: seq<Event>)
    requires i < |env.invocations| && (r.Ran? || r.Refused?) && v == env.invocations[i] && EventsAre(env, i, r, events)
    requires env.retryableOnError == options.retryableOnError && |r.starts| <= NormalizeMaxAttempts(v.maxAttempts)
    requires r.Refused? ==> r.assessment.violations != []
    requires r.Ran? && !r.ok ==> |r.starts| == NormalizeMaxAttempts(v.maxAttempts)
    requires if r.Ran? && r.ok then FirstSuccess(env.succeeds, i, |r.starts|)
             else forall a :: 1 <= a <= |r.starts| ==> !env.succeeds(i, a)
    ensures EventsTellOf(options, env.succeeds, i, NormalizeMaxAttempts(v.maxAttempts), ResultOf(env, v, r), events)
  {
    var n, max := |r.starts|, NormalizeMaxAttempts(v.maxAttempts);
    assert max >= 1;
    EventsOfAttempts(env, i, r, events, n, r.Ran? && r.ok);
    ResultSays(env, v, r);
    hide NormalizeMaxAttempts, FirstSuccess, AttemptsReported, ResultOf, Stops, NamesOf;
    AttemptsAreReported(options, env.succeeds, i, max, ResultOf(env, v, r), events, n);
    assert SkippedEvent(i).index == i && RefusedEvent(i).index == i;
  }

  lemma SkipEventsTell(env: Env, options: Options, i: nat, v: Invocation, r: Record, events: seq<Event>)
    requires i < |env.invocations| && (r.DependencySkip? || r.CutOff?) && EventsAre(env, i, r, events)
    ensures EventsTellOf(options, env.succeeds, i, NormalizeMaxAttempts(v.maxAttempts), ResultOf(env, v, r), events)
  {
    hide NormalizeMaxAttempts, FirstSuccess, ResultOf, Stops, NamesOf;
    ResultSays(env, v, r);
    SkipHasOneEvent(env, i, r, events);
    hide EventsAre;
  }

  lemma SkipHasOneEvent(env: Env, i: nat, r: Record, events: seq<Event>)
    requires i < |env.invocations| && (r.DependencySkip? || r.CutOff?) && EventsAre(env, i, r, events)
    ensures SkippedEvent(i) in events && RefusedEvent(i) !in events
    ensures forall a: nat :: Started(i, a) !in events && Succeeded(i, a) !in events
    ensures forall a: nat, retryable :: Failed(i, a, retryable) !in events
  {
    assert SkippedEvent(i).index == i && RefusedEvent(i).index == i;
    assert forall a: nat :: Started(i, a).index == i && Succeeded(i, a).index == i;
    assert forall a: nat, retryable :: Failed(i, a, retryable).index == i;
  }

  lemma TriedAtMost(env: Env, records: seq<Record>, i: nat)
    requires i < |records| == |env.invocations| && RecordTells(env, records, i)
    ensures var r, max := records[i], NormalizeMaxAttempts(env.invocations[i].maxAttempts);
            && (r.Ran? || r.Refused? ==>
                  && |r.starts| <= max
                  && if r.Ran? && r.ok then FirstSuccess(env.succeeds, i, |r.starts|)
                     else forall a :: 1 <= a <= |r.starts| ==> !env.succeeds(i, a))
            && (r.Ran? && !r.ok ==> |r.starts| == max)
            && (r.Ran? && r.ok ==> r.starts != [])
  {
    hide Stops, FailedBefore, NormalizeMaxAttempts;
  }

  lemma AllEventsTell(queue: Queue, options: Options, succeeds: (nat, nat) -> bool, clock: nat -> real,
                      records: seq<Record>, report: Report)
    requires Reports(EnvOf(queue, options, succeeds, clock), records, report)
    ensures |report.results| == |queue.invocations| && EventsTell(queue, options, succeeds, report)
  {
    var env := EnvOf(queue, options, succeeds, clock);
    EnvIsAsked(queue, options, succeeds, clock);
    ResultsMatch(env, records);
    hide EnvOf, Explains, Assessed, ReadInOrder, Results, ResultOf, Events, EventsTellOf, NormalizeMaxAttempts, Stops,
      FailedBefore, IsEventOf, Assess, OverBudgetAtOnce, FirstSuccess;
    forall i | 0 <= i < |records|
      ensures records[i].Ran? && records[i].ok ==> records[i].starts != []
    {
      TriedAtMost(env, records, i);
    }
    forall e: Event
      ensures e in report.events <==> e.index < |records| && IsEventOf(env, e.index, records[e.index], e)
    {
      EventIff(env, records, e);
    }
    forall i | 0 <= i < |records|
      ensures EventsTellOf(options, succeeds, i, NormalizeMaxAttempts(queue.invocations[i].maxAttempts),
                           report.results[i], report.events)
    {
      assert EventsAre(env, i, records[i], report.events);
      TriedAtMost(env, records, i);
      if records[i].Ran? || records[i].Refused? {
        RecordEventsTell(env, options, i, env.invocations[i], records[i], report.events);
      } else {
        SkipEventsTell(env, options, i, env.invocations[i], records[i], report.events);
      }
    }
  }

  // ----- Budgets -----

  /** Nothing is assessed without a budget. With one, the calls are those that an observer saw begin and are within
      the limit; but a queue whose worst case is over it is refused before any call, for that worst case. After
      that check, only time can refuse. */
  ghost predicate BudgetTells(queue: Queue, options: Options, report: Report) {
    match BudgetOf(queue, options)
    case None =>
      report.assessment == None && forall i :: 0 <= i < |report.results| ==> !IsRefusal(report.results[i])
    case Some(budget) =>
      var worst, calls := AttemptSum(queue.invocations), StartedCount(report.events);
      && report.assessment.Some? && report.assessment.value.budget == budget && calls <= budget.maxToolCalls
      && if worst > budget.maxToolCalls then
           && calls == 0 && report.results != [] && report.assessment.value.toolCalls == worst
           && report.results[0].reason == BudgetExceeded(Violation(ToolCallsExceeded, worst, budget.maxToolCalls))
         else
           && report.assessment.value.toolCalls == calls
           && forall i :: 0 <= i < |report.results| && IsRefusal(report.results[i]) ==>
             IsTimeRefusal(budget, report.results[i].reason.violation)
  }

  predicate IsTimeRefusal(budget: Budget, v: Violation) {
    v.code == DurationExceeded && v.limit == budget.maxDurationMs && v.actual > v.limit
  }

  lemma OverBudgetIff(queue: Queue, options: Options, succeeds: (nat, nat) -> bool, clock: nat -> real)
    requires BudgetOf(queue, options).Some? && ValidBudget(BudgetOf(queue, options).value)
    ensures OverBudgetAtOnce(EnvOf(queue, options, succeeds, clock)) <==>
            AttemptSum(queue.invocations) > BudgetOf(queue, options).value.maxToolCalls
  {
    BlockedIff(BudgetOf(queue, options).value, 0, AttemptSum(queue.invocations), 0.0);
    EnvIsAsked(queue, options, succeeds, clock);
    hide EnvOf, AttemptSum, Assess, Blocked;
  }

  lemma {:induction false} CallsEndAtStop(env: Env, records: seq<Record>, k: nat)
    requires Legal(env, records) && StopIndex(env, records) == Some(k)
    ensures k < |records| && CallsMade(records) == CallsMade(records[..k]) + |records[k].Starts()|
  {
    var n := |records| - 1;
    if k < n {
      CallsEndAtStop(env, records[..n], k);
      assert records[..n][..k] == records[..k];
    }
  }

  lemma NothingRefusedWithoutBudget(env: Env, records: seq<Record>, i: nat)
    requires Explains(env, records) && env.budget.None? && i < |records|
    ensures !records[i].Refused?
  {
    RecordIsLegal(env, records, i);
  }

  lemma UnbudgetedReport(queue: Queue, options: Options, succeeds: (nat, nat) -> bool, clock: nat -> real,
                         records: seq<Record>, report: Report)
    requires Reports(EnvOf(queue, options, succeeds, clock), records, report) && BudgetOf(queue, options).None?
    ensures BudgetTells(queue, options, report)
  {
    var env := EnvOf(queue, options, succeeds, clock);
    EnvIsAsked(queue, options, succeeds, clock);
    SameStatuses(env, records);
    hide EnvOf, Explains, Results, Events, ReadInOrder, IsRefusal;
    forall i | 0 <= i < |records|
      ensures !records[i].Refused?
    {
      NothingRefusedWithoutBudget(env, records, i);
    }
  }

  /** A report of a run that was refused before its first call. */
  lemma RefusedReport(queue: Queue, options: Options, succeeds: (nat, nat) -> bool, clock: nat -> real,
                      records: seq<Record>, report: Report)
    requires Reports(EnvOf(queue, options, succeeds, clock), records, report)
    requires BudgetOf(queue, options).Some? && ValidBudget(BudgetOf(queue, options).value)
    requires OverBudgetAtOnce(EnvOf(queue, options, succeeds, clock))
    ensures BudgetTells(queue, options, report)
  {
    hide *;
    var env, budget := EnvOf(queue, options, succeeds, clock), BudgetOf(queue, options).value;
    EnvIsAsked(queue, options, succeeds, clock);
    OverBudgetIff(queue, options, succeeds, clock);
    RefusedMeans(env, records, report);
    WorstCaseIsRefused(env);
    RefusalIsReported(env, env.invocations[0], RefusedRecord(env, 0));
    RefusedTells(queue, options, report, budget, AttemptSum(queue.invocations));
  }

  /** What is left of such a report: its first result, and no call. */
  lemma RefusedMeans(env: Env, records: seq<Record>, report: Report)
    requires Reports(env, records, report) && env.budget.Some? && OverBudgetAtOnce(env)
    ensures env.invocations != [] ==>
      report.results != [] && report.results[0] == ResultOf(env, env.invocations[0], RefusedRecord(env, 0))
    ensures StartedCount(report.events) == 0
    ensures report.assessment == Some(Assess(env.budget.value, 0, AttemptSum(env.invocations), 0.0))
  {
    StartedEventsAreCalls(env, records);
    NoCallsWhenRefusedAtOnce(env, records, |records|);
    assert records[..|records|] == records;
    hide Assess, CallsMade, StartedCount, ResultOf, RefusedRecord, Events, Assessed, ReadInOrder, Legal;
  }

  lemma WorstCaseIsRefused(env: Env)
    requires env.budget.Some? && ValidBudget(env.budget.value)
    requires AttemptSum(env.invocations) > env.budget.value.maxToolCalls
    ensures env.budget.value.maxToolCalls >= 0 && env.invocations != []
    ensures var r, worst, limit := RefusedRecord(env, 0), AttemptSum(env.invocations), env.budget.value.maxToolCalls;
            && r.Refused? && r.assessment.violations == [Violation(ToolCallsExceeded, worst, limit)]
            && Assess(env.budget.value, 0, worst, 0.0).budget == env.budget.value
            && Assess(env.budget.value, 0, worst, 0.0).toolCalls == worst
  {
  }

  lemma RefusalIsReported(env: Env, v: Invocation, r: Record)
    requires r.Refused? && r.assessment.violations != []
    ensures ResultOf(env, v, r).reason == BudgetExceeded(r.assessment.violations[0])
  {
    hide Trim;
  }

  lemma RefusedTells(queue: Queue, options: Options, report: Report, budget: Budget, worst: nat)
    requires BudgetOf(queue, options) == Some(budget)
      && worst == AttemptSum(queue.invocations) > budget.maxToolCalls >= 0
    requires report.results != [] && StartedCount(report.events) == 0
    requires report.results[0].reason == BudgetExceeded(Violation(ToolCallsExceeded, worst, budget.maxToolCalls))
    requires report.assessment.Some? && report.assessment.value.budget == budget
      && report.assessment.value.toolCalls == worst
    ensures BudgetTells(queue, options, report)
  {
    hide AttemptSum, StartedCount, BudgetOf;
  }

  /** The assessment of a report counts all calls of the run. */
  lemma AssessedCalls(env: Env, records: seq<Record>, assessment: Option<Assessment>)
    requires Legal(env, records) && env.budget.Some? && Assessed(env, records, assessment)
    ensures assessment.Some? && assessment.value.budget == env.budget.value
    ensures assessment.value.toolCalls == CallsMade(records)
  {
    var k := StopIndex(env, records);
    if k.Some? && records[k.value].Refused? {
      CallsEndAtStop(env, records, k.value);
      RefusalIsAssessed(env, records, k.value);
      hide CallsMade;
    }
  }

  lemma BudgetedReport(queue: Queue, options: Options, succeeds: (nat, nat) -> bool, clock: nat -> real,
                       records: seq<Record>, report: Report)
    requires Reports(EnvOf(queue, options, succeeds, clock), records, report)
    requires BudgetOf(queue, options).Some? && ValidBudget(BudgetOf(queue, options).value)
    requires !OverBudgetAtOnce(EnvOf(queue, options, succeeds, clock))
    ensures BudgetTells(queue, options, report)
  {
    var env, budget := EnvOf(queue, options, succeeds, clock), BudgetOf(queue, options).value;
    EnvIsAsked(queue, options, succeeds, clock);
    OverBudgetIff(queue, options, succeeds, clock);
    SameStatuses(env, records);
    ExplainedIsLegal(env, records);
    StartedEventsAreCalls(env, records);
    CallsStayWithinBudget(env, records);
    AssessedCalls(env, records, report.assessment);
    hide EnvOf, Legal, Results, Events, IsRefusal, CallsMade, StartedCount, AttemptSum, Assessed, ReadInOrder;
    hide IsTimeRefusal, OverBudgetAtOnce, Explains, ValidBudget, BudgetOf;
    forall i | 0 <= i < |records| && IsRefusal(report.results[i])
      ensures report.results[i].reason.BudgetExceeded? && IsTimeRefusal(budget, report.results[i].reason.violation)
    {
      TimeRefusal(env, records, i);
    }
  }

  lemma TimeRefusal(env: Env, records: seq<Record>, i: nat)
    requires Explains(env, records) && !OverBudgetAtOnce(env) && i < |records| && records[i].Refused?
    requires env.budget.Some? && ValidBudget(env.budget.value)
    ensures i < |env.invocations| == |Results(env, records)| && Results(env, records)[i].reason.BudgetExceeded?
    ensures IsTimeRefusal(env.budget.value, Results(env, records)[i].reason.violation)
  {
    ResultsMatch(env, records);
    OnlyDurationRefuses(env, records, i);
    hide Explains, Results, RecordTells;
    assert ReasonOf(records[i]) == BudgetExceeded(records[i].assessment.violations[0]);
  }

  lemma ReportTellsBudget(queue: Queue, options: Options, succeeds: (nat, nat) -> bool, clock: nat -> real,
                          records: seq<Record>, report: Report)
    requires Reports(EnvOf(queue, options, succeeds, clock), records, report)
    requires BudgetOf(queue, options).Some? ==> ValidBudget(BudgetOf(queue, options).value)
    ensures BudgetTells(queue, options, report)
  {
    hide *;
    if BudgetOf(queue, options).None? {
      UnbudgetedReport(queue, options, succeeds, clock, records, report);
    } else if OverBudgetAtOnce(EnvOf(queue, options, succeeds, clock)) {
      RefusedReport(queue, options, succeeds, clock, records, report);
    } else {
      BudgetedReport(queue, options, succeeds, clock, records, report);
    }
  }

  /** The time that the last assessment gives is that of the end of the last attempt of an invocation that ran to
      its end; the clock is read at that end right after the reading that began the attempt. */
  lemma {:induction false} ElapsedIsLastEnd(env: Env, records: seq<Record>, i: nat)
    requires i < |records| && records[i].Ran? && records[i].starts != []
    requires forall j :: i < j < |records| ==> !records[j].Ran?
    ensures var starts := records[i].starts;
            var sinceStart := env.clock(starts[|starts| - 1] + 1) - env.clock(0);
            Elapsed(env, records) == if sinceStart >= 0.0 then sinceStart else 0.0
  {
    var n := |records| - 1;
    if i < n {
      ElapsedIsLastEnd(env, records[..n], i);
    }
  }

  // ----- The order of events -----

  predicate EndsAttempt(started: Event, e: Event) {
    && started.Started? && (e.Succeeded? || e.Failed?)
    && e.index == started.index && e.attempt == started.attempt
  }

  /** The events of earlier invocations come first, attempts in the order of their numbers, and the end of each
      attempt right after its start. */
  ghost predicate InTurn(events: seq<Event>) {
    && (forall p, q :: 0 <= p < q < |events| ==> events[p].index <= events[q].index)
    && (forall p, q :: 0 <= p < q < |events| ==> StartsInOrder(events[p], events[q]))
    && (forall p :: 0 <= p < |events| && events[p].Started? ==> EndsNext(events, p))
  }

  predicate StartsInOrder(d: Event, e: Event) {
    d.Started? && e.Started? && d.index == e.index ==> d.attempt < e.attempt
  }

  predicate EndsNext(events: seq<Event>, p: nat)
    requires p < |events|
  {
    p + 1 < |events| && EndsAttempt(events[p], events[p + 1])
  }

  lemma InTurnConcat(a: seq<Event>, b: seq<Event>)
    requires InTurn(a) && InTurn(b)
    requires forall p, q :: 0 <= p < |a| && 0 <= q < |b| ==> a[p].index <= b[q].index && StartsInOrder(a[p], b[q])
    ensures InTurn(a + b)
  {
    hide StartsInOrder, EndsAttempt;
    var c := a + b;
    forall p | 0 <= p < |c| && c[p].Started?
      ensures EndsNext(c, p)
    {
      if p < |a| {
        assert EndsNext(a, p);
      } else {
        assert EndsNext(b, p - |a|);
      }
    }
  }

  lemma OnePairInTurn(index: nat, n: nat, end: Event)
    requires end == Succeeded(index, n) || (end.Failed? && end.index == index && end.attempt == n)
    ensures InTurn([Started(index, n), end])
  {
    assert EndsNext([Started(index, n), end], 0);
  }

  lemma {:induction false} AttemptsInTurn(env: Env, index: nat, n: nat, ok: bool)
    requires index < |env.invocations|
    ensures InTurn(AttemptEvents(env, index, n, ok))
    ensures forall e :: e in AttemptEvents(env, index, n, ok) ==> e.index == index
    ensures forall e :: e in AttemptEvents(env, index, n, ok) && e.Started? ==> e.attempt <= n
  {
    if n > 0 {
      var before := AttemptEvents(env, index, n - 1, false);
      var max := NormalizeMaxAttempts(env.invocations[index].maxAttempts);
      var pair := [Started(index, n),
                   if ok then Succeeded(index, n) else Failed(index, n, n < max || env.retryableOnError)];
      AttemptsInTurn(env, index, n - 1, false);
      assert AttemptEvents(env, index, n, ok) == before + pair;
      hide AttemptEvents, NormalizeMaxAttempts, InTurn, EndsNext, EndsAttempt;
      OnePairInTurn(index, n, pair[1]);
      forall p, q | 0 <= p < |before| && 0 <= q < |pair|
        ensures before[p].index <= pair[q].index && StartsInOrder(before[p], pair[q])
      {
        assert before[p] in before;
      }
      InTurnConcat(before, pair);
    }
  }

  lemma RecordInTurn(env: Env, index: nat, r: Record)
    requires index < |env.invocations|
    ensures InTurn(EventsOf(env, index, r))
    ensures forall e :: e in EventsOf(env, index, r) ==> e.index == index
  {
    if r.Ran? || r.Refused? {
      var attempts := AttemptEvents(env, index, |r.starts|, r.Ran? && r.ok);
      AttemptsInTurn(env, index, |r.starts|, r.Ran? && r.ok);
      hide AttemptEvents;
      if r.Refused? {
        assert forall p :: 0 <= p < |attempts| ==> attempts[p] in attempts;
        InTurnConcat(attempts, [RefusedEvent(index)]);
      }
    }
  }

  lemma {:induction false} EventsInTurn(env: Env, records: seq<Record>)
    requires |records| <= |env.invocations|
    ensures InTurn(Events(env, records))
    ensures forall e :: e in Events(env, records) ==> e.index < |records|
  {
    if records != [] {
      var n := |records| - 1;
      var a, b := Events(env, records[..n]), EventsOf(env, n, records[n]);
      EventsInTurn(env, records[..n]);
      RecordInTurn(env, n, records[n]);
      hide EventsOf, InTurn;
      assert forall p :: 0 <= p < |a| ==> a[p] in a;
      assert forall q :: 0 <= q < |b| ==> b[q] in b;
      InTurnConcat(a, b);
    }
  }

  // ----- The whole report -----

  lemma RefusalReports(env: Env, records: seq<Record>, report: Report)
    requires env.budget.Some? && OverBudgetAtOnce(env) && RefusedAtOnce(env, records)
    requires report.assessment == Some(Assess(env.budget.value, 0, AttemptSum(env.invocations), 0.0))
    requires report.results == Results(env, records) && report.events == Events(env, records)
    ensures Reports(env, records, report)
  {
    hide OverBudgetAtOnce, Assess, Results, Events;
  }

  lemma RunReports(env: Env, records: seq<Record>, report: Report)
    requires !OverBudgetAtOnce(env) && |records| == |env.invocations| && Legal(env, records)
    requires report.results == Results(env, records) && report.events == Events(env, records)
    requires Assessed(env, records, report.assessment) && exists high :: ReadInOrder(env, records, high)
    ensures Reports(env, records, report)
  {
    hide OverBudgetAtOnce, Legal, Assessed, ReadInOrder, Results, Events;
  }

  lemma OverBudgetMeans(env: Env)
    ensures OverBudgetAtOnce(env) <==>
      env.budget.Some? && Blocked(Assess(env.budget.value, 0, AttemptSum(env.invocations), 0.0))
    ensures Throws(env) <==>
      || (env.budget.Some? && !ValidBudget(env.budget.value))
      || exists i :: 0 <= i < |env.invocations| && !Recordable(env.invocations[i])
  {
    hide Assess, Blocked, ValidBudget, Recordable, AttemptSum;
  }

  lemma BlankIffUnrecordable(invocations: seq<Invocation>)
    ensures HasBlank(invocations) <==> exists i :: 0 <= i < |invocations| && !Recordable(invocations[i])
  {
    hide Trim;
    if i :| 0 <= i < |invocations| && !Recordable(invocations[i]) {
      assert IsBlank(invocations[i]);
    }
  }

  lemma ReportTells(queue: Queue, options: Options, succeeds: (nat, nat) -> bool, clock: nat -> real,
                    records: seq<Record>, report: Report)
    requires Reports(EnvOf(queue, options, succeeds, clock), records, report)
    requires var env := EnvOf(queue, options, succeeds, clock); env.budget.Some? ==> ValidBudget(env.budget.value)
    ensures ResultsTell(queue, options, succeeds, report.results)
    ensures EventsTell(queue, options, succeeds, report) && InTurn(report.events)
    ensures BudgetTells(queue, options, report)
    ensures if FailsFast(queue, options) then exists k :: FailFastResults(report.results, k)
            else SkipsFollowErrors(queue.invocations, report.results)
  {
    hide *;
    var env := EnvOf(queue, options, succeeds, clock);
    EnvIsAsked(queue, options, succeeds, clock);
    ReportMeans(env, records, report);
    ResultsTellAll(queue, options, succeeds, clock, records);
    FailureModeTells(queue, options, succeeds, clock, records);
    AllEventsTell(queue, options, succeeds, clock, records, report);
    ReportTellsBudget(queue, options, succeeds, clock, records, report);
    EventsInTurn(env, records);
  }

  lemma ReportMeans(env: Env, records: seq<Record>, report: Report)
    requires Reports(env, records, report)
    ensures Explains(env, records) && |records| == |env.invocations|
    ensures report.results == Results(env, records) && report.events == Events(env, records)
  {
    hide OverBudgetAtOnce, Legal, RefusedAtOnce, Results, Events, Assessed, ReadInOrder;
  }
}
