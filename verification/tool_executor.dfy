/** The executor of an invocation queue. Its loops leave legal records, and so a report that says what `ToolReports`
    proves of all of them. */
module ToolExecutor {
  import opened Wrappers
  import opened Texts
  import opened ExecutionBudget
  import opened WorkflowTypes
  import opened ToolRuns
  import opened ToolReports

  /** The attempt loop of one invocation. A success that cannot be recorded is caught as a failure. */
  method RunAttempts(env: Env, index: nat, made: nat, tick: nat) returns (r: Record, tick': nat, events: seq<Event>)
    requires index < |env.invocations|
    ensures Recordable(env.invocations[index]) ==>
      LegalAttempts(env, index, made, r) && events == AttemptEvents(env, index, |r.Starts()|, r.Ran? && r.ok)
    ensures r.Ran? || r.Refused?
    ensures !Recordable(env.invocations[index]) ==> r.Failing()
    ensures tick < tick' && InOrder(r.Readings(), tick, tick')
    ensures r.Ran? ==> r.starts != [] && tick' == r.starts[|r.starts| - 1] + 2
  {
    hide AssessAt, Blocked, Trim, InOrder, MayStart, Recordable, LegalAttempts, AttemptEvents;
    var invocation := env.invocations[index];
    var maxAttempts := NormalizeMaxAttempts(invocation.maxAttempts);
    var invocationStart := tick;
    tick' := tick + 1;
    NoEvents(env, index);
    events := [];
    var starts: seq<nat> := [];
    LaterReadings([], [], tick, tick', tick');
    for attempt := 1 to maxAttempts + 1
      invariant |starts| == attempt - 1 && tick < tick' && InOrder(starts, tick, tick')
      invariant attempt == 1 ==> tick' == tick + 1
      invariant starts != [] ==> tick' == starts[|starts| - 1] + 2
      invariant forall a :: 0 <= a < |starts| ==> MayStart(env, starts[a], made + a)
      invariant Recordable(invocation) ==> forall a :: 1 <= a <= |starts| ==> !env.succeeds(index, a)
      invariant Recordable(invocation) ==> events == AttemptEvents(env, index, |starts|, false)
    {
      var attemptStart := invocationStart;
      if attempt != 1 {
        attemptStart := tick';
        tick' := tick' + 1;
      }
      LaterReadings(starts, [attemptStart], tick, if attempt == 1 then tick else tick' - 1, tick');
      if env.budget.Some? {
        var assessment := AssessAt(env, attemptStart, made + |starts|);
        if Blocked(assessment) {
          r := Refused(starts, attemptStart, assessment);
          RefusalIsLegal(env, index, made, r);
          return;
        }
      }
      StartIsLegal(env, attemptStart, made + |starts|);
      NextEvents(env, index, attempt);
      starts := starts + [attemptStart];
      events := events + [Started(index, attempt)];
      LaterReadings(starts, [], tick, tick', tick' + 1);
      tick' := tick' + 1; // completedAt
      if env.succeeds(index, attempt) && Recordable(invocation) {
        events := events + [Succeeded(index, attempt)];
        r := Ran(starts, true);
        RunIsLegal(env, index, made, r);
        return;
      }
      events := events + [Failed(index, attempt, attempt < maxAttempts || env.retryableOnError)];
    }
    r := Ran(starts, false);
    if Recordable(invocation) {
      RunIsLegal(env, index, made, r);
    }
  }

  lemma NoEvents(env: Env, index: nat)
    requires index < |env.invocations|
    ensures AttemptEvents(env, index, 0, false) == []
  {
  }

  lemma NextEvents(env: Env, index: nat, attempt: nat)
    requires index < |env.invocations| && attempt >= 1
    ensures
      var before, max := AttemptEvents(env, index, attempt - 1, false),
        NormalizeMaxAttempts(env.invocations[index].maxAttempts);
      && AttemptEvents(env, index, attempt, true) == before + [Started(index, attempt)] + [Succeeded(index, attempt)]
      && AttemptEvents(env, index, attempt, false) ==
         before + [Started(index, attempt)] + [Failed(index, attempt, attempt < max || env.retryableOnError)]
  {
  }

  lemma StartIsLegal(env: Env, tick: nat, calls: nat)
    requires env.budget.Some? ==> !Blocked(AssessAt(env, tick, calls))
    ensures MayStart(env, tick, calls)
  {
  }

  lemma RunIsLegal(env: Env, index: nat, made: nat, r: Record)
    requires index < |env.invocations| && r.Ran?
      && 1 <= |r.starts| <= NormalizeMaxAttempts(env.invocations[index].maxAttempts)
    requires forall a :: 0 <= a < |r.starts| ==> MayStart(env, r.starts[a], made + a)
    requires forall a :: 1 <= a < |r.starts| ==> !env.succeeds(index, a)
    requires r.ok == env.succeeds(index, |r.starts|)
    requires r.ok || |r.starts| == NormalizeMaxAttempts(env.invocations[index].maxAttempts)
    ensures LegalAttempts(env, index, made, r)
  {
  }

  lemma RefusalIsLegal(env: Env, index: nat, made: nat, r: Record)
    requires index < |env.invocations| && r.Refused?
      && |r.starts| < NormalizeMaxAttempts(env.invocations[index].maxAttempts)
    requires env.budget.Some? && r.assessment == AssessAt(env, r.tick, made + |r.starts|) && Blocked(r.assessment)
    requires forall a :: 0 <= a < |r.starts| ==> MayStart(env, r.starts[a], made + a)
    ensures (forall a :: 1 <= a <= |r.starts| ==> !env.succeeds(index, a)) ==> LegalAttempts(env, index, made, r)
  {
  }

  lemma ExtendElapsed(env: Env, records: seq<Record>, r: Record)
    ensures Elapsed(env, records + [r]) ==
            if r.Ran? && r.starts != [] then Max0(env.clock(r.starts[|r.starts| - 1] + 1) - env.clock(0))
              else Elapsed(env, records)
  {
    var more := records + [r];
    assert more[..|more| - 1] == records && more[|more| - 1] == r;
  }

  /** Everything after record `k` is skipped: the rest of the queue after an error or a refusal. */
  method SkipRest(env: Env, k: nat, results: seq<Result>, events: seq<Event>, ghost records: seq<Record>)
    returns (thrown: bool, results': seq<Result>, events': seq<Event>, ghost records': seq<Record>)
    requires |results| == |records| <= |env.invocations|
    requires Legal(env, records) && StopIndex(env, records) == Some(k)
    requires results == Results(env, records) && events == Events(env, records)
    ensures thrown <==> exists i :: |records| <= i < |env.invocations| && !Recordable(env.invocations[i])
    ensures !thrown ==>
      && |records'| == |env.invocations| && Legal(env, records')
      && results' == Results(env, records') && events' == Events(env, records')
      && StopIndex(env, records') == Some(k)
      && AllReadings(records') == AllReadings(records)
      && CallsMade(records') == CallsMade(records) && Elapsed(env, records') == Elapsed(env, records)
        && records <= records'
  {
    hide *;
    results', events', records' := results, events, records;
    for i := |results| to |env.invocations|
      invariant |records'| == i && Legal(env, records')
      invariant results' == Results(env, records') && events' == Events(env, records')
      invariant StopIndex(env, records') == Some(k) && AllReadings(records') == AllReadings(records)
      invariant CallsMade(records') == CallsMade(records) && Elapsed(env, records') == Elapsed(env, records)
        && records <= records'
      invariant forall j :: |records| <= j < i ==> Recordable(env.invocations[j])
    {
      var invocation := env.invocations[i];
      if !Recordable(invocation) {
        return true, results', events', records';
      }
      var r := CutOff(env.invocations[k].id);
      CutOffIsLegal(env, records', k);
      StopsAtRefusalOrError(env, r);
      ExtendRecords(env, records', r);
      ExtendElapsed(env, records', r);
      results' := results' + [ResultOf(env, invocation, r)];
      events' := events' + EventsOf(env, i, r);
      records' := records' + [r];
    }
    return false, results', events', records';
  }

  lemma CutOffIsLegal(env: Env, records: seq<Record>, k: nat)
    requires |records| < |env.invocations| && StopIndex(env, records) == Some(k)
    ensures k < |env.invocations| && LegalNext(env, records, CutOff(env.invocations[k].id))
  {
  }

  lemma RunningIsLegal(env: Env, records: seq<Record>, r: Record)
    requires |records| < |env.invocations| && StopIndex(env, records).None?
    requires
      match FirstFailed(env.invocations[|records|].dependsOnStepIds, FailedSteps(env, records))
      case Some(stepId) => r == DependencySkip(stepId)
      case None => LegalAttempts(env, |records|, CallsMade(records), r)
    ensures LegalNext(env, records, r)
  {
  }

  /** A step can only fail by a result that was recorded, so no failed step has the empty id, which the
      test of `failedDependencyId` would take for no failure. */
  lemma {:induction false} FailedStepsAreNamed(env: Env, records: seq<Record>)
    requires |records| <= |env.invocations|
    requires forall j :: 0 <= j < |records| ==> Recordable(env.invocations[j])
    ensures "" !in FailedSteps(env, records)
  {
    if records != [] {
      FailedStepsAreNamed(env, records[..|records| - 1]);
      assert Recordable(env.invocations[|records| - 1]);
    }
  }

  lemma RunIsAssessed(env: Env, records: seq<Record>)
    ensures var k := StopIndex(env, records);
            Assessed(env, records, if k.Some? && records[k.value].Refused? then Some(records[k.value].assessment)
                                   else FinalAssessment(env, CallsMade(records), Elapsed(env, records)))
  {
  }

  /** What the main loop does with one invocation, once nothing has stopped the run: it is skipped for a
      failed dependency, or attempted. */
  method RunNext(env: Env, i: nat, made: nat, tick: nat, failedStepIds: set<string>, ghost records: seq<Record>)
    returns (thrown: bool, r: Record, tick': nat, events: seq<Event>)
    requires i == |records| < |env.invocations| && StopIndex(env, records).None?
    requires failedStepIds == FailedSteps(env, records) && made == CallsMade(records)
    requires forall j :: 0 <= j < i ==> Recordable(env.invocations[j])
    ensures thrown <==> !Recordable(env.invocations[i])
    ensures !thrown ==> LegalNext(env, records, r) && events == EventsOf(env, i, r) && !r.CutOff?
    ensures tick <= tick' && (r.Readings() == [] || InOrder(r.Readings(), tick, tick'))
    ensures r.Ran? ==> r.starts != [] && tick' == r.starts[|r.starts| - 1] + 2
  {
    hide *;
    var invocation := env.invocations[i];
    var failedDependency := FirstFailed(invocation.dependsOnStepIds, failedStepIds);
    FirstFailedIsFailed(invocation.dependsOnStepIds, failedStepIds);
    FailedStepsAreNamed(env, records);
    if failedDependency.Some? && failedDependency.value != "" {
      r, tick', events := DependencySkip(failedDependency.value), tick, [SkippedEvent(i)];
    } else {
      r, tick', events := RunAttempts(env, i, made, tick);
      if r.Refused? {
        events := events + [RefusedEvent(i)];
      }
    }
    thrown := !Recordable(invocation);
    StopsAtRefusalOrError(env, r);
    EventsOfRun(env, i, r);
    if !thrown {
      RunningIsLegal(env, records, r);
    }
  }

  /** The main loop, after the preflight check has passed. */
  method RunQueue(env: Env) returns (outcome: Outcome, ghost records: seq<Record>)
    ensures outcome.Thrown? <==> exists i :: 0 <= i < |env.invocations| && !Recordable(env.invocations[i])
    ensures outcome.Completed? ==>
      && |records| == |env.invocations| && Legal(env, records)
      && outcome.report.results == Results(env, records) && outcome.report.events == Events(env, records)
      && Assessed(env, records, outcome.report.assessment)
      && exists high :: ReadInOrder(env, records, high)
  {
    hide *;
    var results: seq<Result>, events: seq<Event> := [], [];
    records := [];
    NoRecords(env);
    var tick := if env.budget.Some? then 1 else 0;
    ghost var first := tick;
    var made, elapsedMs := 0, 0.0;
    var failedStepIds: set<string> := {};
    for i := 0 to |env.invocations|
      invariant |records| == i && Legal(env, records) && StopIndex(env, records).None?
      invariant results == Results(env, records) && events == Events(env, records)
      invariant failedStepIds == FailedSteps(env, records)
      invariant made == CallsMade(records) && elapsedMs == Elapsed(env, records)
      invariant first <= tick && ReadInOrder(env, records, tick)
      invariant forall j :: 0 <= j < i ==> Recordable(env.invocations[j])
    {
      var invocation := env.invocations[i];
      var thrown, r, newEvents;
      ghost var before := tick;
      thrown, r, tick, newEvents := RunNext(env, i, made, tick, failedStepIds, records);
      if thrown {
        return Thrown, records;
      }
      made := made + |r.Starts()|;
      if r.Ran? {
        elapsedMs := Max0(env.clock(tick - 1) - env.clock(0));
      }
      StopsAtRefusalOrError(env, r);
      ExtendRecords(env, records, r);
      ExtendElapsed(env, records, r);
      MoreReadings(env, records, r, before, tick);
      results := results + [ResultOf(env, invocation, r)];
      events := events + newEvents;
      records := records + [r];
      if r.Failing() {
        failedStepIds := failedStepIds + {invocation.stepId};
      }
      if r.Refused? || (r.Ran? && !r.ok && !env.continueIndependent) {
        ghost var stopped := records;
        thrown, results, events, records := SkipRest(env, i, results, events, records);
        if thrown {
          return Thrown, records;
        }
        SameReadings(env, stopped, records, tick);
        assert stopped[i] == r && records[i] == stopped[i];
        RunIsAssessed(env, records);
        var assessment := if r.Refused? then Some(r.assessment) else FinalAssessment(env, made, elapsedMs);
        return Completed(Report(results, events, assessment)), records;
      }
    }
    RunIsAssessed(env, records);
    return Completed(Report(results, events, FinalAssessment(env, made, elapsedMs))), records;
  }

  lemma LaterReadings(a: seq<nat>, b: seq<nat>, low: nat, middle: nat, high: nat)
    requires low <= middle <= high && (a == [] || InOrder(a, low, middle))
    requires b == [] || InOrder(b, middle, high) || (|b| == 1 && middle <= b[0] < high)
    ensures InOrder(a + b, low, high)
    ensures b == [] ==> InOrder(a, low, high)
  {
  }

  lemma MoreReadings(env: Env, records: seq<Record>, r: Record, middle: nat, high: nat)
    requires ReadInOrder(env, records, middle) && (if env.budget.Some? then 1 else 0) <= middle <= high
    requires r.Readings() == [] || InOrder(r.Readings(), middle, high)
    requires AllReadings(records + [r]) == AllReadings(records) + r.Readings()
    ensures ReadInOrder(env, records + [r], high)
  {
    LaterReadings(AllReadings(records), r.Readings(), if env.budget.Some? then 1 else 0, middle, high);
  }

  lemma SameReadings(env: Env, records: seq<Record>, more: seq<Record>, high: nat)
    requires ReadInOrder(env, records, high) && AllReadings(more) == AllReadings(records)
    ensures ReadInOrder(env, more, high)
  {
  }

  lemma NoRecords(env: Env)
    ensures ReadInOrder(env, [], if env.budget.Some? then 1 else 0)
    ensures Legal(env, []) && StopIndex(env, []).None? && FailedSteps(env, []) == {} && CallsMade([]) == 0
      && Elapsed(env, []) == 0.0
    ensures Results(env, []) == [] && Events(env, []) == []
  {
  }

  lemma EventsOfRun(env: Env, index: nat, r: Record)
    requires index < |env.invocations|
    ensures r.Ran? ==> EventsOf(env, index, r) == AttemptEvents(env, index, |r.Starts()|, r.ok)
    ensures r.Refused? ==>
      EventsOf(env, index, r) == AttemptEvents(env, index, |r.Starts()|, false) + [RefusedEvent(index)]
    ensures r.DependencySkip? ==> EventsOf(env, index, r) == [SkippedEvent(index)]
  {
  }

  method RefuseQueue(env: Env) returns (outcome: Outcome, ghost records: seq<Record>)
    requires env.budget.Some?
    ensures outcome.Thrown? <==> exists i :: 0 <= i < |env.invocations| && !Recordable(env.invocations[i])
    ensures outcome.Completed? ==>
      && RefusedAtOnce(env, records)
      && outcome.report.assessment == Some(Assess(env.budget.value, 0, AttemptSum(env.invocations), 0.0))
      && outcome.report.results == Results(env, records) && outcome.report.events == Events(env, records)
  {
    hide *;
    var results: seq<Result>, events: seq<Event> := [], [];
    records := [];
    NoRecords(env);
    for i := 0 to |env.invocations|
      invariant |records| == i
      invariant forall j :: 0 <= j < i ==> records[j] == RefusedRecord(env, j)
      invariant results == Results(env, records) && events == Events(env, records)
      invariant forall j :: 0 <= j < i ==> Recordable(env.invocations[j])
    {
      if !Recordable(env.invocations[i]) {
        return Thrown, records;
      }
      var r := RefusedRecord(env, i);
      ExtendRecords(env, records, r);
      results := results + [ResultOf(env, env.invocations[i], r)];
      events := events + EventsOf(env, i, r);
      records := records + [r];
    }
    AllRefusedAtOnce(env, records);
    var assessment := Assess(env.budget.value, 0, AttemptSum(env.invocations), 0.0);
    return Completed(Report(results, events, Some(assessment))), records;
  }

  lemma AllRefusedAtOnce(env: Env, records: seq<Record>)
    requires env.budget.Some? && |records| == |env.invocations|
    requires forall j :: 0 <= j < |records| ==> records[j] == RefusedRecord(env, j)
    ensures RefusedAtOnce(env, records)
  {
  }

  /** For every oracle and clock, the executor rejects exactly when the budget is not valid or some
      result could not be constructed, and otherwise reports the results and events of explained records,
      one per invocation. */
  method ExecuteToolInvocationQueue(queue: Queue, options: Options, succeeds: (nat, nat) -> bool, clock: nat -> real)
    returns (outcome: Outcome)
    ensures outcome.Thrown? <==> Throws(EnvOf(queue, options, succeeds, clock))
    ensures outcome.Thrown? <==>
      || (BudgetOf(queue, options).Some? && !ValidBudget(BudgetOf(queue, options).value)) || HasBlank(queue.invocations)
    ensures outcome.Completed? ==>
      exists records :: Reports(EnvOf(queue, options, succeeds, clock), records, outcome.report)
    ensures outcome.Completed? ==>
      && ResultsTell(queue, options, succeeds, outcome.report.results)
      && EventsTell(queue, options, succeeds, outcome.report) && InTurn(outcome.report.events)
      && BudgetTells(queue, options, outcome.report)
    ensures outcome.Completed? && FailsFast(queue, options) ==> exists k :: FailFastResults(outcome.report.results, k)
    ensures outcome.Completed? && !FailsFast(queue, options) ==>
      SkipsFollowErrors(queue.invocations, outcome.report.results)
  {
    hide *;
    var env := EnvOf(queue, options, succeeds, clock);
    EnvIsAsked(queue, options, succeeds, clock);
    BlankIffUnrecordable(queue.invocations);
    OverBudgetMeans(env);
    if env.budget.Some? && !ValidBudget(env.budget.value) {
      return Thrown;
    }
    ghost var records: seq<Record>;
    if env.budget.Some? {
      var assessment := Assess(env.budget.value, 0, AttemptSum(env.invocations), 0.0);
      if Blocked(assessment) {
        outcome, records := RefuseQueue(env);
        if outcome.Completed? {
          RefusalReports(env, records, outcome.report);
          ReportTells(queue, options, succeeds, clock, records, outcome.report);
        }
        return;
      }
    }
    outcome, records := RunQueue(env);
    if outcome.Completed? {
      RunReports(env, records, outcome.report);
      ReportTells(queue, options, succeeds, clock, records, outcome.report);
    }
  }
}
