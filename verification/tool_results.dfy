/** The summary of a run's results. */
module ToolResults {
  import opened Wrappers
  import opened Texts
  import opened WorkflowTypes
  import opened ToolRuns

  datatype SummaryStatus = SummaryComplete | SummaryPartial | SummaryFailed | SummaryEmpty

  datatype Summary = Summary(
    status: SummaryStatus,
    totalInvocations: nat,
    successCount: nat,
    errorCount: nat,
    skippedCount: nat,
    retryableErrorCount: nat,
    missingResultInvocationIds: seq<string>,
    unexpectedResultInvocationIds: seq<string>)

  function Count(results: seq<Result>, status: Status): nat {
    if results == [] then 0 else Count(results[1..], status) + if results[0].status == status then 1 else 0
  }

  function CountRetryable(results: seq<Result>): nat {
    if results == [] then 0
    else CountRetryable(results[1..]) + if results[0].status == Error && results[0].retryable == Some(true) then 1
      else 0
  }

  function IdsOutside(ids: seq<string>, known: set<string>): seq<string> {
    if ids == [] then [] else (if ids[0] in known then [] else [ids[0]]) + IdsOutside(ids[1..], known)
  }

  function QueueIds(invocations: seq<Invocation>): (ids: seq<string>)
    ensures |ids| == |invocations| && forall i :: 0 <= i < |ids| ==> ids[i] == invocations[i].id
  {
    seq(|invocations|, i requires 0 <= i < |invocations| => invocations[i].id)
  }

  function ResultIds(results: seq<Result>): (ids: seq<string>)
    ensures |ids| == |results| && forall i :: 0 <= i < |ids| ==> ids[i] == results[i].invocationId
  {
    seq(|results|, i requires 0 <= i < |results| => results[i].invocationId)
  }

  function Members(ids: seq<string>): set<string> {
    set id | id in ids
  }

  function ResolveStatus(total: nat, errors: nat, missing: seq<string>, unexpected: seq<string>): SummaryStatus {
    if total == 0 then SummaryEmpty
    else if errors > 0 then SummaryFailed
    else if missing != [] || unexpected != [] then SummaryPartial
    else SummaryComplete
  }

  function Summarize(invocations: seq<Invocation>, results: seq<Result>): Summary {
    var invocationIds, resultIds := QueueIds(invocations), ResultIds(results);
    var missing, unexpected := IdsOutside(invocationIds, Members(resultIds)),
      IdsOutside(resultIds, Members(invocationIds));
    var errors := Count(results, Error);
    Summary(ResolveStatus(|invocations|, errors, missing, unexpected), |invocations|,
            Count(results, Success), errors, Count(results, Skipped), CountRetryable(results), missing, unexpected)
  }

  lemma {:induction false} NothingOutside(ids: seq<string>, known: set<string>)
    ensures IdsOutside(ids, known) == [] <==> forall i :: 0 <= i < |ids| ==> ids[i] in known
  {
    if ids != [] {
      NothingOutside(ids[1..], known);
      assert forall i :: 1 <= i < |ids| ==> ids[i] == ids[1..][i - 1];
    }
  }

  lemma {:induction false} NoneCounted(results: seq<Result>, status: Status)
    ensures Count(results, status) == 0 <==> forall i :: 0 <= i < |results| ==> results[i].status != status
  {
    if results != [] {
      NoneCounted(results[1..], status);
      assert forall i :: 1 <= i < |results| ==> results[i] == results[1..][i - 1];
    }
  }

  /** Every result is counted under exactly one status. */
  lemma {:induction false} CountsAddUp(results: seq<Result>)
    ensures Count(results, Success) + Count(results, Error) + Count(results, Skipped) == |results|
  {
    if results != [] {
      CountsAddUp(results[1..]);
    }
  }

  /** The statuses of results; how often one occurs is its multiplicity. */
  function Statuses(results: seq<Result>): (statuses: seq<Status>)
    ensures |statuses| == |results| && forall i :: 0 <= i < |results| ==> statuses[i] == results[i].status
  {
    seq(|results|, i requires 0 <= i < |results| => results[i].status)
  }

  /** For each result, whether it is an error that is worth a retry. */
  function WorthRetrying(results: seq<Result>): (flags: seq<bool>)
    ensures |flags| == |results|
    ensures forall i :: 0 <= i < |results| ==>
      (flags[i] <==> results[i].status == Error && results[i].retryable == Some(true))
  {
    seq(|results|, i requires 0 <= i < |results| => results[i].status == Error && results[i].retryable == Some(true))
  }

  lemma {:induction false} CountIsMultiplicity(results: seq<Result>, status: Status)
    ensures Count(results, status) == multiset(Statuses(results))[status]
  {
    if results != [] {
      CountIsMultiplicity(results[1..], status);
      assert Statuses(results) == [results[0].status] + Statuses(results[1..]);
    }
  }

  lemma {:induction false} RetryableIsMultiplicity(results: seq<Result>)
    ensures CountRetryable(results) == multiset(WorthRetrying(results))[true]
  {
    if results != [] {
      RetryableIsMultiplicity(results[1..]);
      assert WorthRetrying(results) == [WorthRetrying(results)[0]] + WorthRetrying(results[1..]);
    }
  }

  lemma {:induction false} OutsideIff(ids: seq<string>, known: set<string>, id: string)
    ensures id in IdsOutside(ids, known) <==> id in ids && id !in known
  {
    if ids != [] {
      OutsideIff(ids[1..], known, id);
      assert ids == [ids[0]] + ids[1..];
    }
  }

  /** What each number of a summary counts, and which ids it calls missing or unexpected. */
  lemma SummaryTells(invocations: seq<Invocation>, results: seq<Result>, id: string)
    ensures var s := Summarize(invocations, results);
            && s.totalInvocations == |invocations|
            && s.successCount == multiset(Statuses(results))[Success]
            && s.errorCount == multiset(Statuses(results))[Error]
            && s.skippedCount == multiset(Statuses(results))[Skipped]
            && s.retryableErrorCount == multiset(WorthRetrying(results))[true]
            && (id in s.missingResultInvocationIds <==> IsInvoked(invocations, id) && !HasResult(results, id))
            && (id in s.unexpectedResultInvocationIds <==> !IsInvoked(invocations, id) && HasResult(results, id))
  {
    CountIsMultiplicity(results, Success);
    CountIsMultiplicity(results, Error);
    CountIsMultiplicity(results, Skipped);
    RetryableIsMultiplicity(results);
    var ids, resultIds := QueueIds(invocations), ResultIds(results);
    OutsideIff(ids, Members(resultIds), id);
    OutsideIff(resultIds, Members(ids), id);
    assert id in ids <==> IsInvoked(invocations, id) by {
      if IsInvoked(invocations, id) {
        var i :| 0 <= i < |invocations| && invocations[i].id == id;
        assert ids[i] == id;
      }
    }
    assert id in resultIds <==> HasResult(results, id) by {
      if HasResult(results, id) {
        var i :| 0 <= i < |results| && results[i].invocationId == id;
        assert resultIds[i] == id;
      }
    }
    hide IdsOutside, Count, CountRetryable, Statuses, WorthRetrying;
  }

  predicate IsInvoked(invocations: seq<Invocation>, id: string) {
    exists i :: 0 <= i < |invocations| && invocations[i].id == id
  }

  predicate HasResult(results: seq<Result>, id: string) {
    exists i :: 0 <= i < |results| && results[i].invocationId == id
  }

  ghost predicate IdsAreTrimmed(invocations: seq<Invocation>) {
    forall i :: 0 <= i < |invocations| ==> Trim(invocations[i].id) == invocations[i].id
  }

  lemma TrimmedIdsMatch(ids: seq<string>, trimmed: seq<string>)
    requires |ids| == |trimmed| && forall i :: 0 <= i < |ids| ==> trimmed[i] == Trim(ids[i])
    ensures IdsOutside(ids, Members(trimmed)) == [] <==> ids == trimmed
    ensures ids == trimmed ==> IdsOutside(trimmed, Members(ids)) == []
  {
    NothingOutside(ids, Members(trimmed));
    NothingOutside(trimmed, Members(ids));
    hide IdsOutside, Trim;
    forall i | 0 <= i < |ids| && ids[i] in trimmed
      ensures trimmed[i] == ids[i]
    {
      var j :| 0 <= j < |trimmed| && trimmed[j] == ids[i];
      TrimIsIdempotent(ids[j]);
    }
  }

  /** For the results of any run, an id is missing or unexpected only if the queue holds an id with white
      space around it, which results trim away. */
  lemma NoIdIsMissing(env: Env, records: seq<Record>)
    requires |records| == |env.invocations|
    ensures var s := Summarize(env.invocations, Results(env, records));
            && (s.missingResultInvocationIds == [] <==> IdsAreTrimmed(env.invocations))
            && (IdsAreTrimmed(env.invocations) ==> s.unexpectedResultInvocationIds == [])
  {
    TrimmedIdsMatch(QueueIds(env.invocations), ResultIds(Results(env, records)));
  }

  /** The status of any run. It is partial only for a queue with an untrimmed id; otherwise it is complete
      exactly when the queue is not empty and everything succeeded. A run without an error skipped nothing. */
  lemma RunStatus(env: Env, records: seq<Record>)
    requires Explains(env, records)
    ensures var s, trimmed := Summarize(env.invocations, Results(env, records)), IdsAreTrimmed(env.invocations);
            var succeeded := records != [] && forall i :: 0 <= i < |records| ==> records[i].Status() == Success;
            && (s.status == SummaryEmpty <==> records == [])
            && (s.status == SummaryFailed <==> exists i :: 0 <= i < |records| && records[i].Failing())
            && (s.status == SummaryComplete <==> succeeded && trimmed)
            && (s.status == SummaryPartial <==> succeeded && !trimmed)
  {
    hide Explains, OverBudgetAtOnce, Count, CountRetryable, IdsOutside, Members, IdsAreTrimmed, Results, Trim;
    AsManyRecords(env, records);
    var results := Results(env, records);
    NoIdIsMissing(env, records);
    NoneCounted(results, Error);
    if exists i :: 0 <= i < |records| && records[i].Failing() {
      var i := FirstFailing(env, records);
      assert results[i].status == Error;
    }
  }

  /** The first failing record of a run is an error. */
  lemma FirstFailing(env: Env, records: seq<Record>) returns (i: nat)
    requires Explains(env, records) && exists j :: 0 <= j < |records| && records[j].Failing()
    ensures i < |records| && records[i].Status() == Error
  {
    i := 0;
    if !OverBudgetAtOnce(env) {
      while !records[i].Failing()
        invariant i < |records| && exists j :: i <= j < |records| && records[j].Failing()
        invariant forall j :: 0 <= j < i ==> !records[j].Failing()
        decreases |records| - i
      {
        i := i + 1;
      }
      RecordIsLegal(env, records, i);
      NoStopOrFailure(env, records[..i]);
      FirstFailedIsFailed(env.invocations[i].dependsOnStepIds, {});
    }
  }

  lemma {:induction false} NoStopOrFailure(env: Env, records: seq<Record>)
    requires |records| <= |env.invocations| && forall j :: 0 <= j < |records| ==> !records[j].Failing()
    ensures StopIndex(env, records).None? && FailedSteps(env, records) == {}
  {
    if records != [] {
      NoStopOrFailure(env, records[..|records| - 1]);
      StopsAtRefusalOrError(env, records[|records| - 1]);
    }
  }
}
