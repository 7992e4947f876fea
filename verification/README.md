# Verified model of the UNS assistant workflow and API runtime

The project models two parts of the repository and proves what they promise.

**Assistant workflow** (`packages/uns-assistant-workflow`).

- `dependency_graph.dfy`: the two depth-first searches for cycles among planning steps, one throwing and one
  collecting, both against closed walks as the one definition of a cycle.
- `planning.dfy`, `tool_bindings.dfy`, `execution_plan.dfy`, `tool_invocations.dfy`, `workflow_run.dfy`,
  `invocation_ids.dfy`, `planned_results.dfy`, `workflow_examples.dfy`: from an intent to a plan, its classification
  and worst case, the queue of invocations with their order and ids, and what these promise together.
- `tool_runs.dfy`, `tool_reports.dfy`, `tool_executor.dfy`, `tool_results.dfy`, `execution_budget.dfy`: the runs of a
  queue with retries, budget, failure modes and failure propagation, for an arbitrary tool oracle and an arbitrary
  clock; what a report says of them; and the executor that makes them.
- `json_text.dfy`, `cache_key.dfy`, `lru.dfy`, `tool_result_cache.dfy`: the result cache, from the text of its keys
  (RFC 8259, printed as in section 25.5.2 of ECMA-262) to its agreement with a plain memory of accepted results.
- `definition_tuning.dfy`, `tuning_laws.dfy`, `tuning_report.dfy`: tuning suggestions, the definitions they give,
  and the diffs of those.
- `run_report_batch.dfy`: counts and migration candidates that are built up row by row.

**API runtime** (`packages/uns-api`). Three protocols, each a class whose methods are the code between two awaits and
a step function over events. Results hold after every sequence of events.

- `route_registration.dfy`: the renewal of a runtime route lease.
- `operator_jwt.dfy`: the single-flight loader of operator keys.
- `request_drain.dfy`: admission, completion and draining of HTTP requests across a hand-over of ownership.

Loops are loops, objects with mutable fields are classes, and each is proved against a function or a predicate
whose own properties are the lemmas listed below. Times are real numbers; strings are sequences of characters, and
sequences of 16-bit units where their printed form matters.

Some things that a reader may expect are not so. Each is stated with its exact condition and with an input:

- Invocation ids can collide: exactly when two pairs of a step and a tool split into each other at a colon
  (`InvocationIds.InvocationIdsAreDistinctIff`, `WorkflowExamples.ColonMakesIdsCollide`).
- The default queue can list a step before its dependencies, and a run then executes it first: exactly when an
  optional step depends on itself or on a later step and both have invocations
  (`WorkflowRun.DefaultQueueIsOrderedIff`, `WorkflowExamples.OptionalMayComeFirst`).
- A failure passes on only through steps that have invocations: in continue-independent mode an invocation is skipped
  exactly when a chain of invocations leads from it to an error, or the budget refused an earlier one
  (`ToolRuns.SkippedIffFailureReaches`, `WorkflowExamples.FailureMayStop`).
- A required tool that is not available can be dropped from a step of an unblocked plan: a running step invokes
  exactly those that are available (`WorkflowRun.RequiredToolsInvokedOnce`,
  `WorkflowExamples.RequiredToolMayBeLost`).
- Results trim invocation ids, so that a queue with an untrimmed id is summarized as having missing results
  (`ToolResults.NoIdIsMissing`, `PlannedResults.UntrimmedIdIsMissing`); no planned queue has one
  (`PlannedResults.PlannedRunCompletes`).
- A renewal can still be answered as ready after a stop: its promise exactly when it was granted and not yet
  reported at the stop (`RouteRegistration.StopIsSilentIff`). The observer is told of changes only, and so under a
  narrower condition (`RouteRegistration.StopIsQuietIff`). `RouteRegistration.StoppedMayReportReady` is a run for both.
- A direct-route strategy suggested from a trace keeps the case in which it was observed; applying suggestions throws
  exactly if some selected strategy that its route lacks is not in normal form
  (`TuningReport.ReportedSuggestionsKeepValidIff`, `TuningReport.ObservedStrategyIsRefused`).
- Applying the same tuning suggestions twice is idle exactly if no intent is suggested more new tools than the limit
  and no empty one besides a new one (`TuningLaws.ReapplyIsIdleIffWithinLimit`,
  `TuningLaws.LimitedReapplyIsNotIdle`).

## Model

| member | source | states |
|---|---|---|
| DependencyGraph.CheckStepDependencies | packages/uns-assistant-workflow/src/definition.ts:333-341 | Finds a fault exactly when some dependency is the step itself or undeclared, and reports the first such dependency, a self-dependency before an unknown one. |
| DependencyGraph.CheckAllDependencies | packages/uns-assistant-workflow/src/definition.ts:331-343 | Passes exactly when every dependency of every step is declared and none is the step itself. |
| DependencyGraph.Visit | packages/uns-assistant-workflow/src/definition.ts:347-356 | One recursive call terminates; an error names a step on a real cycle; otherwise the step is finished, open calls are as before, and a rank falls along every dependency of a finished step. |
| DependencyGraph.FindFirstCycle | packages/uns-assistant-workflow/src/definition.ts:345-357 | With known dependencies, reports nothing exactly for an acyclic graph, and otherwise a step that lies on a cycle. |
| DependencyGraph.AssertPlanningStepDependencies | packages/uns-assistant-workflow/src/definition.ts:328-358 | Returns normally exactly when all dependencies are declared and the graph has no closed walk; the step named in a cycle error lies on one; the other errors arise only from undeclared or self dependencies. |
| DependencyGraph.RankMeetsEveryCycle | packages/uns-assistant-workflow/src/definition.ts:345-357 | A rank of all steps that falls along every edge not into a given set of targets leaves no cycle avoiding the targets. |
| DependencyGraph.FinishedSearchMeetsEveryCycle | packages/uns-assistant-workflow/src/definition-diagnostics.ts:292-313 | When either search has finished every step, no cycle avoids the collected targets; with no targets the graph is acyclic. |
| DependencyGraph.VisitCollecting | packages/uns-assistant-workflow/src/definition-diagnostics.ts:298-310 | Going on after a back edge still terminates; everything collected lies on a cycle, nothing collected is lost, and finished steps descend except into collected ones. |
| DependencyGraph.FindPlanningStepDependencyCycles | packages/uns-assistant-workflow/src/definition-diagnostics.ts:292-313 | Returns distinct ids that each lie on a cycle and together meet every cycle, so it returns none exactly for an acyclic graph; undeclared dependencies are ignored. |
| DependencyGraph.StepDiagnostics | packages/uns-assistant-workflow/src/definition-diagnostics.ts:277-285 | One diagnostic, in order, for each dependency that is the step itself or undeclared; silent exactly when there is none. |
| DependencyGraph.FirstIndexOf | packages/uns-assistant-workflow/src/definition-diagnostics.ts:286-289 | The first position holding an id. |
| DependencyGraph.CycleDiagnostics | packages/uns-assistant-workflow/src/definition-diagnostics.ts:286-289 | One diagnostic for each reported id, at the first position that holds that id. |
| DependencyGraph.ValidatePlanningStepDependencies | packages/uns-assistant-workflow/src/definition-diagnostics.ts:271-290 | Silent on exactly the step lists that the throwing check accepts; every reported cycle step is on a cycle and named at the first position that holds its id. |
| JsonText.CharsAreUniquelyReadable | packages/uns-assistant-workflow/src/tool-result-cache.ts:60-64 | The escaped form of a string with its closing quote determines the string and what follows, also for lone and paired surrogates. |
| JsonText.StringIsPrefixIff | packages/uns-assistant-workflow/src/tool-result-cache.ts:178-186 | A written string begins another written text exactly when the strings are equal: the code of section 7 of RFC 8259 is prefix-free. |
| JsonText.ValuesAreUniquelyReadable | packages/uns-assistant-workflow/src/tool-result-cache.ts:60-64 | The JSON text of a value determines the value: printing is injective. |
| CacheKey.NormalIsNormal | packages/uns-assistant-workflow/src/tool-result-cache.ts:67-92 | Normalizing gives a normal form with the same meaning as the value. |
| CacheKey.NormalFormsAreCanonical | packages/uns-assistant-workflow/src/tool-result-cache.ts:67-92 | Two normal forms with the same meaning are the same value. |
| CacheKey.NormalIsIdempotent | packages/uns-assistant-workflow/src/tool-result-cache.ts:67-92 | Normalizing twice is normalizing once. |
| CacheKey.NormalFormIffMeaning | packages/uns-assistant-workflow/src/tool-result-cache.ts:67-92 | Values have equal normal forms exactly when they mean the same. |
| CacheKey.NormalIsBlindToOrderAndNulls | packages/uns-assistant-workflow/src/tool-result-cache.ts:81-90 | Objects whose properties read alike, in any order and with null for missing, have the same normal form. |
| CacheKey.SortedStringsBlindToOrder | packages/uns-assistant-workflow/src/tool-result-cache.ts:51-55 | Listed arrays sort alike exactly when they hold the same strings equally often. |
| CacheKey.NormalArgs | packages/uns-assistant-workflow/src/tool-result-cache.ts:49-63 | The argument part of a key is a normal JSON value with the meaning of the arguments, listed arrays sorted. |
| CacheKey.SameKeyIffSameMeaning | packages/uns-assistant-workflow/src/tool-result-cache.ts:43-65 | Two calls share a key exactly when scope, tool name and meaning of the arguments are equal. |
| CacheKey.ArgumentMeans | packages/uns-assistant-workflow/src/tool-result-cache.ts:51-60 | What a call means, argument by argument: a listed array is the sorted list of its strings, any other argument is itself, and null is missing. |
| CacheKey.PrefixIffScope | packages/uns-assistant-workflow/src/tool-result-cache.ts:178-181 | The prefix test of a scope matches the key of a call exactly when the call has that scope, for all strings. |
| Lru.RunKeepsInv | packages/uns-assistant-workflow/src/tool-result-cache.ts:94-195 | After any run of requests no key occurs twice, the capacity is kept and stats.size is the number of entries. |
| Lru.CacheHoldsLastWrites | packages/uns-assistant-workflow/src/tool-result-cache.ts:127-176 | Whatever the capacity, an entry is the last write to its key that was not dropped or found expired since; without evictions every such write is held. |
| Lru.HitIsLastWrite | packages/uns-assistant-workflow/src/tool-result-cache.ts:127-151 | A hit answers with the last write to the key and only before that write expires. |
| Lru.RunKeepsUseOrder | packages/uns-assistant-workflow/src/tool-result-cache.ts:147-174 | After any run the entries stand in the order of their last use. |
| Lru.EvictionTakesLeastRecentlyUsed | packages/uns-assistant-workflow/src/tool-result-cache.ts:165-174 | A store evicts another key exactly when it brings a new key into a full cache and that other key was used longest ago. |
| Lru.RunsAreNested | packages/uns-assistant-workflow/src/tool-result-cache.ts:127-186 | On the same requests the recency list of a cache is that of a cache with one place more, less at most one key. |
| Lru.MoreCapacityKeepsHits | packages/uns-assistant-workflow/src/tool-result-cache.ts:127-186 | More capacity never turns a hit into a miss nor changes its answer. |
| Lru.EntriesAreConserved | packages/uns-assistant-workflow/src/tool-result-cache.ts:102-191 | Keys inserted equal keys held plus evicted plus expired plus cleared; hits count the lookups that were answered and misses the others. |
| Lru.NothingEvicted | packages/uns-assistant-workflow/src/tool-result-cache.ts:165-174 | As long as stores name no more keys than there are places, nothing is evicted. |
| ToolResultCache.LastWriteIsRemembered | packages/uns-assistant-workflow/src/tool-result-cache.ts:153-176 | The last write under a key is what a plain memory of accepted results holds for the meaning of the call. |
| ToolResultCache.CacheAgreesWithReference | packages/uns-assistant-workflow/src/tool-result-cache.ts:127-176 | Over every run a hit is the last accepted result for the meaning of the call, before its expiry; without evictions every such result is a hit. |
| ToolResultCache.ClearScopeIsExact | packages/uns-assistant-workflow/src/tool-result-cache.ts:178-186 | Clearing a scope forgets exactly the calls of that scope and changes no other answer. |
| ToolResultCache.MoreRoomKeepsAnswers | packages/uns-assistant-workflow/src/tool-result-cache.ts:110-186 | A cache with a larger maxEntries gives every answer that the smaller one gives on the same requests. |
| ToolResultCache.CacheFits | packages/uns-assistant-workflow/src/tool-result-cache.ts:111-174 | After any run the cache holds at most maxEntries results, and at most one if that is less. |
| ToolResultCache.FewMeaningsAreKept | packages/uns-assistant-workflow/src/tool-result-cache.ts:111-174 | As long as results are accepted under at most that many meanings, nothing is evicted and every lookup finds the last accepted result for its meaning until that expires. |
| ToolResultCache.AcceptedIsFound | packages/uns-assistant-workflow/src/tool-result-cache.ts:157-175 | An accepted result is found under the same call exactly until its time to live is over. |
| ToolResultCache.AssistantWorkflowToolResultCache.constructor | packages/uns-assistant-workflow/src/tool-result-cache.ts:110-119 | A new cache is the empty run. |
| ToolResultCache.AssistantWorkflowToolResultCache.Get | packages/uns-assistant-workflow/src/tool-result-cache.ts:127-151 | Takes the state to the next state of the run and answers as the reference memory does. |
| ToolResultCache.AssistantWorkflowToolResultCache.GetEntry | packages/uns-assistant-workflow/src/tool-result-cache.ts:134-150 | Deletes an expired entry, moves a hit to the end, and counts. |
| ToolResultCache.AssistantWorkflowToolResultCache.Set | packages/uns-assistant-workflow/src/tool-result-cache.ts:153-176 | Takes the state to the next state of the run. |
| ToolResultCache.AssistantWorkflowToolResultCache.SetEntry | packages/uns-assistant-workflow/src/tool-result-cache.ts:162-175 | Replaces the entry of the key or evicts the oldest one of a full map, and counts. |
| ToolResultCache.AssistantWorkflowToolResultCache.ClearScope | packages/uns-assistant-workflow/src/tool-result-cache.ts:178-186 | Takes the state to the next state of the run; no counter but the size changes. |
| ToolResultCache.AssistantWorkflowToolResultCache.DropKeys | packages/uns-assistant-workflow/src/tool-result-cache.ts:180-184 | Deleting from the map while walking over it removes exactly the matching entries and keeps the order of the rest. |
| ToolResultCache.AssistantWorkflowToolResultCache.Clear | packages/uns-assistant-workflow/src/tool-result-cache.ts:188-191 | Empties the map; no counter but the size changes. |
| Texts.TrimIsIdempotent | packages/uns-assistant-workflow/src/tool-results.ts:186-192 | Trimming twice is trimming once. |
| Texts.TrimmedIff | packages/uns-assistant-workflow/src/tool-results.ts:186-192 | A string is its own trimmed form exactly if it neither begins nor ends with a space. |
| ToolExecutor.RunAttempts | packages/uns-assistant-workflow/src/tool-executor.ts:185-275 | The attempts of one invocation are legal: each is started within the budget after a failed one, they end with a success, the last allowed attempt or a refusal, in order of clock readings; a success that cannot be recorded counts as a failure. |
| ToolExecutor.SkipRest | packages/uns-assistant-workflow/src/tool-executor.ts:328-355 | The rest of the queue is recorded as skipped with the id of the invocation that stopped the run; it throws exactly when a result cannot be constructed. |
| ToolExecutor.RunNext | packages/uns-assistant-workflow/src/tool-executor.ts:176-275 | One turn of the main loop leaves the legal next record with its events, a skip for a failed dependency or the attempts, and throws exactly when the result cannot be constructed. |
| ToolExecutor.RunQueue | packages/uns-assistant-workflow/src/tool-executor.ts:171-296 | The main loop leaves one legal record per invocation, their results and events, and an assessment of the refusal, or of all calls made and the time to the end of the last attempt; it throws exactly when a result cannot be constructed. |
| ToolExecutor.RefuseQueue | packages/uns-assistant-workflow/src/tool-executor.ts:357-394 | A run refused at preflight: the first invocation is an error, all others are skipped, nothing is called. |
| ToolExecutor.ExecuteToolInvocationQueue | packages/uns-assistant-workflow/src/tool-executor.ts:139-296 | For every queue, options, tools and clock: rejects exactly for an invalid budget or a blank id, tool or step. Otherwise its report has one result per invocation in their order that says whether some allowed attempt succeeded, why it was skipped and whether to retry; is fail-fast in shape if the options, or else the policy, or else the default say so, and otherwise skips exactly what comes after a refusal or what an error reaches; has the events of these results in turn; and keeps the budget of the options, or else of the queue. |
| ToolReports.FailureModeTells | packages/uns-assistant-workflow/src/tool-executor.ts:145-149 | Given by queue and options alone, a report is successes, at most one error and then skips, or else an invocation in it is skipped exactly after a refusal or along a chain of dependencies to an error. |
| ToolReports.ResultsTellAll | packages/uns-assistant-workflow/src/tool-executor.ts:171-296 | Each result of a report carries its invocation, a status that the tool explains, and the reason: what ended the run for everything after it, and otherwise the first failed step that a skipped invocation depends on. |
| ToolReports.AllEventsTell | packages/uns-assistant-workflow/src/tool-executor.ts:208-275 | A success is reported for exactly the first attempt that succeeds; each started attempt is reported as succeeded or failed, without gaps; skips and refusals are reported for exactly the results that say so; a failure is worth a retry exactly before the last attempt or if the options say so. |
| ToolReports.EventsInTurn | packages/uns-assistant-workflow/src/tool-executor.ts:171-275 | Events follow the order of invocations and attempts, and the end of an attempt follows right after its start. |
| ToolReports.ReportTellsBudget | packages/uns-assistant-workflow/src/tool-executor.ts:150-208 | Without a budget nothing is assessed or refused. With one, the calls seen are within it and are those assessed; a queue whose worst case is over it is refused before any call, with that worst case; after that only time refuses. |
| ToolReports.ElapsedIsLastEnd | packages/uns-assistant-workflow/src/tool-executor.ts:230-262 | The elapsed time of a run is that of the end of the last attempt of an invocation that ran. |
| ToolExecutor.FailedStepsAreNamed | packages/uns-assistant-workflow/src/tool-executor.ts:177-181 | No failed step has an empty id, so the truthiness test of the dependency loses none. |
| ToolRuns.NothingRunsAfterRefusal | packages/uns-assistant-workflow/src/tool-executor.ts:196-206 | After a budget refusal every later invocation is skipped, in both failure modes. |
| ToolRuns.FailFastRunsHaveShape | packages/uns-assistant-workflow/src/tool-executor.ts:276-286 | A fail-fast run is successes, then at most one error, then only skips. |
| ToolRuns.SkippedIffDependencyFailed | packages/uns-assistant-workflow/src/tool-executor.ts:173-183 | In continue-independent mode without a refusal, an invocation is skipped exactly when a step it depends on has an earlier failed or skipped invocation. |
| ToolRuns.SkippedIffFailureReaches | packages/uns-assistant-workflow/src/tool-executor.ts:171-296 | In every continue-independent run, an invocation is skipped exactly when a refusal came before it, or a chain of invocations, each depending directly on the next and later than it, leads from it to one that ended in an error. |
| ToolRuns.ExecutedChainSucceeded | packages/uns-assistant-workflow/src/tool-executor.ts:139-296 | In every run, refused at once or not: down every chain of dependencies that starts at an executed invocation, and in which all but the last stand after all their dependencies, each invocation comes earlier and has succeeded. |
| ToolRuns.ExecutedHasSuccessfulDependencies | packages/uns-assistant-workflow/src/tool-executor.ts:139-296 | In every run of a queue that lists dependency steps first, every invocation that an executed one depends on, wherever it stands and through any number of steps with invocations, comes earlier and has succeeded. |
| ToolRuns.AttemptsAreBounded | packages/uns-assistant-workflow/src/tool-executor.ts:185-275 | Each executed invocation is tried between once and its normalized maximum (at most 3), stops at its first success and gives up only after the last attempt. |
| ToolRuns.CallsStayWithinBudget | packages/uns-assistant-workflow/src/tool-executor.ts:150-208 | No run makes more executor calls than maxToolCalls. |
| ToolRuns.AttemptsStartInTime | packages/uns-assistant-workflow/src/tool-executor.ts:188-207 | No attempt starts once the floored elapsed time is over maxDurationMs. |
| ToolRuns.OnlyDurationRefuses | packages/uns-assistant-workflow/src/tool-executor.ts:150-207 | After a passed preflight check an invocation can be refused for its duration only. |
| ToolRuns.StartedEventsAreCalls | packages/uns-assistant-workflow/src/tool-executor.ts:208-216 | An observer sees one started event for every call of a tool. |
| ToolResults.NoIdIsMissing | packages/uns-assistant-workflow/src/tool-results.ts:94-129 | For the results of any run no id is missing exactly when all ids of the queue are trimmed, and then none is unexpected. |
| ToolResults.RunStatus | packages/uns-assistant-workflow/src/tool-results.ts:172-184 | The status of any run: empty for an empty queue, failed exactly when something failed, complete exactly when everything succeeded and ids are trimmed, partial only for untrimmed ids. |
| ToolResults.CountsAddUp | packages/uns-assistant-workflow/src/tool-results.ts:94-129 | Every result is counted under exactly one status. |
| ToolResults.SummaryTells | packages/uns-assistant-workflow/src/tool-results.ts:94-129 | The counts of a summary are how often each status, and an error worth a retry, occurs; missing and unexpected ids are exactly those invoked without a result and the other way round. |
| ToolResults.FirstFailing | packages/uns-assistant-workflow/src/tool-results.ts:172-184 | The first failing result of any run is an error, never a skip. |
| Planning.UniqueStrings | packages/uns-assistant-workflow/src/planning.ts:197-207 | The loop with its seen set keeps each normalized value where it first occurs. |
| Planning.UniqueNormalIsDistinct | packages/uns-assistant-workflow/src/planning.ts:197-207 | The kept values are distinct and normal, and no non-empty value is lost. |
| Planning.FirstFinal | packages/uns-assistant-workflow/src/planning.ts:130-147 | The insertion point is the first step that builds, generates or synthesizes, else the end. |
| Planning.BuildPlan | packages/uns-assistant-workflow/src/planning.ts:56-128 | The plan loop with its seen set yields the plan of the distinct normalized step ids, conditional steps inserted before the first final one. |
| Planning.PlanIsWellFormed | packages/uns-assistant-workflow/src/planning.ts:78-112 | A plan has no step twice, its step ids are normal, and the tools of its steps are distinct and normalized. |
| Planning.PlannedIffAsked | packages/uns-assistant-workflow/src/planning.ts:66-98 | A plan holds exactly the declared steps that the base list or an active profile asks for, by any spelling, and reports as missing exactly the undeclared ones. |
| Planning.PlanOrder | packages/uns-assistant-workflow/src/planning.ts:130-147 | Steps of the base list before its first step that builds an artifact, generates or synthesizes come first, then those of active profiles, then the rest. |
| Planning.TracedStepTells | packages/uns-assistant-workflow/src/planning.ts:105-112 | A planned step has the kind of its definition, is optional if that is, depends on what that names and has those of its tools that are available. |
| ToolBindings.ResolveTools | packages/uns-assistant-workflow/src/tool-bindings.ts:99-139 | One resolution for each distinct normalized name, in order, by the last capability and binding of that name. |
| ToolBindings.UsableIffBound | packages/uns-assistant-workflow/src/tool-bindings.ts:99-139 | A tool is usable exactly if it is declared and bound for one provider and all context that it requires is available. |
| ExecutionPlanning.BuildExecutionSteps | packages/uns-assistant-workflow/src/execution-plan.ts:86-158 | With the seen set growing step by step, each planned step is classified against exactly the steps planned before it. |
| ExecutionPlanning.PlanIsUnblockedIff | packages/uns-assistant-workflow/src/execution-plan.ts:160-193 | A plan goes on exactly when nothing needs clarification, no step or required tool is missing, required tools are usable, every planned step is optional or has usable tools and earlier dependencies, and steps and worst case are within the budget. |
| ExecutionPlanning.StepStatusIff | packages/uns-assistant-workflow/src/execution-plan.ts:86-132 | A step is left out if it is optional and a required tool unusable, blocked if it is not optional and a tool unusable or a dependency late, partial if only an optional tool is unusable, and otherwise ready. |
| ExecutionPlanning.StepReasonsIff | packages/uns-assistant-workflow/src/execution-plan.ts:100-150 | The reasons of a step are exactly its unusable tools with their status or missing context and its missing or late dependencies; those of an optional step, and of optional tools, only warn. |
| ExecutionPlanning.ReadyToolsIff | packages/uns-assistant-workflow/src/execution-plan.ts:93-150 | The ready tools of a step are exactly the usable ones among those it names. |
| ExecutionPlanning.PlanReasonsIff | packages/uns-assistant-workflow/src/execution-plan.ts:171-182 | A plan is blocked for exactly its clarification rules, missing steps, unavailable or unusable required tools, blocked steps and passed limits. |
| ToolInvocations.CollectInvocations | packages/uns-assistant-workflow/src/tool-invocations.ts:85-103 | The two nested loops yield the ready tools of the running steps in plan order, and the ids of the steps left out. |
| ToolInvocations.BuildQueue | packages/uns-assistant-workflow/src/tool-invocations.ts:65-142 | The checks and loops of the builder give the queue of a plan, of which `ToolInvocations.QueueIsBlockedOrFits`, `ToolInvocations.ReadyToolsOnce` and `ToolInvocations.QueueIsOrderedIff` say what it holds, how often and in which order. |
| ToolInvocations.QueueIsBlockedOrFits | packages/uns-assistant-workflow/src/tool-invocations.ts:70-142 | A blocked queue invokes nothing and lists every step as skipped; any other lists exactly the steps that do not run, invokes tools of running steps only, within the budget, and only required ones when optional tools are left out, and is partial exactly if the plan is. |
| ToolInvocations.QueueIsBlockedIff | packages/uns-assistant-workflow/src/tool-invocations.ts:70-126 | A queue is blocked exactly if its plan is and that is not allowed, or if it passes a limit of the budget. |
| ToolInvocations.PlannedStepIsGood | packages/uns-assistant-workflow/src/execution-plan.ts:93-150 | The ready tools of a planned step are distinct, normalized, ready and have their context. |
| ToolInvocations.ThreeBoundsAgree | packages/uns-assistant-workflow/src/execution-plan.ts:270-283 | The worst case of the plan, the attempt sum of the queue and the preflight sum of the executor are equal. |
| ToolInvocations.InvocationsFollowSteps | packages/uns-assistant-workflow/src/tool-invocations.ts:88-103 | Invocations of different steps stand in the order of the steps. |
| ToolInvocations.DependenciesBeforeIff | packages/uns-assistant-workflow/src/tool-invocations.ts:88-103 | An invocation stands after all those of the steps it depends on exactly if its step comes after those of them that have invocations. |
| ToolInvocations.QueueIsOrderedIff | packages/uns-assistant-workflow/src/tool-invocations.ts:88-103 | The queue lists dependency steps first exactly if, among the steps with invocations, none depends on itself or a later one. |
| ToolInvocations.ReadyToolsOnce | packages/uns-assistant-workflow/src/tool-invocations.ts:88-103 | Each ready tool of a running step, or each that it requires when optional ones are left out, is invoked exactly once for that step, and no other tool is. |
| WorkflowRun.UnblockedPlanIsTopological | packages/uns-assistant-workflow/src/execution-plan.ts:86-132 | A plan that is not blocked has distinct steps, and every dependency of a step that is not optional stands strictly before it. |
| WorkflowRun.PlanWithinBudgetIsNotRefused | packages/uns-assistant-workflow/src/tool-invocations.ts:105-126 | A plan within budget is refused neither by the queue nor by the preflight check of the executor. |
| WorkflowRun.RequiredToolsInvokedOnce | packages/uns-assistant-workflow/src/planning.ts:105-120 | In the default queue of an unblocked plan, a tool that the definition of a planned step requires is invoked exactly once for it if the step runs and nothing restricts the available tools or the tool is among them, and otherwise never; a step that is not optional always runs. |
| WorkflowRun.InvocationsAreCallable | packages/uns-assistant-workflow/src/tool-invocations.ts:174-199 | Every invocation of the default queue of an unblocked plan has matching capability and binding providers, all its required context and one to three attempts. |
| WorkflowRun.InvocationsAreOfPlan | packages/uns-assistant-workflow/src/tool-invocations.ts:174-199 | Every invocation of the default queue is made for a planned step, with its dependencies, is required exactly if that step requires its tool, and has the attempts that policy and retry class allow. |
| WorkflowRun.DefaultQueueIsOrderedIff | packages/uns-assistant-workflow/src/execution-plan.ts:111-124 | The default queue of an unblocked plan lists dependency steps first exactly if no optional step with invocations depends on itself or on a later step with invocations. |
| WorkflowRun.PlannedRunRespectsDependencies | packages/uns-assistant-workflow/src/tool-executor.ts:139-296 | In every run of the default queue of an unblocked plan, whatever budget overrides that of the queue, optional steps or not: down every chain of dependencies from an executed invocation, through steps that are not optional, each invocation comes earlier and has succeeded. |
| InvocationIds.SameIdIff | packages/uns-assistant-workflow/src/tool-invocations.ts:186 | Two invocations share an id exactly if step and tool agree or one pair splits into the other at a colon. |
| InvocationIds.PairsAreDistinct | packages/uns-assistant-workflow/src/tool-invocations.ts:88-103 | Two invocations of a queue are never of the same step and tool. |
| InvocationIds.InvocationIdsAreDistinctIff | packages/uns-assistant-workflow/src/tool-invocations.ts:186 | The ids of the default queue of an unblocked plan are pairwise distinct exactly if no two pairs of a running step and a ready tool split into each other. |
| WorkflowExamples.PartsGoOn | packages/uns-assistant-workflow/src/execution-plan.ts:80-230 | Any list of steps whose tools are declared and bound, and that do not depend forwards unless optional, is planned and not blocked, whatever tools are available. |
| WorkflowExamples.PartsAreQueued | packages/uns-assistant-workflow/src/tool-invocations.ts:65-142 | The default queue of such a plan, invocation for invocation: the available tools of each step in order. |
| WorkflowExamples.TwoTriesRun | packages/uns-assistant-workflow/src/tool-executor.ts:171-296 | Two invocations without a budget that are each tried once, the second not dependent on a failed first: in every run both are executed and end as their tools do, and there is such a run. |
| WorkflowExamples.SplitIdsCollide | packages/uns-assistant-workflow/src/tool-invocations.ts:186 | Whenever two such steps split, their default queue holds two different invocations with one id. |
| WorkflowExamples.ColonMakesIdsCollide | packages/uns-assistant-workflow/src/tool-invocations.ts:186 | Such a workflow: step a with tool b:c and step a:b with tool c. |
| WorkflowExamples.OptionalBeforeItsDependency | packages/uns-assistant-workflow/src/execution-plan.ts:111-124 | Whenever an optional step is planned before the step it depends on, the plan goes on, its queue does not list dependency steps first, and in every run in which the tool of the dependency fails, the optional step has been executed before it and succeeded. |
| WorkflowExamples.OptionalMayComeFirst | packages/uns-assistant-workflow/src/execution-plan.ts:111-124 | Such a workflow and run: step a, optional and dependent on b, and then b, whose tool fails. |
| WorkflowExamples.FailureStopsAtStepWithoutTools | packages/uns-assistant-workflow/src/tool-executor.ts:173-183 | Whenever of three planned steps each depends on the one before and the second has no tool, a failure of the first in continue-independent mode does not keep the third from running. |
| WorkflowExamples.FailureMayStop | packages/uns-assistant-workflow/src/tool-executor.ts:173-183 | Such a workflow and run: step a, whose tool fails, b without tools, and c. |
| WorkflowExamples.RequiredToolIsLost | packages/uns-assistant-workflow/src/planning.ts:105-120 | Whenever the one required tool of the one step is not available, the plan still goes on unblocked, and its default queue is empty. |
| WorkflowExamples.RequiredToolMayBeLost | packages/uns-assistant-workflow/src/planning.ts:105-120 | Such a workflow: step a requires t, and only u is available. |
| PlannedResults.DefaultQueueIsRecordable | packages/uns-assistant-workflow/src/tool-results.ts:186-192 | Every invocation of the default queue of an unblocked plan has the strings its result needs, and a trimmed id. |
| PlannedResults.PlannedRunCompletes | packages/uns-assistant-workflow/src/tool-executor.ts:139-296 | With a valid budget the executor completes on the default queue of every unblocked plan; in every run no result is missing or unexpected, and the summary is never partial. |
| PlannedResults.UntrimmedIdIsMissing | packages/uns-assistant-workflow/src/tool-results.ts:94-129 | An id that begins with a space: its one tool succeeds, yet its result is missing and the run partial. |
| RouteRegistration.ApplyKeepsInv | packages/uns-api/src/runtime-route-registration.ts:62-133 | Every single event keeps the protocol invariant. |
| RouteRegistration.RunKeepsInv | packages/uns-api/src/runtime-route-registration.ts:62-133 | The invariant holds after every interleaving of ticks, late transports, deadlines, reports and stops; the observer has then been told each change of what was reported, and nothing else. |
| RouteRegistration.AtMostOneOutstanding | packages/uns-api/src/runtime-route-registration.ts:69-120 | At most one renewal is under way, and it is the pending one. |
| RouteRegistration.ReadyMeansLiveLease | packages/uns-api/src/runtime-route-registration.ts:62-107 | Ready implies a granted renewal that started less than one lease ago, so a lease granted at or after that start is live. |
| RouteRegistration.ExpiryAfter | packages/uns-api/src/runtime-route-registration.ts:104-133 | How every event moves the expiry: a stop and a negative report set it to zero, the valid body of a live renewal to its start plus the lease, and nothing else changes it. |
| RouteRegistration.OnlyLiveRenewalsGrant | packages/uns-api/src/runtime-route-registration.ts:104-107 | A renewal is granted by exactly its valid body, and only if it was neither cancelled nor stopped. |
| RouteRegistration.GrantedIsReady | packages/uns-api/src/runtime-route-registration.ts:62-133 | After the valid body of a live renewal the registration is ready until one lease after the start of that renewal, whatever else happens, unless it is stopped or a negative answer is reported, as long as the clock does not go back. |
| RouteRegistration.ReportDecidesReadiness | packages/uns-api/src/runtime-route-registration.ts:121-123 | A negative report ends readiness and a ready one leaves it as it was. |
| RouteRegistration.CancelledIsNeverGranted | packages/uns-api/src/runtime-route-registration.ts:78-107 | A renewal cancelled by its deadline or a stop is never granted, however late its transport answers. |
| RouteRegistration.StopIsFinal | packages/uns-api/src/runtime-route-registration.ts:129-133 | After stop it is never ready again, sends no request, begins no renewal, and every waiting caller has an answer. |
| RouteRegistration.StoppedMayReportReadyIff | packages/uns-api/src/runtime-route-registration.ts:113-133 | The promise of a renewal of a stopped registration can still give a ready answer exactly when the answer of some granted renewal was decided and not yet given. |
| RouteRegistration.StopIsSilentIff | packages/uns-api/src/runtime-route-registration.ts:113-133 | After a stop no promise gives a ready answer exactly when, at the stop, every granted renewal has been reported. |
| RouteRegistration.StoppedMayTellReadyIff | packages/uns-api/src/runtime-route-registration.ts:121-133 | The observer of a stopped registration can still be told that it is ready exactly when a ready answer is still to be reported, and the last report was not ready or a negative answer is still to be reported, too. |
| RouteRegistration.StopIsQuietIff | packages/uns-api/src/runtime-route-registration.ts:121-133 | After a stop the observer is never told of readiness exactly when, at the stop, every granted renewal has been reported, or the last report was ready and every renewal has been reported or granted. |
| RouteRegistration.StoppedMayReportReady | packages/uns-api/src/runtime-route-registration.ts:113-133 | Such a run for both: a stop right after the first grant, before its report. |
| RouteRegistration.DeadlineCancelsItsOwn | packages/uns-api/src/runtime-route-registration.ts:78-83 | A deadline that fires cancels its own renewal and no other, although it goes through a shared field. |
| RouteRegistration.RuntimeRouteRegistration.IsReady | packages/uns-api/src/runtime-route-registration.ts:62 | Ready exactly while not stopped and not expired, and then some granted lease is live. |
| RouteRegistration.RuntimeRouteRegistration.StartTimer | packages/uns-api/src/runtime-route-registration.ts:63-68 | Starting sets the timer and begins a renewal if none is pending; when stopped or started before it changes nothing. |
| RouteRegistration.RuntimeRouteRegistration.BeginRenewal | packages/uns-api/src/runtime-route-registration.ts:69-84 | A call when stopped or while a renewal is pending changes nothing; otherwise exactly one renewal is begun, now, with its deadline on, pending and cancellable; the invariant is kept. |
| RouteRegistration.RuntimeRouteRegistration.OnToken | packages/uns-api/src/runtime-route-registration.ts:86-91 | A read credential leads to exactly one request if the renewal is neither cancelled nor stopped; otherwise the renewal is over and not ready. |
| RouteRegistration.RuntimeRouteRegistration.OnResponse | packages/uns-api/src/runtime-route-registration.ts:92-95 | A good response in time is read on; a bad or late one ends the renewal as not ready. |
| RouteRegistration.RuntimeRouteRegistration.OnBody | packages/uns-api/src/runtime-route-registration.ts:104-108 | A valid body of a live renewal grants it and sets the expiry to its start plus the lease; any other leaves the expiry and ends the renewal as not ready. |
| RouteRegistration.RuntimeRouteRegistration.Cancel | packages/uns-api/src/runtime-route-registration.ts:78-82 | The current renewal is cancelled for good and its callers have an answer, the earlier one or not ready; no other renewal changes. |
| RouteRegistration.RuntimeRouteRegistration.OnDeadline | packages/uns-api/src/runtime-route-registration.ts:83 | The deadline cancels its renewal and answers it as not ready if nothing has; the expiry stays. |
| RouteRegistration.RuntimeRouteRegistration.OnRaceDecided | packages/uns-api/src/runtime-route-registration.ts:113-128 | A negative report ends readiness, a ready one keeps the expiry; the observer is told exactly if it differs from the last report. |
| RouteRegistration.RuntimeRouteRegistration.OnSettled | packages/uns-api/src/runtime-route-registration.ts:115-119 | A settled transport clears its deadline and the pending renewal, so that a new one can begin. |
| RouteRegistration.RuntimeRouteRegistration.StopRegistration | packages/uns-api/src/runtime-route-registration.ts:129-133 | Stopping ends timer and readiness and answers every open renewal as not ready. |
| OperatorJwt.ApplyKeepsInv | packages/uns-api/src/operator-jwt.ts:52-156 | Every single event keeps the loader invariant. |
| OperatorJwt.RunKeepsInv | packages/uns-api/src/operator-jwt.ts:52-156 | The invariant holds after every interleaving of verifications, transports, deadlines and pauses. |
| OperatorJwt.TransportActiveIff | packages/uns-api/src/operator-jwt.ts:83-149 | transportActive holds exactly while one transport is unreleased, there is never a second, and an unsettled one is unreleased. |
| OperatorJwt.LoadsAreBounded | packages/uns-api/src/operator-jwt.ts:53-78 | Concurrent verifications share one load, and a load fetches at most twice. |
| OperatorJwt.OnlySuccessInstalls | packages/uns-api/src/operator-jwt.ts:58-64 | Keys and expiry change only together, by a load whose fetch settled before its deadline, which also ends the cooldown. |
| OperatorJwt.TimedOutNeverDelivers | packages/uns-api/src/operator-jwt.ts:89-96 | A fetch that ran into its deadline never delivers keys, however late its transport answers. |
| OperatorJwt.FetchIsDecidedBy | packages/uns-api/src/operator-jwt.ts:89-139 | What decides an open fetch: a complete document gives its keys; the deadline, a transport error and some answers are worth a retry, other answers and a bad document are not. |
| OperatorJwt.DecidedLoad | packages/uns-api/src/operator-jwt.ts:53-73 | What decides the fetch that a load waits for is what the load resumes with, whatever happens in between. |
| OperatorJwt.LoadResumes | packages/uns-api/src/operator-jwt.ts:58-73 | A load that resumes with keys holds them for 15 seconds from then; with a failure it makes its second attempt exactly if that failure is worth it and was the first, and otherwise ends with a cooldown of one second. |
| OperatorJwt.GoodDocumentServes | packages/uns-api/src/operator-jwt.ts:40-73 | A complete document in time ends its load as successful, and from the moment that the load resumes a verification needs no load exactly if its id is among the keys, for one lifetime or until other keys are installed. |
| OperatorJwt.RetryFetches | packages/uns-api/src/operator-jwt.ts:69-84 | The second attempt begins one fetch of its own, unless a transport is still active. |
| OperatorJwt.FailedLoadCoolsDown | packages/uns-api/src/operator-jwt.ts:54-73 | Between a failed load and the start of the next lies at least the cooldown. |
| OperatorJwt.OperatorJwtVerifier.StartVerify | packages/uns-api/src/operator-jwt.ts:40 | A verification loads exactly when the snapshot is stale or lacks the key id. |
| OperatorJwt.OperatorJwtVerifier.StartLoad | packages/uns-api/src/operator-jwt.ts:52-58 | While a load is pending or in the cooldown nothing changes; otherwise exactly one load begins, now, is pending, and has made one fetch unless a transport is still active; the invariant is kept. |
| OperatorJwt.OperatorJwtVerifier.FetchKeys | packages/uns-api/src/operator-jwt.ts:80-97 | While a transport is active none is begun and the load is refused; otherwise exactly one open transport is begun, which the load waits for and counts; no other load or fetch changes. |
| OperatorJwt.OperatorJwtVerifier.OnResponse | packages/uns-api/src/operator-jwt.ts:99-104 | A bad response settles the transport, and is worth a retry only before the deadline. |
| OperatorJwt.OperatorJwtVerifier.OnBody | packages/uns-api/src/operator-jwt.ts:106-135 | A complete document before the deadline delivers its keys; a bad one is a failure not worth a retry; after the deadline neither counts. |
| OperatorJwt.OperatorJwtVerifier.OnTransportError | packages/uns-api/src/operator-jwt.ts:136-139 | A transport error settles the transport as worth a retry. |
| OperatorJwt.OperatorJwtVerifier.OnTimeout | packages/uns-api/src/operator-jwt.ts:89-96 | The deadline decides the race as a failure worth a retry while the transport goes on. |
| OperatorJwt.OperatorJwtVerifier.OnTransportSettled | packages/uns-api/src/operator-jwt.ts:141-149 | The flag falls only when the transport settles. |
| OperatorJwt.OperatorJwtVerifier.OnFetchKeysDone | packages/uns-api/src/operator-jwt.ts:56-73 | The attempt loop installs keys for 15 seconds, pauses for its one retry after a first failure worth it, or ends with a cooldown of one second. |
| OperatorJwt.OperatorJwtVerifier.OnPauseOver | packages/uns-api/src/operator-jwt.ts:69 | The retry begins a fetch of the same load. |
| OperatorJwt.OperatorJwtVerifier.OnLoadSettled | packages/uns-api/src/operator-jwt.ts:74-76 | A settled load is no longer pending. |
| RequestDrain.ApplyKeepsInv | packages/uns-api/src/app.ts:58-137 | Every single event keeps the bookkeeping invariant. |
| RequestDrain.AcceptedIff | packages/uns-api/src/app.ts:122-136 | Over every run a request is accepted exactly until its transport has ended and its work has settled, whatever the order of finish, close and work. |
| RequestDrain.FailedIffLost | packages/uns-api/src/app.ts:130-134 | The failure flag holds exactly when some request lost its transport before its response was written, undeclared as read-only. |
| RequestDrain.DrainReturnsCleanly | packages/uns-api/src/app.ts:75-78 | A drain returns normally exactly when nothing is accepted and nothing was lost, and then every request ended written or read-only with its work settled. |
| RequestDrain.ReleaseClosesGate | packages/uns-api/src/uns-api-plugin.ts:31-46 | After a release, from any state and with no later activation, nothing is admitted: an arriving request changes nothing and the accepted ones are among those at the release. |
| RequestDrain.ActivationOpensGate | packages/uns-api/src/uns-api-plugin.ts:31-46 | After an activation with no later release, an arriving request is admitted under a new id. |
| RequestDrain.ReleasedStaysEmpty | packages/uns-api/src/uns-api-plugin.ts:31-46 | Once empty after a release, the accepted set stays empty until the next activation. |
| RequestDrain.ReleasedDrainIsShort | packages/uns-api/src/app.ts:75-78 | A drain that begins after a release, with no later activation, waits for one snapshot only. |
| RequestDrain.DrainWaits | packages/uns-api/src/app.ts:75-78 | A waiting drain goes on waiting until all requests that it found are done, whatever arrives in between. |
| RequestDrain.App.Admit | packages/uns-api/src/app.ts:114-137 | A request is admitted exactly while the runtime owns the role, under a new id, and nothing else changes; otherwise nothing changes at all. |
| RequestDrain.App.EndTransportOf | packages/uns-api/src/app.ts:130-134 | The request leaves the accepted set exactly if its work has settled, and is lost, failing the drain, exactly if neither written nor read-only; no other request changes. |
| RequestDrain.App.OnFinish | packages/uns-api/src/app.ts:135 | A written response ends the transport; the request is accepted no longer, unless its work goes on. |
| RequestDrain.App.OnClose | packages/uns-api/src/app.ts:136 | A close ends the transport, also a second time, and fails the drain exactly if the response was not written and the work not declared read-only. |
| RequestDrain.App.DeclareReadOnly | packages/uns-api/src/app.ts:58-65 | Declaring work throws exactly when the transport has ended or work was declared before. |
| RequestDrain.App.OnWorkSettled | packages/uns-api/src/app.ts:66-73 | Settled work completes the request if its transport has ended. |
| RequestDrain.App.DrainStep | packages/uns-api/src/app.ts:75-78 | A normal return leaves every request cleanly ended. |
| RequestDrain.App.OnRelease | packages/uns-api/src/uns-api-plugin.ts:39 | A release ends ownership and changes nothing else. |
| RequestDrain.App.OnActivate | packages/uns-api/src/uns-api-plugin.ts:41-42 | An activation begins ownership and changes nothing else. |
| RunReportBatch.TallyIsExpected | packages/uns-assistant-workflow/src/run-report-batch.ts:556-572 | The insertion-ordered counts hold for each name its number of occurrences, and a warning if any of them was one. |
| RunReportBatch.SortedCountsAreCanonical | packages/uns-assistant-workflow/src/run-report-batch.ts:573-577 | Sorted counts are determined by what they say about each name. |
| RunReportBatch.ListedByImportance | packages/uns-assistant-workflow/src/run-report-batch.ts:573-577 | Counts are listed by falling number, then with warnings first, then by name. |
| RunReportBatch.BuildIsExpected | packages/uns-assistant-workflow/src/run-report-batch.ts:556-578 | Counting signals gives the expected count and severity of every name, sorted, each name once. |
| RunReportBatch.BuildSignalCounts | packages/uns-assistant-workflow/src/run-report-batch.ts:556-578 | The counting loop computes these counts. |
| RunReportBatch.MergeSignalCounts | packages/uns-assistant-workflow/src/run-report-batch.ts:580-595 | The expanding loops count the old counts written out together with the new signals. |
| RunReportBatch.MergeEqualsBuild | packages/uns-assistant-workflow/src/run-report-batch.ts:580-595 | Merging signals into the counts of others equals counting all at once, including severities and order. |
| RunReportBatch.AddRowRecounts | packages/uns-assistant-workflow/src/run-report-batch.ts:394-409 | Adding a row to a candidate that counts some rows gives the candidate that counts one row more. |
| RunReportBatch.AddRowToCandidates | packages/uns-assistant-workflow/src/run-report-batch.ts:376-411 | The inner loop adds a row once to each of its distinct profiles and to no other. |
| RunReportBatch.BuildCandidates | packages/uns-assistant-workflow/src/run-report-batch.ts:370-412 | After the row loop each profile has a candidate exactly if some row was active in it, and it equals one count over all its rows. |
| RunReportBatch.StatusCountsAddUp | packages/uns-assistant-workflow/src/run-report-batch.ts:395-400 | The five status counts of a candidate add up to its runs. |
| RunReportBatch.CandidateCounts | packages/uns-assistant-workflow/src/run-report-batch.ts:370-412 | Each number of a candidate is how often its condition holds of the rows. |
| RunReportBatch.CandidateNames | packages/uns-assistant-workflow/src/run-report-batch.ts:370-412 | The steps and signal details of a candidate are exactly those that some row names, trimmed and not empty. |
| RunReportBatch.RowsOfIff | packages/uns-assistant-workflow/src/run-report-batch.ts:370-412 | A row counts for exactly the profiles that it names, by any spelling with white space around. |
| RunReportBatch.ReadyIff | packages/uns-assistant-workflow/src/run-report-batch.ts:425-451 | A candidate is ready exactly when it has enough rows, all completed, handled and without warnings, and some named step. |
| DefinitionTuning.AssertUniqueVocabulary | packages/uns-assistant-workflow/src/definition.ts:457-475 | Passes exactly when every id is in normal form and none occurs twice. |
| DefinitionTuning.FindIntent | packages/uns-assistant-workflow/src/definition-tuning.ts:510-516 | The first intent of an id; none exactly for the empty id or when no intent has it. |
| DefinitionTuning.FindRoute | packages/uns-assistant-workflow/src/definition-tuning.ts:526-532 | The first route of an id; none exactly for the empty id or when no route has it. |
| DefinitionTuning.JudgeNext | packages/uns-assistant-workflow/src/definition-tuning.ts:180-234 | The branches of the loop body give the verdict on a suggestion against the pending lists of its own intent or route; `TuningLaws.HintAppliedIff` and `TuningLaws.StrategyAppliedIff` say when that is to apply it. |
| DefinitionTuning.JudgeSuggestions | packages/uns-assistant-workflow/src/definition-tuning.ts:168-234 | The loop with its two maps lists the applied ids and the skipped ones with their reasons, and leaves as pending exactly what was applied for each intent and route. |
| DefinitionTuning.BuildIntentDiffs | packages/uns-assistant-workflow/src/definition-diff.ts:281-295 | The loop lists the changed intents that both definitions have. |
| DefinitionTuning.BuildRouteDiffs | packages/uns-assistant-workflow/src/definition-diff.ts:243-257 | The loop lists the changed routes that both definitions have. |
| DefinitionTuning.BuildDiff | packages/uns-assistant-workflow/src/definition-diff.ts:71-151 | The diff of two definitions in ids, intents and routes; `TuningLaws.DiffIsWhatWasApplied` says what it is for a tuned definition. |
| DefinitionTuning.ApplySuggestions | packages/uns-assistant-workflow/src/definition-tuning.ts:168-288 | The whole operation, which throws where the patched definition is refused and returns the same definition when nothing was applied. |
| TuningLaws.AppliedAndSkippedAddUp | packages/uns-assistant-workflow/src/definition-tuning.ts:281-287 | Applied and skipped suggestions add up to the input. |
| TuningLaws.HintAppliedIff | packages/uns-assistant-workflow/src/definition-tuning.ts:185-208 | A tool hint is applied exactly when it is selected, its intent exists and lacks the tool, no earlier suggestion added it and the limit is not reached. |
| TuningLaws.StrategyAppliedIff | packages/uns-assistant-workflow/src/definition-tuning.ts:210-230 | A strategy is applied exactly when it is selected, its route exists and lacks the id, and no earlier suggestion added that id to the route. |
| TuningLaws.SkippedBecause | packages/uns-assistant-workflow/src/definition-tuning.ts:180-234 | Which reason each skipped suggestion is given. |
| TuningLaws.OutcomeTells | packages/uns-assistant-workflow/src/definition-tuning.ts:236-288 | Something changed exactly if something was applied; the version then rises by one if wanted, required hints and earlier strategies stay, and every further strategy is an applied one with its description. |
| TuningLaws.PendingHintsAreNew | packages/uns-assistant-workflow/src/definition-tuning.ts:191-208 | The hints added to an intent are distinct, new to it and within the limit. |
| TuningLaws.PendingStrategiesAreNew | packages/uns-assistant-workflow/src/definition-tuning.ts:210-230 | The strategies added to a route have distinct ids that are new to it. |
| TuningLaws.DiffIsWhatWasApplied | packages/uns-assistant-workflow/src/definition-diff.ts:281-357 | The diff of the outcome lists exactly the applied non-empty tools and strategies, within the limit, and nothing as removed or otherwise added. |
| TuningLaws.ApplySucceedsIff | packages/uns-assistant-workflow/src/definition-tuning.ts:259-279 | On a valid definition, applying goes through exactly when every applied tool is known (or empty, or no tools are declared) and every applied strategy id is normal; the outcome is then valid. |
| TuningLaws.ReapplyIsIdleIff | packages/uns-assistant-workflow/src/definition-tuning.ts:168-288 | Applying the same suggestions again changes nothing exactly when the limit kept none out and no empty hint was dropped. |
| TuningLaws.LimitedIffTooMany | packages/uns-assistant-workflow/src/definition-tuning.ts:196-205 | The limit keeps some suggestion for an intent out exactly if more distinct selected tools than the limit are new to it. |
| TuningLaws.ReapplyIsIdleIffWithinLimit | packages/uns-assistant-workflow/src/definition-tuning.ts:168-288 | Read off the input: applying again changes nothing exactly if for every intent the distinct selected new tools are within the limit and no intent that gets a new tool is also suggested the empty one. |
| TuningLaws.UnlimitedReapplyIsIdle | packages/uns-assistant-workflow/src/definition-tuning.ts:168-288 | Without a limit and with every tool named, applying twice is applying once. |
| TuningLaws.LimitedReapplyIsNotIdle | packages/uns-assistant-workflow/src/definition-tuning.ts:202-205 | With a limit of one, a second pass adds the second of two tools. |
| TuningReport.ParsedAtFirstColon | packages/uns-assistant-workflow/src/definition-tuning.ts:550-558 | A signal is read as the trimmed texts before and after its first colon, and not at all without a colon or if one of them is empty. |
| TuningReport.ParsedSignal | packages/uns-assistant-workflow/src/definition-tuning.ts:550-558 | Whatever trimmed route without a colon and trimmed strategy are joined with a colon, they are read back as observed. |
| TuningReport.FindTool | packages/uns-assistant-workflow/src/definition-tuning.ts:518-524 | The first declared tool of that name; none exactly for the empty name or when no tool has it. |
| TuningReport.FindRouteByObservedRoute | packages/uns-assistant-workflow/src/definition-tuning.ts:534-540 | The first route with that id or outcome route; none exactly for the empty string or when no route has it. |
| TuningReport.HintIsSuggestedIff | packages/uns-assistant-workflow/src/definition-tuning.ts:313-362 | A tool is suggested as a hint exactly if a trace showed it unhinted for an existing, not ignored intent that lacks it, and it is declared and safe. |
| TuningReport.RegistrationIsSuggestedIff | packages/uns-assistant-workflow/src/definition-tuning.ts:313-366 | Registering a tool is suggested exactly if it was required, or selected for an existing, not ignored intent, and is not declared. |
| TuningReport.StrategyIsSuggestedIff | packages/uns-assistant-workflow/src/definition-tuning.ts:380-409 | A strategy is suggested exactly for a readable signal on the named or else the observed route, if that exists and lacks it. |
| TuningReport.ReportedSuggestionsKeepValidIff | packages/uns-assistant-workflow/src/definition-tuning.ts:259-279 | Applying suggestions of a report keeps a valid definition valid, and throws exactly when some selected strategy, for an existing route that lacks it, has an id that is not normal. |
| TuningReport.ReportedHintsKeepValid | packages/uns-assistant-workflow/src/definition-tuning.ts:313-362 | Tool-hint suggestions of a report always keep a valid definition valid. |
| TuningReport.UnnormalStrategyIsRefused | packages/uns-assistant-workflow/src/definition-tuning.ts:380-409 | A strategy observed on a route that lacks it is suggested as observed, and applying it throws exactly when it is not normal. |
| TuningReport.ObservedStrategyIsRefused | packages/uns-assistant-workflow/src/definition-tuning.ts:380-409 | A valid definition with one route, and any trimmed strategy that is not normal observed on it: the report suggests it and applying throws. |

## Left out

- `maxEntries` of the cache is an integer here; a fractional or NaN bound is not modelled.
- The default lifetimes of cached results: any function of arguments and clock is allowed, and any
  rule for which values are kept.
- Cache arguments that are functions, symbols, big integers or cyclic; numbers are kept as their JSON text, and
  `Date.parse` is a parameter.
- `ToolExecutor.ExecuteToolInvocationQueue`: durations, messages, outputs and arguments in results and events are
  not modelled; reason codes stand for messages. An invocation's tool is an oracle of index and attempt.
- `ExecutionBudget.Assess`: the limits on provider calls and evidence bytes; the modelled callers never report
  either, so neither is ever passed.
- `ToolInvocations.BuildQueue`: reasons, warnings and the assessment that the queue carries; and a queue built from
  a plan and a workflow with an invalid budget, which throws; building the plan of that workflow has thrown before.
- `createAssistantWorkflowToolProviderExecutor` and the summary by provider.
- `Planning.BuildPlan`: conditions of planning-step profiles are reduced to whether a profile is active; the summary
  lists of tool hints, the ids of active profiles and execution hints are left out.
- Execution plans: warnings as texts and the informational name lists.
- Lower-casing in `normalizeAssistantWorkflowId` is a parameter: what is used is that a normal id is its own
  normal form, trimmed and not empty; `localeCompare` is a parameter, assumed to order different names strictly.
- `RouteRegistration`: reading credentials, receipts and byte limits are steps that succeed or fail.
- `OperatorJwt`: decoding and verifying tokens, RSA keys and byte limits; documents are lists of key ids or
  failures.
- `RequestDrain`: apps without an ownership gate, responses the gate did not see, and the order of deferred
  metadata on the wire.
- `DefinitionTuning.Accepted` stands for all checks of `defineAssistantWorkflow`: those on parts that tuning never
  touches are one flag.
- `DefinitionTuning.BuildDiff`: fields of intents that tuning cannot touch, the vocabularies it cannot touch and
  planning-step diffs; lists of added names are sets.
- `DefinitionTuning.BuildIntentDiffs`: only tool hints and required tool hints, and not the sorting by id.
- `DefinitionTuning.BuildRouteDiffs`: not the sorting by id.
- Merging of equal report suggestions by id, their counts, severities and texts; a report is taken to be any list
  of mapped suggestions.
- `RunReportBatch.BuildCandidates`: the final sorting of candidates, and the review artifact built from them.
- Validators other than the one of step dependencies, catalogs, packages, replay, evaluation suites, promotion,
  memory policy, clarification and direct-route decisions: mostly field-by-field checks and short branch tables.
- Express, Swagger, MQTT and logging: plumbing over libraries that are not part of this model.
