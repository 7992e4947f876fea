/** Applying tuning suggestions to a workflow definition: which are applied, what the definition becomes, what
    its diff says, when the outcome is still a valid definition, and what applying them again does. */
module DefinitionTuning {
  import opened Wrappers
  import opened Planning

  // ----- Definitions -----

  datatype Effect = Read | Compute | Write
  datatype Risk = Low | Medium | High
  datatype Tool = Tool(name: string, requiresConfirmation: bool, effect: Effect, sideEffectRisk: Risk)
  datatype Intent = Intent(id: string, toolHints: seq<string>, requiredToolHints: seq<string>)
  datatype Strategy = Strategy(id: string, description: string)
  datatype Route = Route(id: string, outcomeRoute: Option<string>, strategies: seq<Strategy>)

  /** `restValid`: whether the parts of the definition that tuning never touches pass their own checks. */
  datatype Definition = Definition(version: int, intents: seq<Intent>, tools: seq<Tool>, routes: seq<Route>,
                                   restValid: bool)

  function IntentIds(intents: seq<Intent>): seq<string> {
    seq(|intents|, i requires 0 <= i < |intents| => intents[i].id)
  }

  function RouteIds(routes: seq<Route>): seq<string> {
    seq(|routes|, i requires 0 <= i < |routes| => routes[i].id)
  }

  function StrategyIds(strategies: seq<Strategy>): seq<string> {
    seq(|strategies|, i requires 0 <= i < |strategies| => strategies[i].id)
  }

  /** Every id is normal and none occurs twice. */
  predicate UniqueVocabulary(norm: Normalizer, ids: seq<string>) {
    (forall i :: 0 <= i < |ids| ==> norm(ids[i]) == Some(ids[i])) && Distinct(ids)
  }

  /** The loop of `assertUniqueVocabulary`; `ok` is false where it throws. */
  method AssertUniqueVocabulary(norm: Normalizer, ids: seq<string>) returns (ok: bool)
    ensures ok <==> UniqueVocabulary(norm, ids)
  {
    var seen: set<string> := {};
    for i := 0 to |ids|
      invariant UniqueVocabulary(norm, ids[..i])
      invariant forall id :: id in seen <==> id in ids[..i]
    {
      var normalized := norm(ids[i]);
      if normalized.None? || normalized.value != ids[i] {
        return false;
      }
      if normalized.value in seen {
        var j :| 0 <= j < i && ids[..i][j] == ids[i];
        assert ids[j] == ids[i];
        return false;
      }
      seen := seen + {normalized.value};
      assert ids[..i + 1] == ids[..i] + [ids[i]];
    }
    assert ids[..|ids|] == ids;
    return true;
  }

  predicate KnowsTool(tools: seq<Tool>, name: string) {
    exists i :: 0 <= i < |tools| && tools[i].name == name
  }

  predicate HintsAreKnown(d: Definition, intent: Intent) {
    d.tools != [] ==>
      && (forall i :: 0 <= i < |intent.toolHints| ==> KnowsTool(d.tools, intent.toolHints[i]))
      && (forall i :: 0 <= i < |intent.requiredToolHints| ==> KnowsTool(d.tools, intent.requiredToolHints[i]))
  }

  predicate RouteIsValid(norm: Normalizer, route: Route) {
    && (route.outcomeRoute.Some? ==> norm(route.outcomeRoute.value) == route.outcomeRoute)
    && UniqueVocabulary(norm, StrategyIds(route.strategies))
  }

  /** `defineAssistantWorkflow` returns instead of throwing. */
  predicate Accepted(norm: Normalizer, d: Definition) {
    && d.restValid && d.version >= 1 && d.intents != []
    && UniqueVocabulary(norm, IntentIds(d.intents))
    && UniqueVocabulary(norm, RouteIds(d.routes))
    && (forall i :: 0 <= i < |d.routes| ==> RouteIsValid(norm, d.routes[i]))
    && (forall i :: 0 <= i < |d.intents| ==> HintsAreKnown(d, d.intents[i]))
  }

  /** The first intent of that id; none for an empty id. */
  function FindIntent(intents: seq<Intent>, id: string): (r: Option<Intent>)
    ensures r.Some? ==> id != "" && exists i :: IsFirstIntent(intents, id, i) && intents[i] == r.value
    ensures r.None? <==> id == "" || forall i :: 0 <= i < |intents| ==> intents[i].id != id
  {
    if id == "" || intents == [] then None
    else
      var rest := FindIntent(intents[1..], id);
      FirstOfRest(intents, id);
      if intents[0].id == id then Some(intents[0]) else rest
  }

  ghost predicate IsFirstIntent(intents: seq<Intent>, id: string, i: int) {
    0 <= i < |intents| && intents[i].id == id && forall k :: 0 <= k < i ==> intents[k].id != id
  }

  lemma FirstOfRest(intents: seq<Intent>, id: string)
    requires intents != []
    ensures intents[0].id == id ==> IsFirstIntent(intents, id, 0)
    ensures intents[0].id != id ==> forall i :: IsFirstIntent(intents[1..], id, i) ==>
              IsFirstIntent(intents, id, i + 1) && intents[i + 1] == intents[1..][i]
    ensures forall i :: 0 <= i < |intents| ==> i == 0 || intents[i] == intents[1..][i - 1]
  {
  }

  /** The first route of that id; none for an empty id. */
  function FindRoute(routes: seq<Route>, id: string): (r: Option<Route>)
    ensures r.Some? ==> id != "" && exists i :: IsFirstRoute(routes, id, i) && routes[i] == r.value
    ensures r.None? <==> id == "" || forall i :: 0 <= i < |routes| ==> routes[i].id != id
  {
    if id == "" || routes == [] then None
    else
      var rest := FindRoute(routes[1..], id);
      FirstRouteOfRest(routes, id);
      if routes[0].id == id then Some(routes[0]) else rest
  }

  ghost predicate IsFirstRoute(routes: seq<Route>, id: string, i: int) {
    0 <= i < |routes| && routes[i].id == id && forall k :: 0 <= k < i ==> routes[k].id != id
  }

  lemma FirstRouteOfRest(routes: seq<Route>, id: string)
    requires routes != []
    ensures routes[0].id == id ==> IsFirstRoute(routes, id, 0)
    ensures routes[0].id != id ==> forall i :: IsFirstRoute(routes[1..], id, i) ==>
              IsFirstRoute(routes, id, i + 1) && routes[i + 1] == routes[1..][i]
    ensures forall i :: 0 <= i < |routes| ==> i == 0 || routes[i] == routes[1..][i - 1]
  {
  }

  predicate HasHint(intent: Intent, tool: string) {
    tool in intent.toolHints || tool in intent.requiredToolHints
  }

  predicate HasStrategy(strategies: seq<Strategy>, id: string) {
    exists i :: 0 <= i < |strategies| && strategies[i].id == id
  }

  // ----- Suggestions and their verdicts -----

  datatype Patch =
    | AppendHint(intentId: string, toolName: string)
    | AppendStrategy(routeId: string, strategyId: string, description: string)
    | RegisterTool(toolName: string)
    | NoPatch

  datatype Suggestion = Suggestion(id: string, patch: Patch)

  datatype SkipReason =
    | NotSelected
    | UnsupportedPatch
    | MissingIntent
    | MissingDirectRoute
    | ToolHintExists
    | DirectRouteStrategyExists
    | IntentApplyLimit

  datatype Verdict = Applied | Skipped(reason: SkipReason)

  datatype Options = Options(selectedIds: Option<set<string>>, bumpVersion: bool, maxToolHintsPerIntent: Option<int>)

  /** `normalizeOptionalPositiveInteger`. */
  function Limit(o: Options): Option<int> {
    match o.maxToolHintsPerIntent
    case None => None
    case Some(n) => Some(if n < 1 then 1 else n)
  }

  predicate Selected(o: Options, id: string) {
    o.selectedIds.None? || id in o.selectedIds.value
  }

  predicate LimitReached(o: Options, pending: nat) {
    Limit(o).Some? && pending >= Limit(o).value
  }

  /** The verdict on `s` when `hints` and `strategies` are already pending for its intent or route. */
  function Judge(d: Definition, o: Options, s: Suggestion, hints: seq<string>, strategies: seq<Strategy>): Verdict {
    if !Selected(o, s.id) then Skipped(NotSelected)
    else match s.patch
      case AppendHint(intentId, tool) =>
        var intent := FindIntent(d.intents, intentId);
        if intent.None? then Skipped(MissingIntent)
        else if HasHint(intent.value, tool) || tool in hints then Skipped(ToolHintExists)
        else if LimitReached(o, |hints|) then Skipped(IntentApplyLimit)
        else Applied
      case AppendStrategy(routeId, strategyId, _) =>
        var route := FindRoute(d.routes, routeId);
        if route.None? then Skipped(MissingDirectRoute)
        else if HasStrategy(route.value.strategies, strategyId) || HasStrategy(strategies, strategyId) then
          Skipped(DirectRouteStrategyExists)
        else Applied
      case _ => Skipped(UnsupportedPatch)
  }

  function Target(patch: Patch): string {
    match patch
    case AppendHint(intentId, _) => intentId
    case AppendStrategy(routeId, _, _) => routeId
    case _ => ""
  }

  /** The tools of the applied hint suggestions for an intent, in order. */
  function HintsOf(suggestions: seq<Suggestion>, verdicts: seq<Verdict>, intentId: string): seq<string>
    requires |suggestions| == |verdicts|
  {
    if suggestions == [] then []
    else
      var n := |suggestions| - 1;
      var earlier, patch := HintsOf(suggestions[..n], verdicts[..n], intentId), suggestions[n].patch;
      if verdicts[n].Applied? && patch.AppendHint? && patch.intentId == intentId then earlier + [patch.toolName]
        else earlier
  }

  function StrategiesOf(suggestions: seq<Suggestion>, verdicts: seq<Verdict>, routeId: string): seq<Strategy>
    requires |suggestions| == |verdicts|
  {
    if suggestions == [] then []
    else
      var n := |suggestions| - 1;
      var earlier, patch := StrategiesOf(suggestions[..n], verdicts[..n], routeId), suggestions[n].patch;
      if verdicts[n].Applied? && patch.AppendStrategy? && patch.routeId == routeId
      then earlier + [Strategy(patch.strategyId, patch.description)] else earlier
  }

  function Verdicts(d: Definition, o: Options, suggestions: seq<Suggestion>): (verdicts: seq<Verdict>)
    ensures |verdicts| == |suggestions|
  {
    if suggestions == [] then []
    else
      var n := |suggestions| - 1;
      var earlier, id := Verdicts(d, o, suggestions[..n]), Target(suggestions[n].patch);
      earlier + [Judge(d, o, suggestions[n], HintsOf(suggestions[..n], earlier, id),
                       StrategiesOf(suggestions[..n], earlier, id))]
  }

  function AppliedIds(suggestions: seq<Suggestion>, verdicts: seq<Verdict>): seq<string>
    requires |suggestions| == |verdicts|
  {
    if suggestions == [] then []
    else
      var n := |suggestions| - 1;
      AppliedIds(suggestions[..n], verdicts[..n]) + if verdicts[n].Applied? then [suggestions[n].id] else []
  }

  datatype SkippedSuggestion = SkippedSuggestion(id: string, reason: SkipReason)

  function SkippedOf(suggestions: seq<Suggestion>, verdicts: seq<Verdict>): seq<SkippedSuggestion>
    requires |suggestions| == |verdicts|
  {
    if suggestions == [] then []
    else
      var n := |suggestions| - 1;
      SkippedOf(suggestions[..n], verdicts[..n]) +
      if verdicts[n].Skipped? then [SkippedSuggestion(suggestions[n].id, verdicts[n].reason)] else []
  }

  // ----- The patched definition -----

  /** `uniqueStrings` of this file keeps a non-empty string as it is. */
  function NonEmpty(s: string): Option<string> {
    if s == "" then None else Some(s)
  }

  function UniqueHints(hints: seq<string>): seq<string> {
    UniqueNormal(NonEmpty, hints)
  }

  function PatchIntent(intent: Intent, hints: seq<string>): Intent {
    if hints == [] then intent else intent.(toolHints := UniqueHints(intent.toolHints + hints))
  }

  function PatchRoute(route: Route, strategies: seq<Strategy>): Route {
    if strategies == [] then route else route.(strategies := route.strategies + strategies)
  }

  function Patched(d: Definition, o: Options, suggestions: seq<Suggestion>): (p: Definition)
    ensures |p.intents| == |d.intents| && |p.routes| == |d.routes|
  {
    var verdicts := Verdicts(d, o, suggestions);
    d.(version := if o.bumpVersion then d.version + 1 else d.version,
       intents := seq(|d.intents|, i requires 0 <= i < |d.intents| =>
                        PatchIntent(d.intents[i], HintsOf(suggestions, verdicts, d.intents[i].id))),
       routes := seq(|d.routes|, i requires 0 <= i < |d.routes| =>
                       PatchRoute(d.routes[i], StrategiesOf(suggestions, verdicts, d.routes[i].id))))
  }

  // ----- Diffs -----

  /** The non-empty strings of `after` that `before` lacks; the source lists them sorted. */
  function DiffStrings(before: seq<string>, after: seq<string>): set<string> {
    set v | v in after && v != "" && v !in before
  }

  datatype IntentDiff = IntentDiff(intentId: string, addedToolHints: set<string>, removedToolHints: set<string>,
                                   addedRequiredToolHints: set<string>, removedRequiredToolHints: set<string>)
  {
    predicate Changed() {
      addedToolHints != {} || removedToolHints != {} || addedRequiredToolHints != {} || removedRequiredToolHints != {}
    }
  }

  datatype RouteDiff = RouteDiff(routeId: string, addedStrategyIds: set<string>, removedStrategyIds: set<string>)
  {
    predicate Changed() {
      addedStrategyIds != {} || removedStrategyIds != {}
    }
  }

  function DiffIntent(before: Intent, after: Intent): IntentDiff {
    IntentDiff(after.id, DiffStrings(before.toolHints, after.toolHints), DiffStrings(after.toolHints, before.toolHints),
               DiffStrings(before.requiredToolHints, after.requiredToolHints),
               DiffStrings(after.requiredToolHints, before.requiredToolHints))
  }

  function DiffRoute(before: Route, after: Route): RouteDiff {
    RouteDiff(after.id, DiffStrings(StrategyIds(before.strategies), StrategyIds(after.strategies)),
              DiffStrings(StrategyIds(after.strategies), StrategyIds(before.strategies)))
  }

  /** A `Map` built from a list: the last entry of an id counts. */
  function ById(intents: seq<Intent>): map<string, Intent> {
    if intents == [] then map[] else ById(intents[..|intents| - 1])[intents[|intents| - 1].id := intents[|intents| - 1]]
  }

  function RoutesById(routes: seq<Route>): map<string, Route> {
    if routes == [] then map[] else RoutesById(routes[..|routes| - 1])[routes[|routes| - 1].id := routes[|routes| - 1]]
  }

  function IntentDiffs(before: map<string, Intent>, after: seq<Intent>): seq<IntentDiff> {
    if after == [] then []
    else
      var last := after[|after| - 1];
      IntentDiffs(before, after[..|after| - 1]) +
      if last.id in before && DiffIntent(before[last.id], last).Changed() then [DiffIntent(before[last.id], last)]
        else []
  }

  function RouteDiffs(before: map<string, Route>, after: seq<Route>): seq<RouteDiff> {
    if after == [] then []
    else
      var last := after[|after| - 1];
      RouteDiffs(before, after[..|after| - 1]) +
      if last.id in before && DiffRoute(before[last.id], last).Changed() then [DiffRoute(before[last.id], last)] else []
  }

  datatype Diff = Diff(fromVersion: int, toVersion: int, addedIntentIds: set<string>, removedIntentIds: set<string>,
                       addedDirectRouteIds: set<string>, removedDirectRouteIds: set<string>,
                       intentDiffs: seq<IntentDiff>, directRouteDiffs: seq<RouteDiff>)

  function DiffOf(before: Definition, after: Definition): Diff {
    Diff(before.version, after.version,
         DiffStrings(IntentIds(before.intents), IntentIds(after.intents)),
         DiffStrings(IntentIds(after.intents), IntentIds(before.intents)),
         DiffStrings(RouteIds(before.routes), RouteIds(after.routes)),
         DiffStrings(RouteIds(after.routes), RouteIds(before.routes)),
         IntentDiffs(ById(before.intents), after.intents), RouteDiffs(RoutesById(before.routes), after.routes))
  }

  /** The loop of `buildIntentDiffs`. */
  method BuildIntentDiffs(before: seq<Intent>, after: seq<Intent>) returns (diffs: seq<IntentDiff>)
    ensures diffs == IntentDiffs(ById(before), after)
  {
    var beforeById: map<string, Intent> := map[];
    for i := 0 to |before|
      invariant beforeById == ById(before[..i])
    {
      assert before[..i + 1][..i] == before[..i];
      beforeById := beforeById[before[i].id := before[i]];
    }
    assert before[..|before|] == before;
    diffs := [];
    for i := 0 to |after|
      invariant diffs == IntentDiffs(beforeById, after[..i])
    {
      assert after[..i + 1][..i] == after[..i];
      if after[i].id in beforeById {
        var diff := DiffIntent(beforeById[after[i].id], after[i]);
        if diff.Changed() {
          diffs := diffs + [diff];
        }
      }
    }
    assert after[..|after|] == after;
  }

  /** The loop of `buildDirectRouteDiffs`. */
  method BuildRouteDiffs(before: seq<Route>, after: seq<Route>) returns (diffs: seq<RouteDiff>)
    ensures diffs == RouteDiffs(RoutesById(before), after)
  {
    var beforeById: map<string, Route> := map[];
    for i := 0 to |before|
      invariant beforeById == RoutesById(before[..i])
    {
      assert before[..i + 1][..i] == before[..i];
      beforeById := beforeById[before[i].id := before[i]];
    }
    assert before[..|before|] == before;
    diffs := [];
    for i := 0 to |after|
      invariant diffs == RouteDiffs(beforeById, after[..i])
    {
      assert after[..i + 1][..i] == after[..i];
      if after[i].id in beforeById {
        var diff := DiffRoute(beforeById[after[i].id], after[i]);
        if diff.Changed() {
          diffs := diffs + [diff];
        }
      }
    }
    assert after[..|after|] == after;
  }

  /** `buildAssistantWorkflowDefinitionDiff`, on the parts that tuning can touch. */
  method BuildDiff(before: Definition, after: Definition) returns (diff: Diff)
    ensures diff == DiffOf(before, after)
  {
    var intentDiffs := BuildIntentDiffs(before.intents, after.intents);
    var directRouteDiffs := BuildRouteDiffs(before.routes, after.routes);
    diff := Diff(before.version, after.version,
                 DiffStrings(IntentIds(before.intents), IntentIds(after.intents)),
                 DiffStrings(IntentIds(after.intents), IntentIds(before.intents)),
                 DiffStrings(RouteIds(before.routes), RouteIds(after.routes)),
                 DiffStrings(RouteIds(after.routes), RouteIds(before.routes)),
                 intentDiffs, directRouteDiffs);
  }

  // ----- Applying -----

  datatype ApplyResult = ApplyResult(changed: bool, appliedIds: seq<string>, skipped: seq<SkippedSuggestion>,
                                     diff: Diff, definition: Definition)

  /** The outcome, or `None` where defining the patched workflow throws. */
  function Apply(norm: Normalizer, d: Definition, suggestions: seq<Suggestion>, o: Options): Option<ApplyResult> {
    var verdicts := Verdicts(d, o, suggestions);
    var applied, skipped := AppliedIds(suggestions, verdicts), SkippedOf(suggestions, verdicts);
    if applied == [] then Some(ApplyResult(false, applied, skipped, DiffOf(d, d), d))
    else
      var patched := Patched(d, o, suggestions);
      if !Accepted(norm, patched) then None
      else Some(ApplyResult(true, applied, skipped, DiffOf(d, patched), patched))
  }

  function Pending<T>(pending: map<string, seq<T>>, id: string): seq<T> {
    if id in pending then pending[id] else []
  }

  /** The pending lists the loop has built are those of the suggestions applied so far. */
  ghost predicate PendingIs(suggestions: seq<Suggestion>, verdicts: seq<Verdict>, hints: map<string, seq<string>>,
                            strategies: map<string, seq<Strategy>>)
    requires |suggestions| == |verdicts|
  {
    && (forall id :: Pending(hints, id) == HintsOf(suggestions, verdicts, id))
    && (forall id :: Pending(strategies, id) == StrategiesOf(suggestions, verdicts, id))
  }

  function HintsAfter(hints: map<string, seq<string>>, s: Suggestion, v: Verdict): map<string, seq<string>> {
    if v.Applied? && s.patch.AppendHint?
    then hints[s.patch.intentId := Pending(hints, s.patch.intentId) + [s.patch.toolName]] else hints
  }

  function StrategiesAfter(strategies: map<string, seq<Strategy>>, s: Suggestion,
                           v: Verdict): map<string, seq<Strategy>>
  {
    if v.Applied? && s.patch.AppendStrategy?
    then strategies[s.patch.routeId := Pending(strategies, s.patch.routeId)
                    + [Strategy(s.patch.strategyId, s.patch.description)]]
    else strategies
  }

  lemma PendingAfter(suggestions: seq<Suggestion>, verdicts: seq<Verdict>, hints: map<string, seq<string>>,
                     strategies: map<string, seq<Strategy>>, s: Suggestion, v: Verdict)
    requires |suggestions| == |verdicts| && PendingIs(suggestions, verdicts, hints, strategies)
    ensures PendingIs(suggestions + [s], verdicts + [v], HintsAfter(hints, s, v), StrategiesAfter(strategies, s, v))
  {
    assert (suggestions + [s])[..|suggestions|] == suggestions && (verdicts + [v])[..|verdicts|] == verdicts;
    forall id
      ensures Pending(HintsAfter(hints, s, v), id) == HintsOf(suggestions + [s], verdicts + [v], id)
    {
      assert Pending(hints, id) == HintsOf(suggestions, verdicts, id);
    }
    forall id
      ensures Pending(StrategiesAfter(strategies, s, v), id) == StrategiesOf(suggestions + [s], verdicts + [v], id)
    {
      assert Pending(strategies, id) == StrategiesOf(suggestions, verdicts, id);
    }
  }

  lemma VerdictsAfter(d: Definition, o: Options, suggestions: seq<Suggestion>, s: Suggestion, v: Verdict)
    requires v == Judge(d, o, s, HintsOf(suggestions, Verdicts(d, o, suggestions), Target(s.patch)),
                        StrategiesOf(suggestions, Verdicts(d, o, suggestions), Target(s.patch)))
    ensures Verdicts(d, o, suggestions + [s]) == Verdicts(d, o, suggestions) + [v]
    ensures AppliedIds(suggestions + [s], Verdicts(d, o, suggestions) + [v]) ==
            AppliedIds(suggestions, Verdicts(d, o, suggestions)) + if v.Applied? then [s.id] else []
    ensures SkippedOf(suggestions + [s], Verdicts(d, o, suggestions) + [v]) ==
            SkippedOf(suggestions, Verdicts(d, o, suggestions)) + if v.Skipped?
              then [SkippedSuggestion(s.id, v.reason)] else []
  {
    hide Judge;
    assert (suggestions + [s])[..|suggestions|] == suggestions;
    assert (Verdicts(d, o, suggestions) + [v])[..|suggestions|] == Verdicts(d, o, suggestions);
  }

  /** The branches of the loop body, on the pending lists of the two maps. */
  method JudgeNext(d: Definition, o: Options, s: Suggestion, hintsByIntent: map<string, seq<string>>,
                   strategiesByRoute: map<string, seq<Strategy>>) returns (verdict: Verdict)
    ensures verdict == Judge(d, o, s, Pending(hintsByIntent, Target(s.patch)),
                             Pending(strategiesByRoute, Target(s.patch)))
  {
    hide HasHint, HasStrategy, Limit;
    if o.selectedIds.Some? && s.id !in o.selectedIds.value {
      return Skipped(NotSelected);
    }
    if s.patch.AppendHint? {
      var intent := FindIntent(d.intents, s.patch.intentId);
      if intent.None? {
        return Skipped(MissingIntent);
      }
      if HasHint(intent.value, s.patch.toolName) {
        return Skipped(ToolHintExists);
      }
      var pendingHints := Pending(hintsByIntent, intent.value.id);
      if s.patch.toolName in pendingHints {
        return Skipped(ToolHintExists);
      }
      if Limit(o).Some? && |pendingHints| >= Limit(o).value {
        return Skipped(IntentApplyLimit);
      }
      return Applied;
    }
    if s.patch.AppendStrategy? {
      var route := FindRoute(d.routes, s.patch.routeId);
      if route.None? {
        return Skipped(MissingDirectRoute);
      }
      if HasStrategy(route.value.strategies, s.patch.strategyId) {
        return Skipped(DirectRouteStrategyExists);
      }
      if HasStrategy(Pending(strategiesByRoute, route.value.id), s.patch.strategyId) {
        return Skipped(DirectRouteStrategyExists);
      }
      return Applied;
    }
    return Skipped(UnsupportedPatch);
  }

  /** The loop of `applyAssistantWorkflowDefinitionTuningSuggestions`, with its two maps of pending lists. */
  method JudgeSuggestions(d: Definition, suggestions: seq<Suggestion>, o: Options)
    returns (appliedIds: seq<string>, skipped: seq<SkippedSuggestion>,
             hintsByIntent: map<string, seq<string>>, strategiesByRoute: map<string, seq<Strategy>>)
    ensures appliedIds == AppliedIds(suggestions, Verdicts(d, o, suggestions))
    ensures skipped == SkippedOf(suggestions, Verdicts(d, o, suggestions))
    ensures PendingIs(suggestions, Verdicts(d, o, suggestions), hintsByIntent, strategiesByRoute)
  {
    hide Judge;
    appliedIds, skipped, hintsByIntent, strategiesByRoute := [], [], map[], map[];
    for i := 0 to |suggestions|
      invariant appliedIds == AppliedIds(suggestions[..i], Verdicts(d, o, suggestions[..i]))
      invariant skipped == SkippedOf(suggestions[..i], Verdicts(d, o, suggestions[..i]))
      invariant PendingIs(suggestions[..i], Verdicts(d, o, suggestions[..i]), hintsByIntent, strategiesByRoute)
    {
      var s := suggestions[i];
      var verdict := JudgeNext(d, o, s, hintsByIntent, strategiesByRoute);
      VerdictsAfter(d, o, suggestions[..i], s, verdict);
      PendingAfter(suggestions[..i], Verdicts(d, o, suggestions[..i]), hintsByIntent, strategiesByRoute, s, verdict);
      assert suggestions[..i + 1] == suggestions[..i] + [s];
      hide AppliedIds, SkippedOf, PendingIs, Verdicts;
      if verdict.Skipped? {
        skipped := skipped + [SkippedSuggestion(s.id, verdict.reason)];
        continue;
      }
      if s.patch.AppendHint? {
        hintsByIntent := hintsByIntent[s.patch.intentId := Pending(hintsByIntent, s.patch.intentId)
                                       + [s.patch.toolName]];
      } else if s.patch.AppendStrategy? {
        var strategy := Strategy(s.patch.strategyId, s.patch.description);
        strategiesByRoute := strategiesByRoute[s.patch.routeId := Pending(strategiesByRoute, s.patch.routeId)
                                               + [strategy]];
      }
      appliedIds := appliedIds + [s.id];
    }
    assert suggestions[..|suggestions|] == suggestions;
  }

  /** `applyAssistantWorkflowDefinitionTuningSuggestions`; `None` where it throws. */
  method ApplySuggestions(norm: Normalizer, d: Definition, suggestions: seq<Suggestion>, o: Options)
    returns (result: Option<ApplyResult>)
    ensures result == Apply(norm, d, suggestions, o)
  {
    hide Accepted, Verdicts, IntentIds, RouteIds, ById, RoutesById, IntentDiffs, RouteDiffs, DiffStrings;
    var appliedIds, skipped, hintsByIntent, strategiesByRoute := JudgeSuggestions(d, suggestions, o);
    if appliedIds == [] {
      var diff := BuildDiff(d, d);
      return Some(ApplyResult(false, appliedIds, skipped, diff, d));
    }
    var definition := d.(
      version := if o.bumpVersion then d.version + 1 else d.version,
      intents := seq(|d.intents|,
                     i requires 0 <= i < |d.intents| => PatchIntent(d.intents[i],
                                                                    Pending(hintsByIntent, d.intents[i].id))),
      routes := seq(|d.routes|,
                    i requires 0 <= i < |d.routes| => PatchRoute(d.routes[i],
                                                                 Pending(strategiesByRoute, d.routes[i].id))));
    assert definition.intents == Patched(d, o, suggestions).intents;
    assert definition.routes == Patched(d, o, suggestions).routes;
    if !Accepted(norm, definition) {
      return None;
    }
    var diff := BuildDiff(d, definition);
    return Some(ApplyResult(true, appliedIds, skipped, diff, definition));
  }
}
