/** From trace-report suggestions to patches, and what applying such patches does to a valid definition. */
module TuningReport {
  import opened Wrappers
  import opened Planning
  import opened DefinitionTuning
  import opened TuningLaws
  import Texts

  datatype Kind =
    | ReviewUnmodeledSelectedTool
    | ReviewClassifierExtraTool
    | ReviewMissingRequiredTool
    | ReviewWorkflowToolSelectionGap
    | ReviewClarificationPolicy
    | ReviewMemoryPatchEquivalence
    | ReviewDirectRouteStrategy
    | ReviewTraceError
    | ReviewQualitySignal
    | PromoteBadFeedbackEval

  datatype TraceSuggestion = TraceSuggestion(kind: Kind, intent: Option<string>, tool: Option<string>,
                                             signal: Option<string>)

  function Given(s: Option<string>): string {
    match s case None => "" case Some(value) => value
  }

  /** The first tool of that name; none for an empty name. */
  function FindTool(tools: seq<Tool>, name: string): (r: Option<Tool>)
    ensures r.Some? ==> name != "" && exists i :: IsFirstTool(tools, name, i) && tools[i] == r.value
    ensures r.None? <==> name == "" || forall i :: 0 <= i < |tools| ==> tools[i].name != name
  {
    if name == "" || tools == [] then None
    else
      var rest := FindTool(tools[1..], name);
      FirstToolOfRest(tools, name);
      if tools[0].name == name then Some(tools[0]) else rest
  }

  ghost predicate IsFirstTool(tools: seq<Tool>, name: string, i: int) {
    0 <= i < |tools| && tools[i].name == name && forall k :: 0 <= k < i ==> tools[k].name != name
  }

  lemma FirstToolOfRest(tools: seq<Tool>, name: string)
    requires tools != []
    ensures tools[0].name == name ==> IsFirstTool(tools, name, 0)
    ensures tools[0].name != name ==> forall i :: IsFirstTool(tools[1..], name, i) ==>
              IsFirstTool(tools, name, i + 1) && tools[i + 1] == tools[1..][i]
    ensures forall i :: 0 <= i < |tools| ==> i == 0 || tools[i] == tools[1..][i - 1]
  {
  }

  predicate IsObserved(route: Route, observed: string) {
    route.id == observed || route.outcomeRoute == Some(observed)
  }

  /** The first route with that id or outcome route; none for an empty name. */
  function FindRouteByObservedRoute(routes: seq<Route>, observed: string): (r: Option<Route>)
    ensures r.Some? ==> observed != "" && exists i :: IsFirstObserved(routes, observed, i) && routes[i] == r.value
    ensures r.None? <==> observed == "" || forall i :: 0 <= i < |routes| ==> !IsObserved(routes[i], observed)
  {
    if observed == "" || routes == [] then None
    else
      var rest := FindRouteByObservedRoute(routes[1..], observed);
      FirstObservedOfRest(routes, observed);
      if IsObserved(routes[0], observed) then Some(routes[0]) else rest
  }

  ghost predicate IsFirstObserved(routes: seq<Route>, observed: string, i: int) {
    0 <= i < |routes| && IsObserved(routes[i], observed) && forall k :: 0 <= k < i ==> !IsObserved(routes[k], observed)
  }

  lemma FirstObservedOfRest(routes: seq<Route>, observed: string)
    requires routes != []
    ensures IsObserved(routes[0], observed) ==> IsFirstObserved(routes, observed, 0)
    ensures !IsObserved(routes[0], observed) ==> forall i :: IsFirstObserved(routes[1..], observed, i) ==>
              IsFirstObserved(routes, observed, i + 1) && routes[i + 1] == routes[1..][i]
    ensures forall i :: 0 <= i < |routes| ==> i == 0 || routes[i] == routes[1..][i - 1]
  {
  }

  /** `indexOf(":")`. */
  function IndexOfColon(s: string): (i: int)
    ensures -1 <= i < |s|
    ensures i == -1 <==> ':' !in s
    ensures i >= 0 ==> s[i] == ':' && ':' !in s[..i]
  {
    if s == "" then -1
    else if s[0] == ':' then 0
    else
      var i := IndexOfColon(s[1..]);
      assert s == [s[0]] + s[1..];
      assert i >= 0 ==> s[..i + 1] == [s[0]] + s[1..][..i];
      if i == -1 then -1 else i + 1
  }

  datatype Observed = Observed(route: string, strategy: string)

  /** `parseDirectRouteStrategySignal`. */
  function ParseSignal(signal: string): (r: Option<Observed>)
    ensures r.Some? ==> r.value.route != "" && r.value.strategy != ""
  {
    var i := IndexOfColon(signal);
    if i <= 0 || i >= |signal| - 1 then None
    else
      var route, strategy := Texts.Trim(signal[..i]), Texts.Trim(signal[i + 1..]);
      if route == "" || strategy == "" then None else Some(Observed(route, strategy))
  }

  /** A signal is read as what stands before its first colon and what stands after it, both trimmed; it is not
      read at all if there is no colon or nothing of one of them. */
  lemma ParsedAtFirstColon(signal: string, before: string, after: string)
    ensures ':' !in signal ==> ParseSignal(signal) == None
    ensures signal == before + ":" + after && ':' !in before ==>
              ParseSignal(signal) == if Texts.Trim(before) == "" || Texts.Trim(after) == "" then None
                                     else Some(Observed(Texts.Trim(before), Texts.Trim(after)))
  {
    hide Texts.TrimStart, Texts.TrimEnd;
    assert Texts.Trim("") == "" by {
      Texts.TrimmedIff("");
    }
    hide Texts.Trim;
    if signal == before + ":" + after && ':' !in before {
      var i := IndexOfColon(signal);
      assert signal[|before|] == ':';
      assert i <= |before|;
      assert forall k :: 0 <= k < |before| ==> signal[k] == before[k];
      assert i == |before|;
      assert signal[..i] == before && signal[i + 1..] == after;
    }
  }

  function MapStrategy(d: Definition, t: TraceSuggestion, describe: (string, string) -> string): Patch {
    var parsed := ParseSignal(Given(t.signal));
    var named := FindRoute(d.routes, Given(t.intent));
    var route := if named.Some? then named
                 else FindRouteByObservedRoute(d.routes, if parsed.Some? then parsed.value.route else "");
    if route.None? || parsed.None? || HasStrategy(route.value.strategies, parsed.value.strategy) then NoPatch
    else AppendStrategy(route.value.id, parsed.value.strategy, describe(parsed.value.strategy, route.value.id))
  }

  /** The patch of `mapTraceSuggestionToDefinitionSuggestion`; `NoPatch` is a suggestion for review only, `None`
      no suggestion. The wording of descriptions is a parameter. */
  function MapTrace(d: Definition, t: TraceSuggestion, includeLowConfidence: bool, ignored: set<string>,
                    describe: (string, string) -> string): Option<Patch>
  {
    var intent, tool := FindIntent(d.intents, Given(t.intent)), FindTool(d.tools, Given(t.tool));
    match t.kind
    case ReviewUnmodeledSelectedTool | ReviewClassifierExtraTool =>
      if Given(t.intent) == "" || Given(t.tool) == "" then None
      else if intent.None? || Given(t.intent) in ignored then Some(NoPatch)
      else if tool.None? then Some(RegisterTool(Given(t.tool)))
      else if HasHint(intent.value, Given(t.tool)) then if includeLowConfidence then Some(NoPatch) else None
      else if tool.value.requiresConfirmation || tool.value.effect == Write || tool.value.sideEffectRisk == High
        then Some(NoPatch)
      else Some(AppendHint(Given(t.intent), Given(t.tool)))
    case ReviewMissingRequiredTool =>
      if Given(t.tool) == "" then None else if tool.None? then Some(RegisterTool(Given(t.tool))) else Some(NoPatch)
    case ReviewWorkflowToolSelectionGap => if includeLowConfidence then Some(NoPatch) else None
    case ReviewDirectRouteStrategy => Some(MapStrategy(d, t, describe))
    case _ => Some(NoPatch)
  }

  /** Suggested hints name an existing intent that is not ignored and a declared tool that is safe to add;
      suggested strategies name an existing route that lacks them. */
  lemma MappedPatchIsNew(d: Definition, t: TraceSuggestion, includeLowConfidence: bool, ignored: set<string>,
                         describe: (string, string) -> string)
    requires MapTrace(d, t, includeLowConfidence, ignored, describe).Some?
    ensures match MapTrace(d, t, includeLowConfidence, ignored, describe).value
            case AppendHint(intentId, toolName) =>
              && intentId !in ignored && toolName != ""
              && FindIntent(d.intents, intentId).Some? && !HasHint(FindIntent(d.intents, intentId).value, toolName)
              && (exists tool :: tool in d.tools && tool.name == toolName && !tool.requiresConfirmation
                                 && tool.effect != Write && tool.sideEffectRisk != High)
            case AppendStrategy(routeId, strategyId, _) =>
              && strategyId != ""
              && exists route :: route in d.routes && route.id == routeId && !HasStrategy(route.strategies, strategyId)
            case _ => true
  {
    hide HasHint, HasStrategy, ParseSignal;
    var tool := FindTool(d.tools, Given(t.tool));
    assert tool.Some? ==> tool.value in d.tools;
  }

  lemma StrategyIsNoTool(d: Definition, t: TraceSuggestion, describe: (string, string) -> string)
    ensures MapStrategy(d, t, describe).NoPatch? || MapStrategy(d, t, describe).AppendStrategy?
  {
    hide HasStrategy, ParseSignal, FindRoute, FindRouteByObservedRoute;
  }

  /** A tool is suggested as a hint exactly when a trace showed it unhinted, for an intent that exists and is not
      ignored and that lacks it, and it is declared, needs no confirmation, does not write and is not of high risk. */
  lemma HintIsSuggestedIff(d: Definition, t: TraceSuggestion, includeLowConfidence: bool, ignored: set<string>,
                           describe: (string, string) -> string, intentId: string, tool: string)
    ensures MapTrace(d, t, includeLowConfidence, ignored, describe) == Some(AppendHint(intentId, tool)) <==>
            && t.kind in {ReviewUnmodeledSelectedTool, ReviewClassifierExtraTool}
            && t.intent == Some(intentId) && t.tool == Some(tool) && intentId !in ignored
            && FindIntent(d.intents, intentId).Some? && !HasHint(FindIntent(d.intents, intentId).value, tool)
            && FindTool(d.tools, tool).Some? && IsSafe(FindTool(d.tools, tool).value)
  {
    hide HasHint, MapStrategy, FindTool, FindIntent;
    StrategyIsNoTool(d, t, describe);
  }

  predicate IsSafe(tool: Tool) {
    !tool.requiresConfirmation && tool.effect != Write && tool.sideEffectRisk != High
  }

  /** A tool is suggested for registration exactly when it was selected for a known intent, or required, and is not
      declared. */
  lemma RegistrationIsSuggestedIff(d: Definition, t: TraceSuggestion, includeLowConfidence: bool, ignored: set<string>,
                                   describe: (string, string) -> string, tool: string)
    ensures MapTrace(d, t, includeLowConfidence, ignored, describe) == Some(RegisterTool(tool)) <==>
            && t.tool == Some(tool) && tool != "" && FindTool(d.tools, tool).None?
            && (t.kind == ReviewMissingRequiredTool
                || (t.kind in {ReviewUnmodeledSelectedTool, ReviewClassifierExtraTool}
                    && t.intent.Some? && t.intent.value !in ignored && FindIntent(d.intents, t.intent.value).Some?))
  {
    hide HasHint, MapStrategy, FindTool, FindIntent;
    StrategyIsNoTool(d, t, describe);
  }

  /** A strategy is suggested exactly for a direct-route signal that can be read, for the named route or else the one
      observed, if that exists and lacks the strategy. */
  lemma StrategyIsSuggestedIff(d: Definition, t: TraceSuggestion, includeLowConfidence: bool, ignored: set<string>,
                               describe: (string, string) -> string)
    ensures var patch, parsed := MapTrace(d, t, includeLowConfidence, ignored, describe), ParseSignal(Given(t.signal));
            var named := FindRoute(d.routes, Given(t.intent));
            var route := if named.Some? || parsed.None? then named
                         else FindRouteByObservedRoute(d.routes, parsed.value.route);
            var isNew := t.kind.ReviewDirectRouteStrategy? && parsed.Some? && route.Some?
                         && !HasStrategy(route.value.strategies, parsed.value.strategy);
            && (patch.Some? && patch.value.AppendStrategy? <==> isNew)
            && (isNew ==> patch == Some(AppendStrategy(route.value.id, parsed.value.strategy,
                                                       describe(parsed.value.strategy, route.value.id))))
  {
    hide HasHint, HasStrategy, ParseSignal, FindRoute, FindRouteByObservedRoute, FindTool, FindIntent;
  }

  /** Nothing is suggested exactly when a name is missing, or when all there is to say is of low confidence and such
      suggestions are not wanted. */
  lemma NothingIsSuggestedIff(d: Definition, t: TraceSuggestion, includeLowConfidence: bool, ignored: set<string>,
                              describe: (string, string) -> string)
    ensures MapTrace(d, t, includeLowConfidence, ignored, describe) == None <==>
            || (t.kind in {ReviewUnmodeledSelectedTool, ReviewClassifierExtraTool}
                && (Given(t.intent) == "" || Given(t.tool) == ""
                    || (&& !includeLowConfidence && Given(t.intent) !in ignored
                        && FindIntent(d.intents, Given(t.intent)).Some? && FindTool(d.tools, Given(t.tool)).Some?
                        && HasHint(FindIntent(d.intents, Given(t.intent)).value, Given(t.tool)))))
            || (t.kind == ReviewMissingRequiredTool && Given(t.tool) == "")
            || (t.kind == ReviewWorkflowToolSelectionGap && !includeLowConfidence)
  {
    hide HasHint, HasStrategy, ParseSignal, FindRoute, FindRouteByObservedRoute, FindTool, FindIntent;
  }

  ghost predicate ComesFromReport(d: Definition, patch: Patch) {
    exists t, low, ignored, describe :: MapTrace(d, t, low, ignored, describe) == Some(patch)
  }

  ghost predicate AllComeFromReport(d: Definition, suggestions: seq<Suggestion>) {
    forall j :: 0 <= j < |suggestions| ==> ComesFromReport(d, suggestions[j].patch)
  }

  ghost predicate AppliedStrategiesAreNormal(norm: Normalizer, suggestions: seq<Suggestion>, v: seq<Verdict>) {
    forall j | 0 <= j < |suggestions| == |v| && v[j].Applied? && suggestions[j].patch.AppendStrategy? ::
      norm(suggestions[j].patch.strategyId) == Some(suggestions[j].patch.strategyId)
  }

  lemma ReportedHintIsKnown(norm: Normalizer, d: Definition, patch: Patch)
    requires ComesFromReport(d, patch)
    ensures patch.AppendHint? ==> patch.toolName != "" && Acceptable(norm, d.tools, patch)
    ensures patch.RegisterTool? || patch.NoPatch? ==> Acceptable(norm, d.tools, patch)
  {
    var t, low, ignored, describe :| MapTrace(d, t, low, ignored, describe) == Some(patch);
    MappedPatchIsNew(d, t, low, ignored, describe);
    hide MapTrace, HasHint, HasStrategy, FindIntent;
    if patch.AppendHint? {
      var tool :| tool in d.tools && tool.name == patch.toolName;
      var i :| 0 <= i < |d.tools| && d.tools[i] == tool;
    }
  }

  /** The suggestion is selected and proposes a strategy for an existing route that lacks it. */
  predicate SelectsNewStrategy(d: Definition, o: Options, s: Suggestion) {
    && s.patch.AppendStrategy? && Selected(o, s.id)
    && var route := FindRoute(d.routes, s.patch.routeId);
       route.Some? && !HasStrategy(route.value.strategies, s.patch.strategyId)
  }

  ghost predicate NewStrategiesAreNormal(norm: Normalizer, d: Definition, o: Options, suggestions: seq<Suggestion>) {
    forall j | 0 <= j < |suggestions| && SelectsNewStrategy(d, o, suggestions[j]) ::
      norm(suggestions[j].patch.strategyId) == Some(suggestions[j].patch.strategyId)
  }

  /** A new strategy is applied, unless an earlier suggestion applied one of the same id. */
  lemma NewStrategyIsApplied(d: Definition, o: Options, suggestions: seq<Suggestion>, j: nat) returns (i: nat)
    requires j < |suggestions| && SelectsNewStrategy(d, o, suggestions[j])
    ensures i <= j && Verdicts(d, o, suggestions)[i].Applied? && suggestions[i].patch.AppendStrategy?
    ensures suggestions[i].patch.strategyId == suggestions[j].patch.strategyId
  {
    var v, patch := Verdicts(d, o, suggestions), suggestions[j].patch;
    StrategyAppliedIff(d, o, suggestions, j);
    hide FindRoute, Verdicts, Selected, HasStrategy;
    if v[j].Applied? {
      i := j;
    } else {
      i :| 0 <= i < j && AppliesStrategyId(suggestions, v, i, patch.routeId, patch.strategyId);
    }
  }

  lemma AppliedStrategyIsNew(d: Definition, o: Options, suggestions: seq<Suggestion>, j: nat)
    requires j < |suggestions| && Verdicts(d, o, suggestions)[j].Applied? && suggestions[j].patch.AppendStrategy?
    ensures SelectsNewStrategy(d, o, suggestions[j])
  {
    StrategyAppliedIff(d, o, suggestions, j);
    hide FindRoute, Verdicts, Selected, HasStrategy;
  }

  lemma AppliedAreNormalIff(norm: Normalizer, d: Definition, o: Options, suggestions: seq<Suggestion>)
    ensures AppliedStrategiesAreNormal(norm, suggestions, Verdicts(d, o, suggestions)) <==>
            NewStrategiesAreNormal(norm, d, o, suggestions)
  {
    var v := Verdicts(d, o, suggestions);
    hide Verdicts, FindRoute, HasStrategy, Selected;
    if AppliedStrategiesAreNormal(norm, suggestions, v) {
      forall j | 0 <= j < |suggestions| && SelectsNewStrategy(d, o, suggestions[j])
        ensures norm(suggestions[j].patch.strategyId) == Some(suggestions[j].patch.strategyId)
      {
        var i := NewStrategyIsApplied(d, o, suggestions, j);
      }
    }
    if NewStrategiesAreNormal(norm, d, o, suggestions) {
      forall j | 0 <= j < |suggestions| && v[j].Applied? && suggestions[j].patch.AppendStrategy?
        ensures norm(suggestions[j].patch.strategyId) == Some(suggestions[j].patch.strategyId)
      {
        AppliedStrategyIsNew(d, o, suggestions, j);
      }
    }
  }

  /** Applying suggestions of a report keeps a valid definition valid, except that a suggested strategy is taken
      from the trace as it stands: defining the workflow throws exactly when some selected strategy that its
      route lacks is not in normal form. */
  lemma ReportedSuggestionsKeepValidIff(norm: Normalizer, d: Definition, suggestions: seq<Suggestion>, o: Options)
    requires Accepted(norm, d) && AllComeFromReport(d, suggestions)
    ensures var result := Apply(norm, d, suggestions, o);
            && (result.Some? <==> NewStrategiesAreNormal(norm, d, o, suggestions))
            && (result.Some? ==> Accepted(norm, result.value.definition))
  {
    hide *;
    AppliedAreNormalIff(norm, d, o, suggestions);
    ReportedAreAcceptableIff(norm, d, suggestions, o);
    ApplySucceedsIff(norm, d, suggestions, o);
  }

  lemma ReportedAreAcceptableIff(norm: Normalizer, d: Definition, suggestions: seq<Suggestion>, o: Options)
    requires AllComeFromReport(d, suggestions)
    ensures var v := Verdicts(d, o, suggestions);
            AllAcceptable(norm, d.tools, suggestions, v) <==> AppliedStrategiesAreNormal(norm, suggestions, v)
  {
    var v := Verdicts(d, o, suggestions);
    hide Verdicts, MapTrace, ComesFromReport, KnowsTool;
    if AppliedStrategiesAreNormal(norm, suggestions, v) {
      forall j | 0 <= j < |suggestions| && v[j].Applied?
        ensures Acceptable(norm, d.tools, suggestions[j].patch)
      {
        ReportedHintIsKnown(norm, d, suggestions[j].patch);
      }
    }
    if AllAcceptable(norm, d.tools, suggestions, v) {
      forall j | 0 <= j < |suggestions| && v[j].Applied? && suggestions[j].patch.AppendStrategy?
        ensures norm(suggestions[j].patch.strategyId) == Some(suggestions[j].patch.strategyId)
      {
        assert Acceptable(norm, d.tools, suggestions[j].patch);
      }
    }
  }

  /** Tool-hint suggestions of a report always keep a valid definition valid. */
  lemma ReportedHintsKeepValid(norm: Normalizer, d: Definition, suggestions: seq<Suggestion>, o: Options)
    requires Accepted(norm, d) && AllComeFromReport(d, suggestions)
    requires forall j :: 0 <= j < |suggestions| ==> !suggestions[j].patch.AppendStrategy?
    ensures var result := Apply(norm, d, suggestions, o);
            result.Some? && Accepted(norm, result.value.definition)
  {
    hide Accepted, Apply, Verdicts, AllComeFromReport;
    ReportedSuggestionsKeepValidIff(norm, d, suggestions, o);
  }

  /** A strategy observed on a declared route that lacks it is suggested as it was observed, and when it is not
      in normal form, applying that suggestion throws. */
  lemma UnnormalStrategyIsRefused(norm: Normalizer, d: Definition, o: Options, t: TraceSuggestion, id: string,
                                  describe: (string, string) -> string)
    requires Accepted(norm, d) && o.selectedIds.None? && t.kind.ReviewDirectRouteStrategy?
    requires ParseSignal(Given(t.signal)).Some? && FindRoute(d.routes, Given(t.intent)).Some?
    requires !HasStrategy(FindRoute(d.routes, Given(t.intent)).value.strategies,
                          ParseSignal(Given(t.signal)).value.strategy)
    ensures var patch := MapTrace(d, t, false, {}, describe);
            && patch.Some? && patch.value.AppendStrategy?
              && patch.value.strategyId == ParseSignal(Given(t.signal)).value.strategy
            && (Apply(norm, d, [Suggestion(id, patch.value)], o).Some? <==>
                norm(patch.value.strategyId) == Some(patch.value.strategyId))
  {
    var route, strategy := FindRoute(d.routes, Given(t.intent)).value, ParseSignal(Given(t.signal)).value.strategy;
    var s := Suggestion(id, AppendStrategy(route.id, strategy, describe(strategy, route.id)));
    hide *;
    ReviewIsMapped(d, t, describe);
    OneIsAcceptableIff(norm, d.tools, s);
    ApplySucceedsIff(norm, d, [s], o);
    OnlySuggestionIsApplied(d, o, s);
  }

  lemma ReviewIsMapped(d: Definition, t: TraceSuggestion, describe: (string, string) -> string)
    requires t.kind.ReviewDirectRouteStrategy?
    requires ParseSignal(Given(t.signal)).Some? && FindRoute(d.routes, Given(t.intent)).Some?
    requires !HasStrategy(FindRoute(d.routes, Given(t.intent)).value.strategies,
                          ParseSignal(Given(t.signal)).value.strategy)
    ensures var route, strategy :=
              FindRoute(d.routes, Given(t.intent)).value, ParseSignal(Given(t.signal)).value.strategy;
            MapTrace(d, t, false, {}, describe)
              == Some(AppendStrategy(route.id, strategy, describe(strategy, route.id)))
  {
    hide ParseSignal, FindRoute, HasStrategy, FindTool, FindIntent;
  }

  lemma OneIsAcceptableIff(norm: Normalizer, tools: seq<Tool>, s: Suggestion)
    requires s.patch.AppendStrategy?
    ensures AllAcceptable(norm, tools, [s], [Applied]) <==> norm(s.patch.strategyId) == Some(s.patch.strategyId)
  {
    assert AllAcceptable(norm, tools, [s], [Applied]) <==> Acceptable(norm, tools, [s][0].patch);
  }

  lemma OnlySuggestionIsApplied(d: Definition, o: Options, s: Suggestion)
    requires s.patch.AppendStrategy? && o.selectedIds.None? && FindRoute(d.routes, s.patch.routeId).Some?
    requires !HasStrategy(FindRoute(d.routes, s.patch.routeId).value.strategies, s.patch.strategyId)
    ensures Verdicts(d, o, [s]) == [Applied]
  {
    JudgedFirst(d, o, [s], 0);
    hide Verdicts, FindRoute;
    assert !HasStrategy([], s.patch.strategyId);
  }

  /** Whatever trimmed route without a colon and whatever trimmed strategy a trace joins with a colon, they are
      read back as they were observed. */
  lemma ParsedSignal(route: string, strategy: string)
    requires route != "" && Texts.Trim(route) == route && ':' !in route
    requires strategy != "" && Texts.Trim(strategy) == strategy
    ensures ParseSignal(route + ":" + strategy) == Some(Observed(route, strategy))
  {
    ParsedAtFirstColon(route + ":" + strategy, route, strategy);
    hide Texts.Trim, ParseSignal;
  }

  /** A valid definition with one route, and a strategy observed on that route whose id is not normal: the
      report suggests to add it, and applying that suggestion throws. */
  lemma ObservedStrategyIsRefused(norm: Normalizer, strategy: string, o: Options, id: string,
                                  describe: (string, string) -> string)
    requires norm("a") == Some("a") && norm("r") == Some("r") && o.selectedIds.None?
    requires strategy != "" && Texts.Trim(strategy) == strategy && norm(strategy) != Some(strategy)
    ensures var d := Definition(1, [Intent("a", [], [])], [], [Route("r", None, [])], true);
            var t := TraceSuggestion(ReviewDirectRouteStrategy, Some("r"), None, Some("r" + ":" + strategy));
            var patch := MapTrace(d, t, false, {}, describe);
            && Accepted(norm, d) && patch.Some?
            && Apply(norm, d, [Suggestion(id, patch.value)], o) == None
  {
    var d := Definition(1, [Intent("a", [], [])], [], [Route("r", None, [])], true);
    var t := TraceSuggestion(ReviewDirectRouteStrategy, Some("r"), None, Some("r" + ":" + strategy));
    OneRouteIsAccepted(norm, d);
    LetterIsTrimmed();
    ParsedSignal("r", strategy);
    RouteFoundById(d.routes, 0);
    assert !HasStrategy(d.routes[0].strategies, strategy);
    hide Accepted, Apply, MapTrace, ParseSignal, Texts.Trim, FindRoute, HasStrategy;
    UnnormalStrategyIsRefused(norm, d, o, t, id, describe);
  }

  lemma LetterIsTrimmed()
    ensures Texts.Trim("r") == "r" && ':' !in "r"
  {
    Texts.TrimmedIff("r");
    hide Texts.Trim;
    assert "r"[0] == 'r' && !Texts.IsSpace('r');
  }

  lemma OneRouteIsAccepted(norm: Normalizer, d: Definition)
    requires d == Definition(1, [Intent("a", [], [])], [], [Route("r", None, [])], true)
    requires norm("a") == Some("a") && norm("r") == Some("r")
    ensures Accepted(norm, d)
  {
    assert IntentIds(d.intents) == ["a"] && RouteIds(d.routes) == ["r"];
    assert StrategyIds([]) == [];
  }
}
