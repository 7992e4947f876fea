/** What applying tuning suggestions guarantees, for every definition, list of suggestions and options. */
module TuningLaws {
  import opened Wrappers
  import opened Planning
  import opened DefinitionTuning

  // ----- Verdicts -----

  /** Every suggestion is either applied or skipped. */
  lemma {:induction false} AppliedAndSkippedAddUp(suggestions: seq<Suggestion>, verdicts: seq<Verdict>)
    requires |suggestions| == |verdicts|
    ensures |AppliedIds(suggestions, verdicts)| + |SkippedOf(suggestions, verdicts)| == |suggestions|
    ensures AppliedIds(suggestions, verdicts) == [] <==> forall j :: 0 <= j < |verdicts| ==> verdicts[j].Skipped?
  {
    if suggestions != [] {
      var n := |suggestions| - 1;
      AppliedAndSkippedAddUp(suggestions[..n], verdicts[..n]);
      assert verdicts == verdicts[..n] + [verdicts[n]];
    }
  }

  lemma {:induction false} VerdictsOfPrefix(d: Definition, o: Options, suggestions: seq<Suggestion>, j: nat)
    requires j <= |suggestions|
    ensures Verdicts(d, o, suggestions[..j]) == Verdicts(d, o, suggestions)[..j]
    decreases |suggestions| - j
  {
    hide Judge;
    if j == |suggestions| {
      assert suggestions[..j] == suggestions;
    } else {
      VerdictsOfPrefix(d, o, suggestions, j + 1);
      assert suggestions[..j + 1][..j] == suggestions[..j];
      assert Verdicts(d, o, suggestions)[..j + 1][..j] == Verdicts(d, o, suggestions)[..j];
    }
  }

  lemma VerdictAt(d: Definition, o: Options, suggestions: seq<Suggestion>, j: nat)
    requires j < |suggestions|
    ensures var earlier, id := Verdicts(d, o, suggestions)[..j], Target(suggestions[j].patch);
            Verdicts(d, o, suggestions)[j] ==
            Judge(d, o, suggestions[j], HintsOf(suggestions[..j], earlier, id),
                  StrategiesOf(suggestions[..j], earlier, id))
  {
    hide Judge;
    VerdictsOfPrefix(d, o, suggestions, j);
    VerdictsOfPrefix(d, o, suggestions, j + 1);
    assert suggestions[..j + 1][..j] == suggestions[..j];
    assert Verdicts(d, o, suggestions)[..j + 1][j] == Verdicts(d, o, suggestions)[j];
  }

  ghost predicate AppliesHint(suggestions: seq<Suggestion>, verdicts: seq<Verdict>, j: int, intentId: string,
                              tool: string)
  {
    0 <= j < |suggestions| == |verdicts| && verdicts[j].Applied? && suggestions[j].patch == AppendHint(intentId, tool)
  }

  ghost predicate AppliesStrategy(suggestions: seq<Suggestion>, verdicts: seq<Verdict>, j: int, routeId: string,
                                  s: Strategy)
  {
    && 0 <= j < |suggestions| == |verdicts| && verdicts[j].Applied?
    && suggestions[j].patch == AppendStrategy(routeId, s.id, s.description)
  }

  lemma {:induction false} HintsOfIff(suggestions: seq<Suggestion>, verdicts: seq<Verdict>, intentId: string,
                                      tool: string)
    requires |suggestions| == |verdicts|
    ensures tool in HintsOf(suggestions, verdicts, intentId) <==>
      exists j :: AppliesHint(suggestions, verdicts, j, intentId, tool)
  {
    if suggestions != [] {
      var n := |suggestions| - 1;
      HintsOfIff(suggestions[..n], verdicts[..n], intentId, tool);
      if j :| AppliesHint(suggestions[..n], verdicts[..n], j, intentId, tool) {
        assert AppliesHint(suggestions, verdicts, j, intentId, tool);
      }
      if j :| AppliesHint(suggestions, verdicts, j, intentId, tool) {
        assert j == n || AppliesHint(suggestions[..n], verdicts[..n], j, intentId, tool);
      }
      assert AppliesHint(suggestions, verdicts, n, intentId, tool) <==>
             verdicts[n].Applied? && suggestions[n].patch == AppendHint(intentId, tool);
    }
  }

  lemma {:induction false} StrategiesOfIff(suggestions: seq<Suggestion>, verdicts: seq<Verdict>, routeId: string,
                                           s: Strategy)
    requires |suggestions| == |verdicts|
    ensures s in StrategiesOf(suggestions, verdicts, routeId) <==>
      exists j :: AppliesStrategy(suggestions, verdicts, j, routeId, s)
  {
    if suggestions != [] {
      var n := |suggestions| - 1;
      StrategiesOfIff(suggestions[..n], verdicts[..n], routeId, s);
      if j :| AppliesStrategy(suggestions[..n], verdicts[..n], j, routeId, s) {
        assert AppliesStrategy(suggestions, verdicts, j, routeId, s);
      }
      if j :| AppliesStrategy(suggestions, verdicts, j, routeId, s) {
        assert j == n || AppliesStrategy(suggestions[..n], verdicts[..n], j, routeId, s);
      }
      assert AppliesStrategy(suggestions, verdicts, n, routeId, s) <==>
             verdicts[n].Applied? && suggestions[n].patch == AppendStrategy(routeId, s.id, s.description);
    }
  }

  lemma {:induction false} HintsOfGrow(suggestions: seq<Suggestion>, verdicts: seq<Verdict>, intentId: string, j: nat)
    requires j <= |suggestions| == |verdicts|
    ensures HintsOf(suggestions[..j], verdicts[..j], intentId) <= HintsOf(suggestions, verdicts, intentId)
    decreases |suggestions| - j
  {
    if j == |suggestions| {
      assert suggestions[..j] == suggestions && verdicts[..j] == verdicts;
    } else {
      HintsOfGrow(suggestions, verdicts, intentId, j + 1);
      assert suggestions[..j + 1][..j] == suggestions[..j] && verdicts[..j + 1][..j] == verdicts[..j];
    }
  }

  /** A tool hint is applied exactly when it is selected, its intent exists and lacks the tool, no earlier
      suggestion already added it, and the intent has not reached the limit. */
  lemma HintAppliedIff(d: Definition, o: Options, suggestions: seq<Suggestion>, j: nat, intentId: string, tool: string)
    requires j < |suggestions| && suggestions[j].patch == AppendHint(intentId, tool)
    ensures var v, intent := Verdicts(d, o, suggestions), FindIntent(d.intents, intentId);
            v[j].Applied? <==>
            && Selected(o, suggestions[j].id) && intent.Some? && !HasHint(intent.value, tool)
            && (forall i :: 0 <= i < j ==> !AppliesHint(suggestions, v, i, intentId, tool))
            && !LimitReached(o, |HintsOf(suggestions[..j], v[..j], intentId)|)
  {
    var v := Verdicts(d, o, suggestions);
    VerdictAt(d, o, suggestions, j);
    HintsOfIff(suggestions[..j], v[..j], intentId, tool);
    hide FindIntent, HintsOf, Verdicts, HasHint, LimitReached, Selected, StrategiesOf;
    forall i | 0 <= i < j
      ensures AppliesHint(suggestions, v, i, intentId, tool) <==>
        AppliesHint(suggestions[..j], v[..j], i, intentId, tool)
    {
    }
    assert (exists i :: AppliesHint(suggestions[..j], v[..j], i, intentId, tool)) ==>
           exists i :: 0 <= i < j && AppliesHint(suggestions, v, i, intentId, tool);
  }

  ghost predicate AppliesStrategyId(suggestions: seq<Suggestion>, verdicts: seq<Verdict>, j: int, routeId: string,
                                    id: string)
  {
    && 0 <= j < |suggestions| == |verdicts| && verdicts[j].Applied? && suggestions[j].patch.AppendStrategy?
    && suggestions[j].patch.routeId == routeId && suggestions[j].patch.strategyId == id
  }

  lemma StrategyIsPendingIff(suggestions: seq<Suggestion>, verdicts: seq<Verdict>, routeId: string, id: string)
    requires |suggestions| == |verdicts|
    ensures HasStrategy(StrategiesOf(suggestions, verdicts, routeId), id) <==>
      exists i :: AppliesStrategyId(suggestions, verdicts, i, routeId, id)
  {
    var pending := StrategiesOf(suggestions, verdicts, routeId);
    hide StrategiesOf;
    if n :| 0 <= n < |pending| && pending[n].id == id {
      StrategiesOfIff(suggestions, verdicts, routeId, pending[n]);
      var i :| AppliesStrategy(suggestions, verdicts, i, routeId, pending[n]);
      assert AppliesStrategyId(suggestions, verdicts, i, routeId, id);
    }
    if i :| AppliesStrategyId(suggestions, verdicts, i, routeId, id) {
      var s := Strategy(id, suggestions[i].patch.description);
      StrategiesOfIff(suggestions, verdicts, routeId, s);
      assert AppliesStrategy(suggestions, verdicts, i, routeId, s);
      var n :| 0 <= n < |pending| && pending[n] == s;
    }
  }

  /** A strategy is applied exactly when it is selected, its route exists and lacks the id, and no earlier
      suggestion already added that id to the route. */
  lemma StrategyAppliedIff(d: Definition, o: Options, suggestions: seq<Suggestion>, j: nat)
    requires j < |suggestions| && suggestions[j].patch.AppendStrategy?
    ensures var v, patch := Verdicts(d, o, suggestions), suggestions[j].patch;
            var route := FindRoute(d.routes, patch.routeId);
            v[j].Applied? <==>
            && Selected(o, suggestions[j].id) && route.Some? && !HasStrategy(route.value.strategies, patch.strategyId)
            && forall i :: 0 <= i < j ==> !AppliesStrategyId(suggestions, v, i, patch.routeId, patch.strategyId)
  {
    var v, patch := Verdicts(d, o, suggestions), suggestions[j].patch;
    VerdictAt(d, o, suggestions, j);
    StrategyIsPendingIff(suggestions[..j], v[..j], patch.routeId, patch.strategyId);
    hide FindRoute, HintsOf, Verdicts, HasStrategy, Selected, StrategiesOf;
    forall i | 0 <= i < j
      ensures AppliesStrategyId(suggestions, v, i, patch.routeId, patch.strategyId) <==>
        AppliesStrategyId(suggestions[..j], v[..j], i, patch.routeId, patch.strategyId)
    {
    }
    assert (exists i :: AppliesStrategyId(suggestions[..j], v[..j], i, patch.routeId, patch.strategyId)) ==>
           exists i :: 0 <= i < j && AppliesStrategyId(suggestions, v, i, patch.routeId, patch.strategyId);
  }

  /** Why a suggestion is skipped: it was not selected, there is nothing it could change, its intent or route is
      missing, what it adds is there already or was just added, or the intent has reached its limit. */
  lemma SkippedBecause(d: Definition, o: Options, suggestions: seq<Suggestion>, j: nat)
    requires j < |suggestions|
    ensures var v, s := Verdicts(d, o, suggestions), suggestions[j];
            && (v[j] == Skipped(NotSelected) <==> o.selectedIds.Some? && s.id !in o.selectedIds.value)
            && (v[j] == Skipped(UnsupportedPatch) <==> Selected(o, s.id) && (s.patch.RegisterTool? || s.patch.NoPatch?))
            && (v[j] == Skipped(MissingIntent) <==>
                  Selected(o, s.id) && s.patch.AppendHint? && FindIntent(d.intents, s.patch.intentId).None?)
            && (v[j] == Skipped(MissingDirectRoute) <==>
                  Selected(o, s.id) && s.patch.AppendStrategy? && FindRoute(d.routes, s.patch.routeId).None?)
            && (v[j] == Skipped(ToolHintExists) <==>
                  && Selected(o, s.id) && s.patch.AppendHint? && FindIntent(d.intents, s.patch.intentId).Some?
                  && (s.patch.toolName in FindIntent(d.intents, s.patch.intentId).value.toolHints
                      || s.patch.toolName in FindIntent(d.intents, s.patch.intentId).value.requiredToolHints
                      || exists i :: 0 <= i < j && AppliesHint(suggestions, v, i, s.patch.intentId, s.patch.toolName)))
            && (v[j] == Skipped(DirectRouteStrategyExists) <==>
                  && Selected(o, s.id) && s.patch.AppendStrategy? && FindRoute(d.routes, s.patch.routeId).Some?
                  && !v[j].Applied?)
            && (v[j] == Skipped(IntentApplyLimit) ==>
                  s.patch.AppendHint? && LimitReached(o, |HintsOf(suggestions[..j], v[..j], s.patch.intentId)|))
  {
    var v, s := Verdicts(d, o, suggestions), suggestions[j];
    VerdictAt(d, o, suggestions, j);
    if s.patch.AppendHint? {
      HintIsPendingIff(suggestions, v, j, s.patch.intentId, s.patch.toolName);
    }
    hide FindIntent, FindRoute, HintsOf, Verdicts, HasStrategy, LimitReached, StrategiesOf, AppliesHint;
  }

  lemma HintIsPendingIff(suggestions: seq<Suggestion>, v: seq<Verdict>, j: nat, intentId: string, tool: string)
    requires j <= |suggestions| == |v|
    ensures tool in HintsOf(suggestions[..j], v[..j], intentId) <==>
      exists i :: 0 <= i < j && AppliesHint(suggestions, v, i, intentId, tool)
  {
    HintsOfIff(suggestions[..j], v[..j], intentId, tool);
    hide HintsOf;
    forall i | 0 <= i < j
      ensures AppliesHint(suggestions, v, i, intentId, tool) <==>
        AppliesHint(suggestions[..j], v[..j], i, intentId, tool)
    {
    }
    assert (exists i :: AppliesHint(suggestions[..j], v[..j], i, intentId, tool)) ==>
           exists i :: 0 <= i < j && AppliesHint(suggestions, v, i, intentId, tool);
  }

  /** A given limit is at least one. */
  lemma LimitIsPositive(o: Options)
    ensures Limit(o) == match o.maxToolHintsPerIntent
                        case None => None
                        case Some(n) => if n >= 1 then Some(n) else Some(1)
  {
  }

  // ----- Pending lists -----

  lemma {:induction false} PendingHintsAreNew(d: Definition, o: Options, suggestions: seq<Suggestion>, intentId: string)
    ensures var hints, intent := HintsOf(suggestions, Verdicts(d, o, suggestions), intentId),
      FindIntent(d.intents, intentId);
            && Distinct(hints)
            && (Limit(o).Some? ==> |hints| <= Limit(o).value)
            && (hints != [] ==> intent.Some?)
            && forall i :: 0 <= i < |hints| ==> intent.Some? && !HasHint(intent.value, hints[i])
  {
    hide FindIntent, HasHint;
    if suggestions != [] {
      var n := |suggestions| - 1;
      PendingHintsAreNew(d, o, suggestions[..n], intentId);
      VerdictsOfPrefix(d, o, suggestions, n);
    }
  }

  ghost predicate NewIds(strategies: seq<Strategy>, route: Option<Route>) {
    && (forall i, j :: 0 <= i < j < |strategies| ==> strategies[i].id != strategies[j].id)
    && (strategies != [] ==> route.Some?)
    && forall i :: 0 <= i < |strategies| ==> route.Some? && !HasStrategy(route.value.strategies, strategies[i].id)
  }

  lemma OneMoreNewId(strategies: seq<Strategy>, route: Option<Route>, s: Strategy)
    requires NewIds(strategies, route) && route.Some?
    requires !HasStrategy(route.value.strategies, s.id) && !HasStrategy(strategies, s.id)
    ensures NewIds(strategies + [s], route)
  {
  }

  lemma {:induction false} PendingStrategiesAreNew(d: Definition, o: Options, suggestions: seq<Suggestion>,
                                                   routeId: string)
    ensures NewIds(StrategiesOf(suggestions, Verdicts(d, o, suggestions), routeId), FindRoute(d.routes, routeId))
  {
    hide FindRoute, FindIntent, NewIds, HasStrategy, HasHint, HintsOf;
    if suggestions != [] {
      var n := |suggestions| - 1;
      var earlier, patch := StrategiesOf(suggestions[..n], Verdicts(d, o, suggestions[..n]), routeId),
        suggestions[n].patch;
      PendingStrategiesAreNew(d, o, suggestions[..n], routeId);
      VerdictsOfPrefix(d, o, suggestions, n);
      if Verdicts(d, o, suggestions)[n].Applied? && patch.AppendStrategy? && patch.routeId == routeId {
        OneMoreNewId(earlier, FindRoute(d.routes, routeId), Strategy(patch.strategyId, patch.description));
      }
    } else {
      assert NewIds([], FindRoute(d.routes, routeId)) by {
        NoNewIds(FindRoute(d.routes, routeId));
      }
    }
  }

  lemma NoNewIds(route: Option<Route>)
    ensures NewIds([], route)
  {
  }

  // ----- Diffs -----

  /** The non-empty tools applied to an intent. */
  ghost function AppliedHints(suggestions: seq<Suggestion>, verdicts: seq<Verdict>, intentId: string): set<string>
    requires |suggestions| == |verdicts|
  {
    set j | 0 <= j < |suggestions| && verdicts[j].Applied? && suggestions[j].patch.AppendHint?
            && suggestions[j].patch.intentId == intentId
              && suggestions[j].patch.toolName != "" :: suggestions[j].patch.toolName
  }

  ghost function AppliedStrategies(suggestions: seq<Suggestion>, verdicts: seq<Verdict>, routeId: string): set<string>
    requires |suggestions| == |verdicts|
  {
    set j | 0 <= j < |suggestions| && verdicts[j].Applied? && suggestions[j].patch.AppendStrategy?
            && suggestions[j].patch.routeId == routeId
              && suggestions[j].patch.strategyId != "" :: suggestions[j].patch.strategyId
  }

  lemma {:induction false} UniqueHintsIff(hints: seq<string>, v: string)
    ensures v in UniqueHints(hints) <==> v in hints && v != ""
  {
    if hints != [] {
      UniqueHintsIff(hints[..|hints| - 1], v);
      assert hints == hints[..|hints| - 1] + [hints[|hints| - 1]];
    }
  }

  lemma PatchedIntentDiff(d: Definition, o: Options, suggestions: seq<Suggestion>, k: nat)
    requires k < |d.intents| && Distinct(IntentIds(d.intents))
    ensures DiffIntent(d.intents[k], Patched(d, o, suggestions).intents[k]) ==
            IntentDiff(d.intents[k].id, AppliedHints(suggestions, Verdicts(d, o, suggestions), d.intents[k].id), {},
                       {}, {})
  {
    var v, intent := Verdicts(d, o, suggestions), d.intents[k];
    var hints := HintsOf(suggestions, v, intent.id);
    var after := PatchIntent(intent, hints);
    forall t
      ensures t in AppliedHints(suggestions, v, intent.id) <==> t in hints && t != ""
      ensures t in hints ==> !HasHint(intent, t)
      ensures t in after.toolHints && t != "" <==> (t in intent.toolHints || t in hints) && t != ""
    {
      HintsOfIff(suggestions, v, intent.id, t);
      AppliedHintsIff(suggestions, v, intent.id, t);
      PendingHintsAreNew(d, o, suggestions, intent.id);
      UniqueHintsIff(intent.toolHints + hints, t);
      hide Verdicts, HintsOf, AppliedHints, HasHint;
      if t in hints {
        FoundById(d.intents, k);
      }
    }
    hide Verdicts, HintsOf, AppliedHints, UniqueHints;
  }

  lemma AppliedHintsIff(suggestions: seq<Suggestion>, verdicts: seq<Verdict>, intentId: string, t: string)
    requires |suggestions| == |verdicts|
    ensures t in AppliedHints(suggestions, verdicts, intentId) <==>
      t != "" && exists j :: AppliesHint(suggestions, verdicts, j, intentId, t)
  {
    if j :| AppliesHint(suggestions, verdicts, j, intentId, t) {
      assert suggestions[j].patch.toolName == t;
    }
    if t in AppliedHints(suggestions, verdicts, intentId) {
      var j :| 0 <= j < |suggestions| && verdicts[j].Applied? && suggestions[j].patch.AppendHint?
               && suggestions[j].patch.intentId == intentId && suggestions[j].patch.toolName == t;
      assert AppliesHint(suggestions, verdicts, j, intentId, t);
    }
  }

  /** With unique ids, looking up the id of an intent finds that intent, unless the id is empty. */
  lemma {:induction false} FoundById(intents: seq<Intent>, k: nat)
    requires k < |intents| && Distinct(IntentIds(intents))
    ensures intents[k].id != "" ==> FindIntent(intents, intents[k].id) == Some(intents[k])
    ensures intents[k].id == "" ==> FindIntent(intents, intents[k].id) == None
  {
    if k > 0 {
      assert IntentIds(intents)[0] != IntentIds(intents)[k];
      assert forall i :: 0 <= i < |intents[1..]| ==> IntentIds(intents[1..])[i] == IntentIds(intents)[i + 1];
      FoundById(intents[1..], k - 1);
    }
  }

  lemma {:induction false} RouteFoundById(routes: seq<Route>, k: nat)
    requires k < |routes| && Distinct(RouteIds(routes))
    ensures routes[k].id != "" ==> FindRoute(routes, routes[k].id) == Some(routes[k])
    ensures routes[k].id == "" ==> FindRoute(routes, routes[k].id) == None
  {
    if k > 0 {
      assert RouteIds(routes)[0] != RouteIds(routes)[k];
      assert forall i :: 0 <= i < |routes[1..]| ==> RouteIds(routes[1..])[i] == RouteIds(routes)[i + 1];
      RouteFoundById(routes[1..], k - 1);
    }
  }

  lemma StrategyIdIff(strategies: seq<Strategy>, id: string)
    ensures id in StrategyIds(strategies) <==> HasStrategy(strategies, id)
    ensures id in StrategyIds(strategies) <==> exists s :: s in strategies && s.id == id
  {
    if id in StrategyIds(strategies) {
      var i :| 0 <= i < |strategies| && StrategyIds(strategies)[i] == id;
      assert strategies[i].id == id && strategies[i] in strategies;
    }
    if HasStrategy(strategies, id) {
      var i :| 0 <= i < |strategies| && strategies[i].id == id;
      assert StrategyIds(strategies)[i] == id;
    }
    if s :| s in strategies && s.id == id {
      var i :| 0 <= i < |strategies| && strategies[i] == s;
      assert StrategyIds(strategies)[i] == id;
    }
  }

  lemma AppliedStrategiesIff(suggestions: seq<Suggestion>, verdicts: seq<Verdict>, routeId: string, id: string)
    requires |suggestions| == |verdicts|
    ensures id in AppliedStrategies(suggestions, verdicts, routeId) <==>
      id != "" && id in StrategyIds(StrategiesOf(suggestions, verdicts, routeId))
  {
    var pending := StrategiesOf(suggestions, verdicts, routeId);
    StrategyIdIff(pending, id);
    if s :| s in pending && s.id == id {
      StrategiesOfIff(suggestions, verdicts, routeId, s);
      var j :| AppliesStrategy(suggestions, verdicts, j, routeId, s);
      assert suggestions[j].patch.strategyId == id;
    }
    if id in AppliedStrategies(suggestions, verdicts, routeId) {
      var j :| 0 <= j < |suggestions| && verdicts[j].Applied? && suggestions[j].patch.AppendStrategy?
               && suggestions[j].patch.routeId == routeId && suggestions[j].patch.strategyId == id;
      var s := Strategy(id, suggestions[j].patch.description);
      assert AppliesStrategy(suggestions, verdicts, j, routeId, s);
      StrategiesOfIff(suggestions, verdicts, routeId, s);
    }
  }

  lemma PendingStrategyIsNew(d: Definition, o: Options, suggestions: seq<Suggestion>, k: nat, t: string)
    requires k < |d.routes| && Distinct(RouteIds(d.routes))
    ensures var pending := StrategiesOf(suggestions, Verdicts(d, o, suggestions), d.routes[k].id);
            t in StrategyIds(pending) ==> t !in StrategyIds(d.routes[k].strategies)
  {
    var pending := StrategiesOf(suggestions, Verdicts(d, o, suggestions), d.routes[k].id);
    PendingStrategiesAreNew(d, o, suggestions, d.routes[k].id);
    StrategyIdIff(d.routes[k].strategies, t);
    RouteFoundById(d.routes, k);
    hide Verdicts, StrategiesOf, HasStrategy, FindRoute;
    if t in StrategyIds(pending) {
      var i :| 0 <= i < |pending| && StrategyIds(pending)[i] == t;
      assert pending[i].id == t;
    }
  }

  lemma PatchedIds(route: Route, strategies: seq<Strategy>)
    ensures var after := PatchRoute(route, strategies);
            after.id == route.id && StrategyIds(after.strategies) == StrategyIds(route.strategies)
              + StrategyIds(strategies)
  {
  }

  lemma DiffOfExtended(before: seq<string>, more: seq<string>, added: set<string>)
    requires forall t :: t in added <==> t in more && t != ""
    requires forall t :: t in more ==> t !in before
    ensures DiffStrings(before, before + more) == added && DiffStrings(before + more, before) == {}
  {
  }

  lemma PatchedRouteDiff(d: Definition, o: Options, suggestions: seq<Suggestion>, k: nat)
    requires k < |d.routes| && Distinct(RouteIds(d.routes))
    ensures DiffRoute(d.routes[k], Patched(d, o, suggestions).routes[k]) ==
            RouteDiff(d.routes[k].id, AppliedStrategies(suggestions, Verdicts(d, o, suggestions), d.routes[k].id), {})
  {
    var v, route, after := Verdicts(d, o, suggestions), d.routes[k], Patched(d, o, suggestions).routes[k];
    var pending := StrategiesOf(suggestions, v, route.id);
    assert after == PatchRoute(route, pending);
    hide Patched, Verdicts, StrategiesOf, AppliedStrategies, DiffStrings;
    PatchedIds(route, pending);
    hide PatchRoute, StrategyIds;
    forall t
      ensures t in AppliedStrategies(suggestions, v, route.id) <==> t in StrategyIds(pending) && t != ""
      ensures t in StrategyIds(pending) ==> t !in StrategyIds(route.strategies)
    {
      AppliedStrategiesIff(suggestions, v, route.id, t);
      PendingStrategyIsNew(d, o, suggestions, k, t);
    }
    DiffOfExtended(StrategyIds(route.strategies), StrategyIds(pending), AppliedStrategies(suggestions, v, route.id));
  }

  lemma {:induction false} ByIdFinds(intents: seq<Intent>, k: nat)
    requires k < |intents| && Distinct(IntentIds(intents))
    ensures intents[k].id in ById(intents) && ById(intents)[intents[k].id] == intents[k]
  {
    var n := |intents| - 1;
    if k < n {
      assert IntentIds(intents)[k] != IntentIds(intents)[n];
      assert IntentIds(intents[..n]) == IntentIds(intents)[..n];
      ByIdFinds(intents[..n], k);
    }
  }

  lemma {:induction false} RoutesByIdFinds(routes: seq<Route>, k: nat)
    requires k < |routes| && Distinct(RouteIds(routes))
    ensures routes[k].id in RoutesById(routes) && RoutesById(routes)[routes[k].id] == routes[k]
  {
    var n := |routes| - 1;
    if k < n {
      assert RouteIds(routes)[k] != RouteIds(routes)[n];
      assert RouteIds(routes[..n]) == RouteIds(routes)[..n];
      RoutesByIdFinds(routes[..n], k);
    }
  }

  ghost predicate IntentDiffAt(before: map<string, Intent>, after: seq<Intent>, k: int, x: IntentDiff) {
    0 <= k < |after| && after[k].id in before && x == DiffIntent(before[after[k].id], after[k]) && x.Changed()
  }

  ghost predicate RouteDiffAt(before: map<string, Route>, after: seq<Route>, k: int, x: RouteDiff) {
    0 <= k < |after| && after[k].id in before && x == DiffRoute(before[after[k].id], after[k]) && x.Changed()
  }

  lemma {:induction false} IntentDiffsIff(before: map<string, Intent>, after: seq<Intent>, x: IntentDiff)
    ensures x in IntentDiffs(before, after) <==> exists k :: IntentDiffAt(before, after, k, x)
  {
    hide DiffIntent;
    if after != [] {
      var n := |after| - 1;
      IntentDiffsIff(before, after[..n], x);
      if k :| IntentDiffAt(before, after[..n], k, x) {
        assert IntentDiffAt(before, after, k, x);
      }
      if k :| IntentDiffAt(before, after, k, x) {
        assert k == n || IntentDiffAt(before, after[..n], k, x);
      }
      assert IntentDiffAt(before, after, n, x) <==>
             after[n].id in before && x == DiffIntent(before[after[n].id], after[n]) && x.Changed();
    }
  }

  lemma {:induction false} RouteDiffsIff(before: map<string, Route>, after: seq<Route>, x: RouteDiff)
    ensures x in RouteDiffs(before, after) <==> exists k :: RouteDiffAt(before, after, k, x)
  {
    hide DiffRoute;
    if after != [] {
      var n := |after| - 1;
      RouteDiffsIff(before, after[..n], x);
      if k :| RouteDiffAt(before, after[..n], k, x) {
        assert RouteDiffAt(before, after, k, x);
      }
      if k :| RouteDiffAt(before, after, k, x) {
        assert k == n || RouteDiffAt(before, after[..n], k, x);
      }
      assert RouteDiffAt(before, after, n, x) <==>
             after[n].id in before && x == DiffRoute(before[after[n].id], after[n]) && x.Changed();
    }
  }

  ghost predicate AddsHintsTo(intents: seq<Intent>, suggestions: seq<Suggestion>, v: seq<Verdict>, k: int,
                              x: IntentDiff)
    requires |suggestions| == |v|
  {
    && 0 <= k < |intents| && AppliedHints(suggestions, v, intents[k].id) != {}
    && x == IntentDiff(intents[k].id, AppliedHints(suggestions, v, intents[k].id), {}, {}, {})
  }

  ghost predicate AddsStrategiesTo(routes: seq<Route>, suggestions: seq<Suggestion>, v: seq<Verdict>, k: int,
                                   x: RouteDiff)
    requires |suggestions| == |v|
  {
    && 0 <= k < |routes| && AppliedStrategies(suggestions, v, routes[k].id) != {}
    && x == RouteDiff(routes[k].id, AppliedStrategies(suggestions, v, routes[k].id), {})
  }

  /** The intent diffs are exactly the intents that got tools, with exactly the applied tools added. */
  ghost predicate IntentDiffsAreApplied(intents: seq<Intent>, suggestions: seq<Suggestion>, v: seq<Verdict>,
                                        diffs: seq<IntentDiff>)
    requires |suggestions| == |v|
  {
    forall x :: x in diffs <==> exists k :: AddsHintsTo(intents, suggestions, v, k, x)
  }

  ghost predicate RouteDiffsAreApplied(routes: seq<Route>, suggestions: seq<Suggestion>, v: seq<Verdict>,
                                       diffs: seq<RouteDiff>)
    requires |suggestions| == |v|
  {
    forall x :: x in diffs <==> exists k :: AddsStrategiesTo(routes, suggestions, v, k, x)
  }

  lemma PatchedIntentId(d: Definition, o: Options, suggestions: seq<Suggestion>, k: nat)
    requires k < |d.intents|
    ensures Patched(d, o, suggestions).intents[k].id == d.intents[k].id
  {
    hide Verdicts;
  }

  lemma PatchedIntentDiffs(d: Definition, o: Options, suggestions: seq<Suggestion>)
    requires Distinct(IntentIds(d.intents))
    ensures IntentDiffsAreApplied(d.intents, suggestions, Verdicts(d, o, suggestions),
                                  IntentDiffs(ById(d.intents), Patched(d, o, suggestions).intents))
  {
    var v, after := Verdicts(d, o, suggestions), Patched(d, o, suggestions).intents;
    assert |after| == |d.intents|;
    hide *;
    forall k | 0 <= k < |after|
      ensures after[k].id == d.intents[k].id && after[k].id in ById(d.intents)
        && ById(d.intents)[after[k].id] == d.intents[k]
      ensures DiffIntent(d.intents[k], after[k]) ==
        IntentDiff(d.intents[k].id, AppliedHints(suggestions, v, d.intents[k].id), {}, {}, {})
    {
      ByIdFinds(d.intents, k);
      PatchedIntentDiff(d, o, suggestions, k);
      PatchedIntentId(d, o, suggestions, k);
    }
    AppliedHintsAreDiffs(d.intents, after, suggestions, v);
  }

  lemma AppliedHintsAreDiffs(intents: seq<Intent>, after: seq<Intent>, suggestions: seq<Suggestion>,
                             v: seq<Verdict>)
    requires |suggestions| == |v| && |after| == |intents|
    requires forall k :: 0 <= k < |after| ==>
      && after[k].id == intents[k].id
      && after[k].id in ById(intents) && ById(intents)[after[k].id] == intents[k]
      && DiffIntent(intents[k], after[k])
        == IntentDiff(intents[k].id, AppliedHints(suggestions, v, intents[k].id), {}, {}, {})
    ensures IntentDiffsAreApplied(intents, suggestions, v, IntentDiffs(ById(intents), after))
  {
    hide AppliedHints, IntentDiffs, DiffIntent, ById;
    forall x
      ensures x in IntentDiffs(ById(intents), after) <==> exists k :: AddsHintsTo(intents, suggestions, v, k, x)
    {
      IntentDiffsIff(ById(intents), after, x);
      if k :| IntentDiffAt(ById(intents), after, k, x) {
        assert AddsHintsTo(intents, suggestions, v, k, x);
      }
      if k :| AddsHintsTo(intents, suggestions, v, k, x) {
        assert IntentDiffAt(ById(intents), after, k, x);
      }
    }
  }

  lemma PatchedRouteId(d: Definition, o: Options, suggestions: seq<Suggestion>, k: nat)
    requires k < |d.routes|
    ensures Patched(d, o, suggestions).routes[k].id == d.routes[k].id
  {
    hide Verdicts;
  }

  lemma PatchedRouteDiffs(d: Definition, o: Options, suggestions: seq<Suggestion>)
    requires Distinct(RouteIds(d.routes))
    ensures RouteDiffsAreApplied(d.routes, suggestions, Verdicts(d, o, suggestions),
                                 RouteDiffs(RoutesById(d.routes), Patched(d, o, suggestions).routes))
  {
    var v, after := Verdicts(d, o, suggestions), Patched(d, o, suggestions).routes;
    assert |after| == |d.routes|;
    hide *;
    forall k | 0 <= k < |after|
      ensures after[k].id == d.routes[k].id && after[k].id in RoutesById(d.routes)
        && RoutesById(d.routes)[after[k].id] == d.routes[k]
      ensures DiffRoute(d.routes[k], after[k]) ==
        RouteDiff(d.routes[k].id, AppliedStrategies(suggestions, v, d.routes[k].id), {})
    {
      RoutesByIdFinds(d.routes, k);
      PatchedRouteDiff(d, o, suggestions, k);
      PatchedRouteId(d, o, suggestions, k);
    }
    AppliedStrategiesAreDiffs(d.routes, after, suggestions, v);
  }

  lemma AppliedStrategiesAreDiffs(routes: seq<Route>, after: seq<Route>, suggestions: seq<Suggestion>,
                                  v: seq<Verdict>)
    requires |suggestions| == |v| && |after| == |routes|
    requires forall k :: 0 <= k < |after| ==>
      && after[k].id == routes[k].id
      && after[k].id in RoutesById(routes) && RoutesById(routes)[after[k].id] == routes[k]
      && DiffRoute(routes[k], after[k])
        == RouteDiff(routes[k].id, AppliedStrategies(suggestions, v, routes[k].id), {})
    ensures RouteDiffsAreApplied(routes, suggestions, v, RouteDiffs(RoutesById(routes), after))
  {
    hide AppliedStrategies, RouteDiffs, DiffRoute, RoutesById;
    forall x
      ensures x in RouteDiffs(RoutesById(routes), after) <==> exists k :: AddsStrategiesTo(routes, suggestions, v, k, x)
    {
      RouteDiffsIff(RoutesById(routes), after, x);
      if k :| RouteDiffAt(RoutesById(routes), after, k, x) {
        assert AddsStrategiesTo(routes, suggestions, v, k, x);
      }
      if k :| AddsStrategiesTo(routes, suggestions, v, k, x) {
        assert RouteDiffAt(RoutesById(routes), after, k, x);
      }
    }
  }

  lemma {:induction false} NothingAppliedNothingPending(suggestions: seq<Suggestion>, verdicts: seq<Verdict>,
                                                        id: string)
    requires |suggestions| == |verdicts| && forall j :: 0 <= j < |verdicts| ==> verdicts[j].Skipped?
    ensures HintsOf(suggestions, verdicts, id) == [] && StrategiesOf(suggestions, verdicts, id) == []
  {
    if suggestions != [] {
      NothingAppliedNothingPending(suggestions[..|suggestions| - 1], verdicts[..|verdicts| - 1], id);
    }
  }

  /** When nothing is applied the patched definition differs in its version at most. */
  lemma NothingAppliedNothingPatched(d: Definition, o: Options, suggestions: seq<Suggestion>)
    requires AppliedIds(suggestions, Verdicts(d, o, suggestions)) == []
    ensures Patched(d, o, suggestions).intents == d.intents && Patched(d, o, suggestions).routes == d.routes
  {
    var v, p := Verdicts(d, o, suggestions), Patched(d, o, suggestions);
    AppliedAndSkippedAddUp(suggestions, v);
    forall id
      ensures HintsOf(suggestions, v, id) == [] && StrategiesOf(suggestions, v, id) == []
    {
      NothingAppliedNothingPending(suggestions, v, id);
    }
    assert forall k :: 0 <= k < |d.intents| ==> p.intents[k] == d.intents[k];
    assert forall k :: 0 <= k < |d.routes| ==> p.routes[k] == d.routes[k];
  }

  /** The diff of the outcome lists exactly the applied tools and strategies, and nothing as removed; the tools
      added to an intent stay within the limit. */
  lemma DiffIsWhatWasApplied(norm: Normalizer, d: Definition, suggestions: seq<Suggestion>, o: Options)
    requires Accepted(norm, d) && Apply(norm, d, suggestions, o).Some?
    ensures var diff, v := Apply(norm, d, suggestions, o).value.diff, Verdicts(d, o, suggestions);
            && IntentDiffsAreApplied(d.intents, suggestions, v, diff.intentDiffs)
            && RouteDiffsAreApplied(d.routes, suggestions, v, diff.directRouteDiffs)
            && diff.addedIntentIds == diff.removedIntentIds == diff.addedDirectRouteIds ==
              diff.removedDirectRouteIds == {}
    ensures forall id :: Limit(o).Some? ==>
      |AppliedHints(suggestions, Verdicts(d, o, suggestions), id)| <= Limit(o).value
  {
    var v, p := Verdicts(d, o, suggestions), Patched(d, o, suggestions);
    assert IntentIds(p.intents) == IntentIds(d.intents) && RouteIds(p.routes) == RouteIds(d.routes);
    forall id | Limit(o).Some?
      ensures |AppliedHints(suggestions, v, id)| <= Limit(o).value
    {
      AppliedWithinLimit(d, o, suggestions, id);
    }
    if AppliedIds(suggestions, v) == [] {
      NothingAppliedNothingPatched(d, o, suggestions);
    }
    PatchedIntentDiffs(d, o, suggestions);
    PatchedRouteDiffs(d, o, suggestions);
    hide Verdicts, Patched, IntentDiffsAreApplied, RouteDiffsAreApplied, AppliedIds, SkippedOf, IntentDiffs,
      RouteDiffs, ById, RoutesById;
  }

  /** What a diff of any two definitions says: the non-empty names that only the second has were added, and those that
      only the first has were removed. */
  lemma DiffTells(before: Definition, after: Definition, id: string)
    ensures var diff := DiffOf(before, after);
            && diff.fromVersion == before.version && diff.toVersion == after.version
            && (id in diff.addedIntentIds <==>
                  id != "" && id in IntentIds(after.intents) && id !in IntentIds(before.intents))
            && (id in diff.removedIntentIds <==>
                  id != "" && id in IntentIds(before.intents) && id !in IntentIds(after.intents))
            && (id in diff.addedDirectRouteIds <==>
                  id != "" && id in RouteIds(after.routes) && id !in RouteIds(before.routes))
            && (id in diff.removedDirectRouteIds <==>
                  id != "" && id in RouteIds(before.routes) && id !in RouteIds(after.routes))
  {
    hide IntentDiffs, RouteDiffs, ById, RoutesById;
  }

  lemma PartDiffsTell(a: Intent, b: Intent, r: Route, q: Route, name: string)
    ensures var x := DiffIntent(a, b);
            && x.intentId == b.id
            && (name in x.addedToolHints <==> name != "" && name in b.toolHints && name !in a.toolHints)
            && (name in x.removedToolHints <==> name != "" && name in a.toolHints && name !in b.toolHints)
            && (name in x.addedRequiredToolHints <==>
                  name != "" && name in b.requiredToolHints && name !in a.requiredToolHints)
            && (name in x.removedRequiredToolHints <==>
                  name != "" && name in a.requiredToolHints && name !in b.requiredToolHints)
            && (x.Changed() <==> exists n :: n != "" && ((n in a.toolHints) != (n in b.toolHints)
                                                         || (n in a.requiredToolHints) != (n in b.requiredToolHints)))
    ensures var x := DiffRoute(r, q);
            && x.routeId == q.id
            && (name in x.addedStrategyIds <==>
                  name != "" && HasStrategy(q.strategies, name) && !HasStrategy(r.strategies, name))
            && (name in x.removedStrategyIds <==>
                  name != "" && HasStrategy(r.strategies, name) && !HasStrategy(q.strategies, name))
            && (x.Changed() <==> exists n :: n != "" && HasStrategy(r.strategies, n) != HasStrategy(q.strategies, n))
  {
    forall n
      ensures n in StrategyIds(r.strategies) <==> HasStrategy(r.strategies, n)
      ensures n in StrategyIds(q.strategies) <==> HasStrategy(q.strategies, n)
    {
      StrategyIdIff(r.strategies, n);
      StrategyIdIff(q.strategies, n);
    }
    hide HasStrategy, StrategyIds;
    IntentChangedIff(a, b);
    RouteChangedIff(r, q);
  }

  lemma IntentChangedIff(a: Intent, b: Intent)
    ensures DiffIntent(a, b).Changed() <==>
            exists n :: n != "" && ((n in a.toolHints) != (n in b.toolHints)
                                    || (n in a.requiredToolHints) != (n in b.requiredToolHints))
  {
    var x := DiffIntent(a, b);
    if n :| n in x.addedToolHints + x.removedToolHints + x.addedRequiredToolHints + x.removedRequiredToolHints {
      assert x.Changed();
    }
    if n :| n != "" && ((n in a.toolHints) != (n in b.toolHints)
                        || (n in a.requiredToolHints) != (n in b.requiredToolHints))
    {
      assert n in x.addedToolHints + x.removedToolHints + x.addedRequiredToolHints + x.removedRequiredToolHints;
    }
  }

  lemma RouteChangedIff(r: Route, q: Route)
    ensures DiffRoute(r, q).Changed() <==>
            exists n :: n != "" && (n in StrategyIds(r.strategies)) != (n in StrategyIds(q.strategies))
  {
    hide StrategyIds;
    var x := DiffRoute(r, q);
    if n :| n in x.addedStrategyIds + x.removedStrategyIds {
      assert x.Changed();
    }
    if n :| n != "" && (n in StrategyIds(r.strategies)) != (n in StrategyIds(q.strategies)) {
      assert n in x.addedStrategyIds + x.removedStrategyIds;
    }
  }

  /** `after` is `before` with applied strategies added, under their ids and descriptions. */
  ghost predicate OnlyAddsApplied(suggestions: seq<Suggestion>, v: seq<Verdict>, before: Route, after: Route) {
    && after.id == before.id && after.outcomeRoute == before.outcomeRoute && before.strategies <= after.strategies
    && forall m :: |before.strategies| <= m < |after.strategies| ==>
      IsApplied(suggestions, v, before.id, after.strategies[m])
  }

  ghost predicate IsApplied(suggestions: seq<Suggestion>, v: seq<Verdict>, routeId: string, s: Strategy) {
    exists j :: AppliesStrategy(suggestions, v, j, routeId, s)
  }

  lemma NothingAdded(suggestions: seq<Suggestion>, v: seq<Verdict>, route: Route)
    ensures OnlyAddsApplied(suggestions, v, route, route)
  {
  }

  /** The outcome: the same definition if nothing was applied; otherwise one of the next version, if that is wanted,
      in which required hints and earlier strategies are as before and every further strategy is an applied one,
      with its description. */
  lemma OutcomeTells(norm: Normalizer, d: Definition, suggestions: seq<Suggestion>, o: Options)
    requires Apply(norm, d, suggestions, o).Some?
    ensures var result, v := Apply(norm, d, suggestions, o).value, Verdicts(d, o, suggestions);
            var p := result.definition;
            && (result.changed <==> exists j :: 0 <= j < |v| && v[j].Applied?)
            && (!result.changed ==> p == d)
            && p.version == d.version + (if result.changed && o.bumpVersion then 1 else 0)
            && result.diff.fromVersion == d.version && result.diff.toVersion == p.version
            && p.tools == d.tools && p.restValid == d.restValid
            && |p.intents| == |d.intents| && |p.routes| == |d.routes|
            && (forall k :: 0 <= k < |d.intents| ==>
                p.intents[k].id == d.intents[k].id && p.intents[k].requiredToolHints == d.intents[k].requiredToolHints)
            && (forall k :: 0 <= k < |d.routes| ==> OnlyAddsApplied(suggestions, v, d.routes[k], p.routes[k]))
  {
    var v := Verdicts(d, o, suggestions);
    hide *;
    ApplyMeans(norm, d, suggestions, o);
    AppliedAndSkippedAddUp(suggestions, v);
    forall k | 0 <= k < |d.routes|
      ensures OnlyAddsApplied(suggestions, v, d.routes[k], d.routes[k])
    {
      NothingAdded(suggestions, v, d.routes[k]);
    }
    PatchedTells(d, o, suggestions);
    assert forall j :: 0 <= j < |v| ==> v[j].Applied? || v[j].Skipped?;
  }

  lemma ApplyMeans(norm: Normalizer, d: Definition, suggestions: seq<Suggestion>, o: Options)
    requires Apply(norm, d, suggestions, o).Some?
    ensures var result := Apply(norm, d, suggestions, o).value;
            && (result.changed <==> AppliedIds(suggestions, Verdicts(d, o, suggestions)) != [])
            && result.definition == (if result.changed then Patched(d, o, suggestions) else d)
            && result.diff.fromVersion == d.version && result.diff.toVersion == result.definition.version
  {
    hide Verdicts, Patched, Accepted, AppliedIds, SkippedOf, IntentDiffs, RouteDiffs, ById, RoutesById, DiffStrings,
      IntentIds, RouteIds;
  }

  lemma PatchedTells(d: Definition, o: Options, suggestions: seq<Suggestion>)
    ensures var p, v := Patched(d, o, suggestions), Verdicts(d, o, suggestions);
            && p.version == d.version + (if o.bumpVersion then 1 else 0)
            && p.tools == d.tools && p.restValid == d.restValid
            && (forall k :: 0 <= k < |d.intents| ==>
                p.intents[k].id == d.intents[k].id && p.intents[k].requiredToolHints == d.intents[k].requiredToolHints)
            && (forall k :: 0 <= k < |d.routes| ==> OnlyAddsApplied(suggestions, v, d.routes[k], p.routes[k]))
  {
    var p, v := Patched(d, o, suggestions), Verdicts(d, o, suggestions);
    hide Verdicts, HintsOf, StrategiesOf, UniqueHints, OnlyAddsApplied;
    forall k | 0 <= k < |d.routes|
      ensures OnlyAddsApplied(suggestions, v, d.routes[k], p.routes[k])
    {
      PendingAreApplied(suggestions, v, d.routes[k]);
    }
  }

  lemma PendingAreApplied(suggestions: seq<Suggestion>, v: seq<Verdict>, route: Route)
    requires |suggestions| == |v|
    ensures OnlyAddsApplied(suggestions, v, route, PatchRoute(route, StrategiesOf(suggestions, v, route.id)))
  {
    var pending := StrategiesOf(suggestions, v, route.id);
    var after := PatchRoute(route, pending);
    hide StrategiesOf, AppliesStrategy;
    assert after.strategies == route.strategies + pending;
    forall m | |route.strategies| <= m < |after.strategies|
      ensures IsApplied(suggestions, v, route.id, after.strategies[m])
    {
      assert after.strategies[m] == pending[m - |route.strategies|];
      StrategiesOfIff(suggestions, v, route.id, after.strategies[m]);
    }
    hide IsApplied;
  }

  lemma AppliedWithinLimit(d: Definition, o: Options, suggestions: seq<Suggestion>, id: string)
    requires Limit(o).Some?
    ensures |AppliedHints(suggestions, Verdicts(d, o, suggestions), id)| <= Limit(o).value
  {
    var v := Verdicts(d, o, suggestions);
    var hints := HintsOf(suggestions, v, id);
    PendingHintsAreNew(d, o, suggestions, id);
    forall t | t in AppliedHints(suggestions, v, id)
      ensures t in hints
    {
      AppliedHintsIff(suggestions, v, id, t);
      HintsOfIff(suggestions, v, id, t);
    }
    FewerThanListed(AppliedHints(suggestions, v, id), hints);
  }

  lemma {:induction false} FewerThanListed(some: set<string>, listed: seq<string>)
    requires forall t :: t in some ==> t in listed
    ensures |some| <= |listed|
  {
    if listed != [] {
      var n := |listed| - 1;
      assert listed == listed[..n] + [listed[n]];
      FewerThanListed(some - {listed[n]}, listed[..n]);
    } else {
      assert some == {};
    }
  }

  // ----- Validity -----

  /** What `defineAssistantWorkflow` asks of one applied suggestion. */
  ghost predicate Acceptable(norm: Normalizer, tools: seq<Tool>, patch: Patch) {
    match patch
    case AppendHint(_, tool) => tools != [] && tool != "" ==> KnowsTool(tools, tool)
    case AppendStrategy(_, strategyId, _) => norm(strategyId) == Some(strategyId)
    case _ => true
  }

  ghost predicate AllAcceptable(norm: Normalizer, tools: seq<Tool>, suggestions: seq<Suggestion>,
                                verdicts: seq<Verdict>)
  {
    forall j :: 0 <= j < |suggestions| == |verdicts| && verdicts[j].Applied? ==>
      Acceptable(norm, tools, suggestions[j].patch)
  }

  ghost predicate ToolsKnown(tools: seq<Tool>, hints: seq<string>) {
    tools != [] ==> forall i :: 0 <= i < |hints| ==> hints[i] == "" || KnowsTool(tools, hints[i])
  }

  ghost predicate IdsNormal(norm: Normalizer, strategies: seq<Strategy>) {
    forall i :: 0 <= i < |strategies| ==> norm(strategies[i].id) == Some(strategies[i].id)
  }

  lemma PatchedIntentIsKnownIff(d: Definition, p: Definition, intent: Intent, hints: seq<string>)
    requires HintsAreKnown(d, intent) && p.tools == d.tools
    ensures HintsAreKnown(p, PatchIntent(intent, hints)) <==> ToolsKnown(d.tools, hints)
  {
    hide KnowsTool;
    var after := PatchIntent(intent, hints).toolHints;
    forall t
      ensures hints != [] ==> (t in after <==> (t in intent.toolHints || t in hints) && t != "")
    {
      UniqueHintsIff(intent.toolHints + hints, t);
    }
    hide PatchIntent;
    assert PatchIntent(intent, hints).requiredToolHints == intent.requiredToolHints by {
      PatchKeepsRequired(intent, hints);
    }
    if HintsAreKnown(p, PatchIntent(intent, hints)) && d.tools != [] {
      forall i | 0 <= i < |hints|
        ensures hints[i] == "" || KnowsTool(d.tools, hints[i])
      {
        assert hints[i] in hints;
      }
    }
    if ToolsKnown(d.tools, hints) && d.tools != [] && hints != [] {
      forall i | 0 <= i < |after|
        ensures KnowsTool(p.tools, after[i])
      {
        assert after[i] in after;
      }
    }
    assert hints == [] ==> after == intent.toolHints by {
      PatchWithoutHints(intent, hints);
    }
  }

  lemma PatchKeepsRequired(intent: Intent, hints: seq<string>)
    ensures PatchIntent(intent, hints).requiredToolHints == intent.requiredToolHints
  {
  }

  lemma PatchWithoutHints(intent: Intent, hints: seq<string>)
    ensures hints == [] ==> PatchIntent(intent, hints) == intent
  {
  }

  lemma PatchedRouteIsValidIff(norm: Normalizer, route: Route, strategies: seq<Strategy>)
    requires RouteIsValid(norm, route) && NewIds(strategies, Some(route))
    ensures RouteIsValid(norm, PatchRoute(route, strategies)) <==> IdsNormal(norm, strategies)
  {
    var before, added := StrategyIds(route.strategies), StrategyIds(strategies);
    assert StrategyIds(PatchRoute(route, strategies).strategies) == before + added;
    forall i, j | 0 <= i < |before| && 0 <= j < |added|
      ensures before[i] != added[j]
    {
      assert !HasStrategy(route.strategies, strategies[j].id);
    }
    if UniqueVocabulary(norm, before + added) {
      forall j | 0 <= j < |strategies|
        ensures norm(strategies[j].id) == Some(strategies[j].id)
      {
        assert (before + added)[|before| + j] == strategies[j].id;
      }
    }
  }

  ghost predicate PendingAcceptable(norm: Normalizer, tools: seq<Tool>, suggestions: seq<Suggestion>, v: seq<Verdict>,
                                    id: string)
    requires |suggestions| == |v|
  {
    ToolsKnown(tools, HintsOf(suggestions, v, id)) && IdsNormal(norm, StrategiesOf(suggestions, v, id))
  }

  lemma AcceptableIsPending(norm: Normalizer, tools: seq<Tool>, suggestions: seq<Suggestion>, v: seq<Verdict>,
                            id: string)
    requires |suggestions| == |v| && AllAcceptable(norm, tools, suggestions, v)
    ensures PendingAcceptable(norm, tools, suggestions, v, id)
  {
    hide HintsOf, StrategiesOf, KnowsTool;
    var hints, strategies := HintsOf(suggestions, v, id), StrategiesOf(suggestions, v, id);
    forall i | 0 <= i < |hints| && tools != []
      ensures hints[i] == "" || KnowsTool(tools, hints[i])
    {
      HintsOfIff(suggestions, v, id, hints[i]);
      var j :| AppliesHint(suggestions, v, j, id, hints[i]);
      assert Acceptable(norm, tools, suggestions[j].patch);
    }
    forall i | 0 <= i < |strategies|
      ensures norm(strategies[i].id) == Some(strategies[i].id)
    {
      StrategiesOfIff(suggestions, v, id, strategies[i]);
      var j :| AppliesStrategy(suggestions, v, j, id, strategies[i]);
      assert Acceptable(norm, tools, suggestions[j].patch);
    }
  }

  lemma PendingIsAcceptable(norm: Normalizer, tools: seq<Tool>, suggestions: seq<Suggestion>, v: seq<Verdict>)
    requires |suggestions| == |v| && forall id :: PendingAcceptable(norm, tools, suggestions, v, id)
    ensures AllAcceptable(norm, tools, suggestions, v)
  {
    hide HintsOf, StrategiesOf, KnowsTool;
    forall j | 0 <= j < |suggestions| && v[j].Applied?
      ensures Acceptable(norm, tools, suggestions[j].patch)
    {
      var patch := suggestions[j].patch;
      assert PendingAcceptable(norm, tools, suggestions, v, Target(patch));
      if patch.AppendHint? {
        assert AppliesHint(suggestions, v, j, patch.intentId, patch.toolName);
        HintsOfIff(suggestions, v, patch.intentId, patch.toolName);
      } else if patch.AppendStrategy? {
        var s := Strategy(patch.strategyId, patch.description);
        assert AppliesStrategy(suggestions, v, j, patch.routeId, s);
        StrategiesOfIff(suggestions, v, patch.routeId, s);
      }
    }
  }

  lemma PatchedPartsAreValidIff(norm: Normalizer, d: Definition, o: Options, suggestions: seq<Suggestion>)
    requires Accepted(norm, d)
    ensures var v, p := Verdicts(d, o, suggestions), Patched(d, o, suggestions);
            && (forall k :: 0 <= k < |d.intents| ==>
                  (HintsAreKnown(p, p.intents[k]) <==> ToolsKnown(d.tools, HintsOf(suggestions, v, d.intents[k].id))))
            && (forall k :: 0 <= k < |d.routes| ==>
                  (RouteIsValid(norm, p.routes[k]) <==> IdsNormal(norm, StrategiesOf(suggestions, v, d.routes[k].id))))
  {
    hide HintsAreKnown, RouteIsValid, PatchIntent, PatchRoute, NewIds, IdsNormal, ToolsKnown, HintsOf, StrategiesOf,
      Verdicts;
    var v, p := Verdicts(d, o, suggestions), Patched(d, o, suggestions);
    forall k | 0 <= k < |d.intents|
      ensures HintsAreKnown(p, p.intents[k]) <==> ToolsKnown(d.tools, HintsOf(suggestions, v, d.intents[k].id))
    {
      PatchedIntentIsKnownIff(d, p, d.intents[k], HintsOf(suggestions, v, d.intents[k].id));
    }
    forall k | 0 <= k < |d.routes|
      ensures RouteIsValid(norm, p.routes[k]) <==> IdsNormal(norm, StrategiesOf(suggestions, v, d.routes[k].id))
    {
      NewIdsOfRoute(d, o, suggestions, k);
      PatchedRouteIsValidIff(norm, d.routes[k], StrategiesOf(suggestions, v, d.routes[k].id));
    }
  }

  lemma NewIdsOfRoute(d: Definition, o: Options, suggestions: seq<Suggestion>, k: nat)
    requires k < |d.routes| && Distinct(RouteIds(d.routes))
    ensures NewIds(StrategiesOf(suggestions, Verdicts(d, o, suggestions), d.routes[k].id), Some(d.routes[k]))
  {
    hide StrategiesOf, Verdicts, FindRoute;
    PendingStrategiesAreNew(d, o, suggestions, d.routes[k].id);
    RouteFoundById(d.routes, k);
  }

  lemma PatchedIsAcceptedIff(norm: Normalizer, d: Definition, o: Options, suggestions: seq<Suggestion>)
    requires Accepted(norm, d)
    ensures Accepted(norm, Patched(d, o, suggestions)) <==>
            forall id :: PendingAcceptable(norm, d.tools, suggestions, Verdicts(d, o, suggestions), id)
  {
    var v, p := Verdicts(d, o, suggestions), Patched(d, o, suggestions);
    PatchedPartsAreValidIff(norm, d, o, suggestions);
    assert IntentIds(p.intents) == IntentIds(d.intents) && RouteIds(p.routes) == RouteIds(d.routes);
    hide HintsAreKnown, RouteIsValid, IdsNormal, ToolsKnown, HintsOf, StrategiesOf, Verdicts, UniqueVocabulary,
      Patched, FindIntent, FindRoute;
    assert p.version >= 1 && p.restValid && p.tools == d.tools by {
      PatchedKeepsTheRest(d, o, suggestions);
    }
    if Accepted(norm, p) {
      forall id
        ensures PendingAcceptable(norm, d.tools, suggestions, v, id)
      {
        PendingHintsAreNew(d, o, suggestions, id);
        PendingStrategiesAreNew(d, o, suggestions, id);
        FoundIntent(d.intents, id);
        FoundRoute(d.routes, id);
        EmptyIsAcceptable(norm, d.tools);
      }
    }
    if forall id :: PendingAcceptable(norm, d.tools, suggestions, v, id) {
      forall k | 0 <= k < |p.intents|
        ensures HintsAreKnown(p, p.intents[k])
      {
        assert PendingAcceptable(norm, d.tools, suggestions, v, d.intents[k].id);
      }
      forall k | 0 <= k < |p.routes|
        ensures RouteIsValid(norm, p.routes[k])
      {
        assert PendingAcceptable(norm, d.tools, suggestions, v, d.routes[k].id);
      }
    }
  }

  lemma PatchedKeepsTheRest(d: Definition, o: Options, suggestions: seq<Suggestion>)
    ensures var p := Patched(d, o, suggestions);
            p.restValid == d.restValid && p.tools == d.tools && p.version == if o.bumpVersion then d.version + 1
              else d.version
  {
  }

  lemma EmptyIsAcceptable(norm: Normalizer, tools: seq<Tool>)
    ensures ToolsKnown(tools, []) && IdsNormal(norm, [])
  {
  }

  lemma FoundIntent(intents: seq<Intent>, id: string)
    ensures FindIntent(intents, id).Some? ==> exists k :: 0 <= k < |intents| && intents[k].id == id
  {
  }

  lemma FoundRoute(routes: seq<Route>, id: string)
    ensures FindRoute(routes, id).Some? ==> exists k :: 0 <= k < |routes| && routes[k].id == id
  {
  }

  /** Applying suggestions to a valid definition goes through exactly when every applied tool is known (or
      empty, or no tool is declared at all) and every applied strategy id is normal. */
  lemma ApplySucceedsIff(norm: Normalizer, d: Definition, suggestions: seq<Suggestion>, o: Options)
    requires Accepted(norm, d)
    ensures Apply(norm, d, suggestions, o).Some? <==>
      AllAcceptable(norm, d.tools, suggestions, Verdicts(d, o, suggestions))
    ensures Apply(norm, d, suggestions, o).Some? ==> Accepted(norm, Apply(norm, d, suggestions, o).value.definition)
  {
    var v := Verdicts(d, o, suggestions);
    AppliedAndSkippedAddUp(suggestions, v);
    PatchedIsAcceptedIff(norm, d, o, suggestions);
    if AllAcceptable(norm, d.tools, suggestions, v) {
      forall id
        ensures PendingAcceptable(norm, d.tools, suggestions, v, id)
      {
        AcceptableIsPending(norm, d.tools, suggestions, v, id);
      }
    }
    if forall id :: PendingAcceptable(norm, d.tools, suggestions, v, id) {
      PendingIsAcceptable(norm, d.tools, suggestions, v);
    }
    hide Accepted, Patched, Verdicts, AppliedIds, SkippedOf, PendingAcceptable, Acceptable, DiffOf;
  }

  // ----- Applying again -----

  lemma FindPatchedIntent(d: Definition, o: Options, suggestions: seq<Suggestion>, id: string)
    requires Distinct(IntentIds(d.intents))
    ensures FindIntent(Patched(d, o, suggestions).intents, id) ==
      match FindIntent(d.intents, id)
      case None => None
      case Some(intent) => Some(PatchIntent(intent, HintsOf(suggestions, Verdicts(d, o, suggestions), id)))
  {
    var p := Patched(d, o, suggestions);
    assert IntentIds(p.intents) == IntentIds(d.intents);
    assert forall k :: 0 <= k < |d.intents| ==> p.intents[k].id == d.intents[k].id;
    var found, patched := FindIntent(d.intents, id), FindIntent(p.intents, id);
    if found.Some? {
      var k :| 0 <= k < |d.intents| && d.intents[k] == found.value;
      FoundById(d.intents, k);
      FoundById(p.intents, k);
    }
  }

  lemma FindPatchedRoute(d: Definition, o: Options, suggestions: seq<Suggestion>, id: string)
    requires Distinct(RouteIds(d.routes))
    ensures FindRoute(Patched(d, o, suggestions).routes, id) ==
      match FindRoute(d.routes, id)
      case None => None
      case Some(route) => Some(PatchRoute(route, StrategiesOf(suggestions, Verdicts(d, o, suggestions), id)))
  {
    var p := Patched(d, o, suggestions);
    assert RouteIds(p.routes) == RouteIds(d.routes);
    assert forall k :: 0 <= k < |d.routes| ==> p.routes[k].id == d.routes[k].id;
    var found, patched := FindRoute(d.routes, id), FindRoute(p.routes, id);
    if found.Some? {
      var k :| 0 <= k < |d.routes| && d.routes[k] == found.value;
      RouteFoundById(d.routes, k);
      RouteFoundById(p.routes, k);
    }
  }

  lemma PatchedHasHintIff(intent: Intent, hints: seq<string>, tool: string)
    requires tool != ""
    ensures HasHint(PatchIntent(intent, hints), tool) <==> HasHint(intent, tool) || tool in hints
  {
    UniqueHintsIff(intent.toolHints + hints, tool);
    hide UniqueHints;
  }

  lemma PatchedHasStrategyIff(route: Route, strategies: seq<Strategy>, id: string)
    ensures HasStrategy(PatchRoute(route, strategies).strategies, id) <==>
      HasStrategy(route.strategies, id) || HasStrategy(strategies, id)
  {
    StrategyIdIff(route.strategies, id);
    StrategyIdIff(strategies, id);
    StrategyIdIff(route.strategies + strategies, id);
    hide HasStrategy;
    assert StrategyIds(route.strategies + strategies) == StrategyIds(route.strategies) + StrategyIds(strategies);
  }

  lemma {:induction false} StrategiesOfGrow(suggestions: seq<Suggestion>, verdicts: seq<Verdict>, routeId: string,
                                            j: nat)
    requires j <= |suggestions| == |verdicts|
    ensures StrategiesOf(suggestions[..j], verdicts[..j], routeId) <= StrategiesOf(suggestions, verdicts, routeId)
    decreases |suggestions| - j
  {
    if j == |suggestions| {
      assert suggestions[..j] == suggestions && verdicts[..j] == verdicts;
    } else {
      StrategiesOfGrow(suggestions, verdicts, routeId, j + 1);
      assert suggestions[..j + 1][..j] == suggestions[..j] && verdicts[..j + 1][..j] == verdicts[..j];
    }
  }

  /** The verdict on a hint: it is open to be added if it is selected, its intent is there and the tool is
      new; then it is applied, or kept out by the limit. */
  lemma HintVerdict(d: Definition, o: Options, s: Suggestion, hints: seq<string>, strategies: seq<Strategy>)
    requires s.patch.AppendHint?
    ensures var intent, tool := FindIntent(d.intents, s.patch.intentId), s.patch.toolName;
            var isOpen := Selected(o, s.id) && intent.Some? && !HasHint(intent.value, tool) && tool !in hints;
            && (Judge(d, o, s, hints, strategies).Applied? <==> isOpen && !LimitReached(o, |hints|))
            && (Judge(d, o, s, hints, strategies) == Skipped(IntentApplyLimit) <==> isOpen && LimitReached(o, |hints|))
  {
    hide FindIntent, HasHint, Selected, LimitReached;
  }

  lemma NeverReachedByNothing(o: Options)
    ensures !LimitReached(o, 0)
  {
  }

  /** What the verdict on a hint says about the tools that are pending for its intent, then and in the end. */
  lemma PendingAt(d: Definition, o: Options, suggestions: seq<Suggestion>, j: nat)
    requires j < |suggestions| && suggestions[j].patch.AppendHint?
    ensures var v, id, tool := Verdicts(d, o, suggestions), suggestions[j].patch.intentId,
      suggestions[j].patch.toolName;
            var hints, intent := HintsOf(suggestions, v, id), FindIntent(d.intents, id);
            var isNew := Selected(o, suggestions[j].id) && intent.Some? && !HasHint(intent.value, tool);
            && (v[j].Applied? ==> isNew && tool in hints)
            && (v[j] == Skipped(IntentApplyLimit) <==> isNew && tool !in hints)
            && (v[j] == Skipped(IntentApplyLimit) ==> Limit(o).Some? && |hints| == Limit(o).value)
            && (isNew ==> hints != [])
  {
    var s, v := suggestions[j], Verdicts(d, o, suggestions);
    var id, tool := s.patch.intentId, s.patch.toolName;
    var hints, before := HintsOf(suggestions, v, id), HintsOf(suggestions[..j], v[..j], id);
    VerdictAt(d, o, suggestions, j);
    HintVerdict(d, o, s, before, StrategiesOf(suggestions[..j], v[..j], id));
    HintsOfGrow(suggestions, v, id, j);
    PendingHintsAreNew(d, o, suggestions, id);
    HintsOfIff(suggestions, v, id, tool);
    hide Judge, Verdicts, HintsOf, StrategiesOf, FindIntent, HasHint, Selected;
    assert v[j].Applied? ==> AppliesHint(suggestions, v, j, id, tool);
    assert tool in before ==> tool in hints;
    assert LimitReached(o, |before|) ==> hints == before && |before| > 0;
  }

  /** Against the patched definition a hint is skipped, unless the limit kept it out before. */
  lemma HintJudgedAgain(d: Definition, o: Options, suggestions: seq<Suggestion>, j: nat)
    requires j < |suggestions| && suggestions[j].patch.AppendHint? && suggestions[j].patch.toolName != ""
    requires Distinct(IntentIds(d.intents))
    ensures Judge(Patched(d, o, suggestions), o, suggestions[j], [], []).Applied? <==>
            Verdicts(d, o, suggestions)[j] == Skipped(IntentApplyLimit)
  {
    var s, v, p := suggestions[j], Verdicts(d, o, suggestions), Patched(d, o, suggestions);
    var id, tool := s.patch.intentId, s.patch.toolName;
    var hints, before := HintsOf(suggestions, v, id), HintsOf(suggestions[..j], v[..j], id);
    FindPatchedIntent(d, o, suggestions, id);
    hide *;
    NeverReachedByNothing(o);
    PendingAt(d, o, suggestions, j);
    HintVerdict(p, o, s, [], []);
    if FindIntent(d.intents, id).Some? {
      PatchedHasHintIff(FindIntent(d.intents, id).value, hints, tool);
    }
  }

  lemma StrategySkippedAgain(d: Definition, o: Options, suggestions: seq<Suggestion>, j: nat)
    requires j < |suggestions| && suggestions[j].patch.AppendStrategy? && Distinct(RouteIds(d.routes))
    ensures Judge(Patched(d, o, suggestions), o, suggestions[j], [], []).Skipped?
    ensures Verdicts(d, o, suggestions)[j] != Skipped(IntentApplyLimit)
  {
    var v, patch := Verdicts(d, o, suggestions), suggestions[j].patch;
    var strategies, before := StrategiesOf(suggestions, v, patch.routeId),
      StrategiesOf(suggestions[..j], v[..j], patch.routeId);
    VerdictAt(d, o, suggestions, j);
    FindPatchedRoute(d, o, suggestions, patch.routeId);
    StrategiesOfGrow(suggestions, v, patch.routeId, j);
    StrategiesOfIff(suggestions, v, patch.routeId, Strategy(patch.strategyId, patch.description));
    assert v[j].Applied? ==> AppliesStrategy(suggestions, v, j, patch.routeId,
                                             Strategy(patch.strategyId, patch.description));
    StrategyIdIff(strategies, patch.strategyId);
    hide Patched, Verdicts, HintsOf, StrategiesOf, FindRoute, Selected, PatchRoute;
    assert HasStrategy(before, patch.strategyId) ==> HasStrategy(strategies, patch.strategyId) by {
      if HasStrategy(before, patch.strategyId) {
        var i :| 0 <= i < |before| && before[i].id == patch.strategyId;
        assert strategies[i] == before[i];
      }
    }
    hide HasStrategy;
    if FindRoute(d.routes, patch.routeId).Some? {
      PatchedHasStrategyIff(FindRoute(d.routes, patch.routeId).value, strategies, patch.strategyId);
    }
  }

  /** Suggestion `j` names the empty tool for an intent that tuning touches: rebuilding the hints of such an
      intent drops an empty one, so that it is only still there if it is a required hint. */
  ghost predicate DropsEmptyHint(d: Definition, o: Options, suggestions: seq<Suggestion>, j: nat)
    requires j < |suggestions|
  {
    var patch := suggestions[j].patch;
    && patch.AppendHint? && patch.toolName == "" && Selected(o, suggestions[j].id)
    && HintsOf(suggestions, Verdicts(d, o, suggestions), patch.intentId) != []
    && FindIntent(d.intents, patch.intentId).Some?
      && "" !in FindIntent(d.intents, patch.intentId).value.requiredToolHints
  }

  lemma EmptyHintIsDroppedIff(d: Definition, o: Options, suggestions: seq<Suggestion>, j: nat)
    requires j < |suggestions| && suggestions[j].patch.AppendHint? && suggestions[j].patch.toolName == ""
    ensures var id, intent := suggestions[j].patch.intentId, FindIntent(d.intents, suggestions[j].patch.intentId);
            && (DropsEmptyHint(d, o, suggestions, j) <==>
                  && Selected(o, suggestions[j].id) && HintsOf(suggestions, Verdicts(d, o, suggestions), id) != []
                  && intent.Some? && "" !in intent.value.requiredToolHints)
            && (intent.Some? && !HasHint(intent.value, "") ==> "" !in intent.value.requiredToolHints)
  {
  }

  lemma PatchedHasEmptyHintIff(intent: Intent, hints: seq<string>)
    ensures HasHint(PatchIntent(intent, hints), "") <==>
            if hints == [] then HasHint(intent, "") else "" in intent.requiredToolHints
  {
    UniqueHintsIff(intent.toolHints + hints, "");
    hide UniqueHints;
  }

  lemma EmptyHintJudgedAgain(d: Definition, o: Options, suggestions: seq<Suggestion>, j: nat)
    requires j < |suggestions| && suggestions[j].patch.AppendHint? && suggestions[j].patch.toolName == ""
    requires Distinct(IntentIds(d.intents))
    ensures Judge(Patched(d, o, suggestions), o, suggestions[j], [], []).Applied? <==>
      DropsEmptyHint(d, o, suggestions, j)
    ensures Verdicts(d, o, suggestions)[j] == Skipped(IntentApplyLimit) ==> DropsEmptyHint(d, o, suggestions, j)
  {
    var s, v, p := suggestions[j], Verdicts(d, o, suggestions), Patched(d, o, suggestions);
    var id := s.patch.intentId;
    var hints := HintsOf(suggestions, v, id);
    FindPatchedIntent(d, o, suggestions, id);
    hide *;
    NeverReachedByNothing(o);
    PendingAt(d, o, suggestions, j);
    HintVerdict(p, o, s, [], []);
    EmptyHintIsDroppedIff(d, o, suggestions, j);
    if FindIntent(d.intents, id).Some? {
      PatchedHasEmptyHintIff(FindIntent(d.intents, id).value, hints);
    }
  }

  ghost predicate NamesAreGiven(suggestions: seq<Suggestion>) {
    forall j :: 0 <= j < |suggestions| && suggestions[j].patch.AppendHint? ==> suggestions[j].patch.toolName != ""
  }

  /** Suggestions that come back: the limit kept them out, or their empty hint was dropped. */
  ghost predicate ComesBack(d: Definition, o: Options, suggestions: seq<Suggestion>, j: nat)
    requires j < |suggestions|
  {
    Verdicts(d, o, suggestions)[j] == Skipped(IntentApplyLimit) || DropsEmptyHint(d, o, suggestions, j)
  }

  lemma JudgedAgain(d: Definition, o: Options, suggestions: seq<Suggestion>, j: nat)
    requires j < |suggestions| && Distinct(IntentIds(d.intents)) && Distinct(RouteIds(d.routes))
    ensures Judge(Patched(d, o, suggestions), o, suggestions[j], [], []).Applied? <==> ComesBack(d, o, suggestions, j)
  {
    hide Patched, Verdicts, HintsOf, StrategiesOf, Distinct;
    if suggestions[j].patch.AppendHint? {
      if suggestions[j].patch.toolName == "" {
        EmptyHintJudgedAgain(d, o, suggestions, j);
      } else {
        HintJudgedAgain(d, o, suggestions, j);
      }
    } else if suggestions[j].patch.AppendStrategy? {
      StrategySkippedAgain(d, o, suggestions, j);
    } else {
      VerdictAt(d, o, suggestions, j);
    }
  }

  /** As long as nothing has been applied the second time, each verdict is that of the bare definition. */
  lemma JudgedFirst(d: Definition, o: Options, suggestions: seq<Suggestion>, j: nat)
    requires j < |suggestions| && forall i :: 0 <= i < j ==> Verdicts(d, o, suggestions)[i].Skipped?
    ensures Verdicts(d, o, suggestions)[j] == Judge(d, o, suggestions[j], [], [])
  {
    VerdictAt(d, o, suggestions, j);
    var id := Target(suggestions[j].patch);
    NothingAppliedNothingPending(suggestions[..j], Verdicts(d, o, suggestions)[..j], id);
    hide Verdicts, Judge, HintsOf, StrategiesOf;
  }

  lemma {:induction false} SkippedAgain(d: Definition, o: Options, suggestions: seq<Suggestion>, m: nat)
    requires m <= |suggestions|
    requires forall j :: 0 <= j < |suggestions| ==> Judge(d, o, suggestions[j], [], []).Skipped?
    ensures forall j :: 0 <= j < m ==> Verdicts(d, o, suggestions)[j].Skipped?
  {
    hide Judge, Verdicts;
    if m > 0 {
      SkippedAgain(d, o, suggestions, m - 1);
      JudgedFirst(d, o, suggestions, m - 1);
    }
  }

  lemma NothingAppliedIff(d: Definition, o: Options, suggestions: seq<Suggestion>)
    ensures AppliedIds(suggestions, Verdicts(d, o, suggestions)) == [] <==>
            forall j :: 0 <= j < |suggestions| ==> Judge(d, o, suggestions[j], [], []).Skipped?
  {
    var v := Verdicts(d, o, suggestions);
    AppliedAndSkippedAddUp(suggestions, v);
    hide Judge, Verdicts, AppliedIds, SkippedOf;
    if forall j :: 0 <= j < |suggestions| ==> v[j].Skipped? {
      forall j | 0 <= j < |suggestions|
        ensures Judge(d, o, suggestions[j], [], []).Skipped?
      {
        JudgedFirst(d, o, suggestions, j);
      }
    }
    if forall j :: 0 <= j < |suggestions| ==> Judge(d, o, suggestions[j], [], []).Skipped? {
      SkippedAgain(d, o, suggestions, |suggestions|);
    }
  }

  lemma NothingAppliedNothingComesBack(d: Definition, o: Options, suggestions: seq<Suggestion>, j: nat)
    requires j < |suggestions| && AppliedIds(suggestions, Verdicts(d, o, suggestions)) == []
    ensures !ComesBack(d, o, suggestions, j)
  {
    var v := Verdicts(d, o, suggestions);
    AppliedAndSkippedAddUp(suggestions, v);
    JudgedFirst(d, o, suggestions, j);
    NothingAppliedNothingPending(suggestions, v, Target(suggestions[j].patch));
    hide Verdicts, HintsOf, StrategiesOf, AppliedIds;
  }

  /** Whether applying `suggestions` to `d` leaves it alone. */
  ghost predicate ApplyIsIdle(norm: Normalizer, d: Definition, suggestions: seq<Suggestion>, o: Options) {
    var again := Apply(norm, d, suggestions, o);
    again.Some? && !again.value.changed && again.value.definition == d
  }

  lemma ApplyIsIdleIff(norm: Normalizer, d: Definition, suggestions: seq<Suggestion>, o: Options)
    ensures ApplyIsIdle(norm, d, suggestions, o) <==> AppliedIds(suggestions, Verdicts(d, o, suggestions)) == []
  {
  }

  /** Applying the same suggestions to the outcome changes nothing exactly when the limit kept none of them
      out the first time and no empty hint was dropped. */
  lemma ReapplyIsIdleIff(norm: Normalizer, d: Definition, suggestions: seq<Suggestion>, o: Options)
    requires Apply(norm, d, suggestions, o).Some?
    ensures ApplyIsIdle(norm, Apply(norm, d, suggestions, o).value.definition, suggestions, o) <==>
            forall j :: 0 <= j < |suggestions| ==> !ComesBack(d, o, suggestions, j)
  {
    var v, p := Verdicts(d, o, suggestions), Patched(d, o, suggestions);
    if AppliedIds(suggestions, v) == [] {
      hide ComesBack, Verdicts, AppliedIds;
      forall j | 0 <= j < |suggestions|
        ensures !ComesBack(d, o, suggestions, j)
      {
        NothingAppliedNothingComesBack(d, o, suggestions, j);
      }
    } else {
      assert IntentIds(p.intents) == IntentIds(d.intents) && RouteIds(p.routes) == RouteIds(d.routes);
      ApplyIsIdleIff(norm, p, suggestions, o);
      NothingAppliedIff(p, o, suggestions);
      hide Judge, Verdicts, Patched, AppliedIds, SkippedOf, DiffOf, ApplyIsIdle, ComesBack;
      forall j | 0 <= j < |suggestions|
        ensures Judge(p, o, suggestions[j], [], []).Applied? <==> ComesBack(d, o, suggestions, j)
      {
        JudgedAgain(d, o, suggestions, j);
      }
    }
  }

  // The same condition, read off the suggestions before they are applied.

  /** Suggestion `j` is selected and names a tool that its intent, which exists, does not hint yet. */
  ghost predicate NamesNewTool(d: Definition, o: Options, suggestions: seq<Suggestion>, j: int, intentId: string) {
    && 0 <= j < |suggestions| && suggestions[j].patch.AppendHint? && suggestions[j].patch.intentId == intentId
    && Selected(o, suggestions[j].id)
    && FindIntent(d.intents, intentId).Some?
      && !HasHint(FindIntent(d.intents, intentId).value, suggestions[j].patch.toolName)
  }

  /** The distinct tools that selected suggestions name for an intent and that are new to it. */
  ghost function NewTools(d: Definition, o: Options, suggestions: seq<Suggestion>, intentId: string): set<string> {
    set j | 0 <= j < |suggestions| && NamesNewTool(d, o, suggestions, j, intentId) :: suggestions[j].patch.toolName
  }

  lemma NewToolIff(d: Definition, o: Options, suggestions: seq<Suggestion>, intentId: string, t: string)
    ensures t in NewTools(d, o, suggestions, intentId) <==>
            exists j :: NamesNewTool(d, o, suggestions, j, intentId) && suggestions[j].patch.toolName == t
  {
    hide NamesNewTool;
    assert forall j :: NamesNewTool(d, o, suggestions, j, intentId) ==> 0 <= j < |suggestions| by {
      NamingIsInRange(d, o, suggestions, intentId);
    }
  }

  lemma NamingIsInRange(d: Definition, o: Options, suggestions: seq<Suggestion>, intentId: string)
    ensures forall j :: NamesNewTool(d, o, suggestions, j, intentId) ==>
              0 <= j < |suggestions| && suggestions[j].patch.AppendHint? && suggestions[j].patch.intentId == intentId
  {
  }

  /** Every new tool is applied or kept out by the limit; and whatever is applied or kept out is new. */
  lemma NewToolsAreJudged(d: Definition, o: Options, suggestions: seq<Suggestion>, j: nat)
    requires j < |suggestions| && suggestions[j].patch.AppendHint?
    ensures var v, id, tool := Verdicts(d, o, suggestions), suggestions[j].patch.intentId,
      suggestions[j].patch.toolName;
            var hints := HintsOf(suggestions, v, id);
            && (v[j].Applied? ==> NamesNewTool(d, o, suggestions, j, id))
            && (v[j] == Skipped(IntentApplyLimit) <==> NamesNewTool(d, o, suggestions, j, id) && tool !in hints)
            && (v[j] == Skipped(IntentApplyLimit) ==> Limit(o).Some? && |hints| == Limit(o).value)
            && (NamesNewTool(d, o, suggestions, j, id) ==> hints != [])
  {
    PendingAt(d, o, suggestions, j);
    hide Verdicts, HintsOf, FindIntent, HasHint, Selected, Limit;
  }

  lemma PendingAreNewTools(d: Definition, o: Options, suggestions: seq<Suggestion>, intentId: string, t: string)
    requires t in HintsOf(suggestions, Verdicts(d, o, suggestions), intentId)
    ensures t in NewTools(d, o, suggestions, intentId)
  {
    hide NamesNewTool, HintsOf, Verdicts, NewTools;
    HintsOfIff(suggestions, Verdicts(d, o, suggestions), intentId, t);
    var j :| AppliesHint(suggestions, Verdicts(d, o, suggestions), j, intentId, t);
    NewToolsAreJudged(d, o, suggestions, j);
    NewToolIff(d, o, suggestions, intentId, t);
  }

  lemma {:induction false} AsManyAsListed(listed: seq<string>)
    requires Distinct(listed)
    ensures |set t | t in listed| == |listed|
  {
    if listed != [] {
      var n := |listed| - 1;
      AsManyAsListed(listed[..n]);
      assert (set t | t in listed) == (set t | t in listed[..n]) + {listed[n]};
    }
  }

  lemma MoreThanListed(tools: set<string>, listed: seq<string>, t: string)
    requires Distinct(listed) && (forall x :: x in listed ==> x in tools) && t in tools && t !in listed
    ensures |tools| > |listed|
  {
    var own := set x | x in listed;
    AsManyAsListed(listed);
    assert own < tools;
    assert tools == own + (tools - own) && t in tools - own;
  }

  /** The limit keeps some suggestion for an intent out exactly if more distinct tools are new to it. */
  lemma LimitedIffTooMany(d: Definition, o: Options, suggestions: seq<Suggestion>, intentId: string)
    ensures (exists j :: 0 <= j < |suggestions| && LimitedAt(d, o, suggestions, j, intentId)) <==>
            Limit(o).Some? && |NewTools(d, o, suggestions, intentId)| > Limit(o).value
  {
    hide NamesNewTool, HintsOf, Verdicts, NewTools, Limit, Distinct;
    var hints, tools := HintsOf(suggestions, Verdicts(d, o, suggestions), intentId),
      NewTools(d, o, suggestions, intentId);
    PendingFacts(d, o, suggestions, intentId);
    forall t | t in hints
      ensures t in tools
    {
      PendingAreNewTools(d, o, suggestions, intentId, t);
    }
    if j :| 0 <= j < |suggestions| && LimitedAt(d, o, suggestions, j, intentId) {
      NewToolsAreJudged(d, o, suggestions, j);
      NewToolIff(d, o, suggestions, intentId, suggestions[j].patch.toolName);
      MoreThanListed(tools, hints, suggestions[j].patch.toolName);
    }
    if Limit(o).Some? && |tools| > Limit(o).value {
      if forall t :: t in tools ==> t in hints {
        FewerThanListed(tools, hints);
      }
      var t :| t in tools && t !in hints;
      NewToolIff(d, o, suggestions, intentId, t);
      NamingIsInRange(d, o, suggestions, intentId);
      var j :| NamesNewTool(d, o, suggestions, j, intentId) && suggestions[j].patch.toolName == t;
      NewToolsAreJudged(d, o, suggestions, j);
      assert LimitedAt(d, o, suggestions, j, intentId);
    }
  }

  ghost predicate LimitedAt(d: Definition, o: Options, suggestions: seq<Suggestion>, j: nat, intentId: string)
    requires j < |suggestions|
  {
    && suggestions[j].patch.AppendHint? && suggestions[j].patch.intentId == intentId
    && Verdicts(d, o, suggestions)[j] == Skipped(IntentApplyLimit)
  }

  lemma PendingFacts(d: Definition, o: Options, suggestions: seq<Suggestion>, intentId: string)
    ensures var hints := HintsOf(suggestions, Verdicts(d, o, suggestions), intentId);
            Distinct(hints) && (Limit(o).Some? ==> |hints| <= Limit(o).value)
  {
    PendingHintsAreNew(d, o, suggestions, intentId);
    hide HintsOf, Verdicts, FindIntent, HasHint, Limit;
  }

  /** A selected suggestion names the empty tool for an intent that gets new tools and does not require it. */
  ghost predicate LosesEmptyHint(d: Definition, o: Options, suggestions: seq<Suggestion>, j: nat)
    requires j < |suggestions|
  {
    var patch := suggestions[j].patch;
    && patch.AppendHint? && patch.toolName == "" && Selected(o, suggestions[j].id)
    && NewTools(d, o, suggestions, patch.intentId) != {}
    && FindIntent(d.intents, patch.intentId).Some?
      && "" !in FindIntent(d.intents, patch.intentId).value.requiredToolHints
  }

  lemma LosesEmptyHintIff(d: Definition, o: Options, suggestions: seq<Suggestion>, j: nat)
    requires j < |suggestions|
    ensures LosesEmptyHint(d, o, suggestions, j) <==> DropsEmptyHint(d, o, suggestions, j)
  {
    if suggestions[j].patch.AppendHint? {
      SomethingNewIff(d, o, suggestions, suggestions[j].patch.intentId);
    }
    hide NewTools, HintsOf, Verdicts, FindIntent, Selected;
  }

  lemma SomethingNewIff(d: Definition, o: Options, suggestions: seq<Suggestion>, intentId: string)
    ensures NewTools(d, o, suggestions, intentId) != {} <==>
      HintsOf(suggestions, Verdicts(d, o, suggestions), intentId) != []
  {
    hide NamesNewTool, HintsOf, Verdicts, NewTools;
    var hints, tools := HintsOf(suggestions, Verdicts(d, o, suggestions), intentId),
      NewTools(d, o, suggestions, intentId);
    if hints != [] {
      PendingAreNewTools(d, o, suggestions, intentId, hints[0]);
    }
    if t :| t in tools {
      NewToolIff(d, o, suggestions, intentId, t);
      NamingIsInRange(d, o, suggestions, intentId);
      var j :| NamesNewTool(d, o, suggestions, j, intentId) && suggestions[j].patch.toolName == t;
      NewToolsAreJudged(d, o, suggestions, j);
    }
  }

  /** Only hints are kept out by the limit. */
  lemma OnlyHintsAreLimited(d: Definition, o: Options, suggestions: seq<Suggestion>, j: nat)
    requires j < |suggestions| && Verdicts(d, o, suggestions)[j] == Skipped(IntentApplyLimit)
    ensures suggestions[j].patch.AppendHint? && LimitedAt(d, o, suggestions, j, suggestions[j].patch.intentId)
  {
    VerdictAt(d, o, suggestions, j);
    hide HintsOf, StrategiesOf, Verdicts, FindIntent, FindRoute, HasHint, HasStrategy;
  }

  /** Whether applying the same suggestions again changes nothing can be told beforehand: exactly if, for every
      intent, the distinct selected tools that are new to it do not exceed the limit, and no intent that gets
      a new tool is also suggested the empty one. */
  lemma ReapplyIsIdleIffWithinLimit(norm: Normalizer, d: Definition, suggestions: seq<Suggestion>, o: Options)
    requires Apply(norm, d, suggestions, o).Some?
    ensures ApplyIsIdle(norm, Apply(norm, d, suggestions, o).value.definition, suggestions, o) <==>
            && (Limit(o).Some? ==> forall id :: |NewTools(d, o, suggestions, id)| <= Limit(o).value)
            && forall j :: 0 <= j < |suggestions| ==> !LosesEmptyHint(d, o, suggestions, j)
  {
    hide *;
    ReapplyIsIdleIff(norm, d, suggestions, o);
    forall j | 0 <= j < |suggestions|
      ensures ComesBack(d, o, suggestions, j) <==>
              Verdicts(d, o, suggestions)[j] == Skipped(IntentApplyLimit) || LosesEmptyHint(d, o, suggestions, j)
      ensures Verdicts(d, o, suggestions)[j] == Skipped(IntentApplyLimit) <==>
              exists id :: LimitedAt(d, o, suggestions, j, id)
    {
      ComesBackMeans(d, o, suggestions, j);
      LosesEmptyHintIff(d, o, suggestions, j);
      if Verdicts(d, o, suggestions)[j] == Skipped(IntentApplyLimit) {
        OnlyHintsAreLimited(d, o, suggestions, j);
      }
    }
    if forall j :: 0 <= j < |suggestions| ==> !ComesBack(d, o, suggestions, j) {
      forall id | Limit(o).Some?
        ensures |NewTools(d, o, suggestions, id)| <= Limit(o).value
      {
        forall j | 0 <= j < |suggestions|
          ensures !LimitedAt(d, o, suggestions, j, id)
        {
          assert !ComesBack(d, o, suggestions, j);
          ComesBackMeans(d, o, suggestions, j);
        }
        LimitedIffTooMany(d, o, suggestions, id);
      }
    }
    if Limit(o).Some? ==> forall id :: |NewTools(d, o, suggestions, id)| <= Limit(o).value {
      forall j | 0 <= j < |suggestions|
        ensures Verdicts(d, o, suggestions)[j] != Skipped(IntentApplyLimit)
      {
        if id :| LimitedAt(d, o, suggestions, j, id) {
          LimitedIffTooMany(d, o, suggestions, id);
        }
      }
    }
  }

  lemma ComesBackMeans(d: Definition, o: Options, suggestions: seq<Suggestion>, j: nat)
    requires j < |suggestions|
    ensures ComesBack(d, o, suggestions, j) <==>
            Verdicts(d, o, suggestions)[j] == Skipped(IntentApplyLimit) || DropsEmptyHint(d, o, suggestions, j)
    ensures forall id :: LimitedAt(d, o, suggestions, j, id) ==>
      Verdicts(d, o, suggestions)[j] == Skipped(IntentApplyLimit)
  {
    hide Verdicts, DropsEmptyHint;
  }

  lemma NothingComesBackUnlimited(d: Definition, o: Options, suggestions: seq<Suggestion>, j: nat)
    requires j < |suggestions| && NamesAreGiven(suggestions) && o.maxToolHintsPerIntent.None?
    ensures !ComesBack(d, o, suggestions, j)
  {
    VerdictAt(d, o, suggestions, j);
    hide HintsOf, StrategiesOf, Verdicts, FindIntent, FindRoute, HasHint, HasStrategy;
  }

  /** Without a limit and with every tool named, applying twice is applying once. */
  lemma UnlimitedReapplyIsIdle(norm: Normalizer, d: Definition, suggestions: seq<Suggestion>, o: Options)
    requires Apply(norm, d, suggestions, o).Some? && NamesAreGiven(suggestions) && o.maxToolHintsPerIntent.None?
    ensures ApplyIsIdle(norm, Apply(norm, d, suggestions, o).value.definition, suggestions, o)
  {
    hide *;
    ReapplyIsIdleIff(norm, d, suggestions, o);
    forall j | 0 <= j < |suggestions|
      ensures !ComesBack(d, o, suggestions, j)
    {
      NothingComesBackUnlimited(d, o, suggestions, j);
    }
  }

  lemma VerdictsOfTwo(d: Definition, o: Options, first: Suggestion, second: Suggestion)
    requires first.patch.AppendHint? && second.patch.AppendHint? && first.patch.intentId == second.patch.intentId
    ensures var v := Judge(d, o, first, [], []);
            Verdicts(d, o, [first, second]) ==
              [v, Judge(d, o, second, if v.Applied? then [first.patch.toolName] else [], [])]
  {
    hide Judge;
    assert [first, second][..1] == [first] && [first][..0] == [];
    assert Verdicts(d, o, [first]) == [Judge(d, o, first, [], [])];
    assert HintsOf([first], Verdicts(d, o, [first]), first.patch.intentId) ==
           if Judge(d, o, first, [], []).Applied? then [first.patch.toolName] else [];
  }

  lemma SecondIsLimited(d: Definition, o: Options, intent: Intent, first: Suggestion, second: Suggestion)
    requires o.selectedIds.None? && o.maxToolHintsPerIntent == Some(1)
      && FindIntent(d.intents, intent.id) == Some(intent)
    requires first.patch.AppendHint? && first.patch.intentId == intent.id && !HasHint(intent, first.patch.toolName)
    requires second.patch.AppendHint? && second.patch.intentId == intent.id && !HasHint(intent, second.patch.toolName)
    requires first.patch.toolName != second.patch.toolName
    ensures Verdicts(d, o, [first, second]) == [Applied, Skipped(IntentApplyLimit)]
  {
    VerdictsOfTwo(d, o, first, second);
    hide Verdicts, FindIntent, FindRoute, HasStrategy, HasHint;
  }

  lemma OneIntentIsAccepted(norm: Normalizer, d: Definition)
    requires d == Definition(1, [Intent("a", [], [])], [], [], true) && norm("a") == Some("a")
    ensures Accepted(norm, d)
  {
    assert IntentIds(d.intents) == ["a"] && RouteIds(d.routes) == [];
  }

  /** With a limit of one, the second of two tools for an intent is only added by a second pass. */
  lemma LimitedReapplyIsNotIdle(norm: Normalizer)
    requires norm("a") == Some("a")
    ensures var d := Definition(1, [Intent("a", [], [])], [], [], true);
            var both := [Suggestion("1", AppendHint("a", "x")), Suggestion("2", AppendHint("a", "y"))];
            var o := Options(None, true, Some(1));
            && Apply(norm, d, both, o).Some? && !ApplyIsIdle(norm, Apply(norm, d, both, o).value.definition, both, o)
  {
    var d := Definition(1, [Intent("a", [], [])], [], [], true);
    var first, second := Suggestion("1", AppendHint("a", "x")), Suggestion("2", AppendHint("a", "y"));
    var o := Options(None, true, Some(1));
    assert AllAcceptable(norm, [], [first, second], [Applied, Skipped(IntentApplyLimit)]);
    hide Accepted, Apply, ApplyIsIdle, Verdicts, DropsEmptyHint, AllAcceptable;
    FoundById(d.intents, 0);
    SecondIsLimited(d, o, d.intents[0], first, second);
    OneIntentIsAccepted(norm, d);
    ApplySucceedsIff(norm, d, [first, second], o);
    ReapplyIsIdleIff(norm, d, [first, second], o);
    assert ComesBack(d, o, [first, second], 1);
  }
}
