/** Planning: which steps an intent runs, in which order, and which tools they may use. */
module Planning {
  import opened Texts
  import opened Wrappers

  /** `normalizeAssistantWorkflowId`: trimming and lower-casing, with no result for an empty id. Case
      folding is a parameter; all that is used of it is that a normal id is trimmed, is not empty and is its
      own normal form. */
  type Normalizer = string -> Option<string>

  ghost predicate IsNormalizer(norm: Normalizer) {
    forall s :: norm(s).Some? ==> IsNormalId(norm, norm(s).value)
  }

  ghost predicate IsNormalId(norm: Normalizer, id: string) {
    norm(id) == Some(id) && id != "" && Trim(id) == id
  }

  // ----- Lists without duplicates -----

  function Unique(values: seq<string>): (u: seq<string>) {
    if values == [] then []
    else
      var before := Unique(values[..|values| - 1]);
      if values[|values| - 1] in before then before else before + [values[|values| - 1]]
  }

  /** The normalized values, each where it first occurs. */
  function UniqueNormal(norm: Normalizer, values: seq<string>): (u: seq<string>) {
    if values == [] then []
    else
      var before, id := UniqueNormal(norm, values[..|values| - 1]), norm(values[|values| - 1]);
      if id.None? || id.value in before then before else before + [id.value]
  }

  lemma {:induction false} UniqueIsDistinct(values: seq<string>)
    ensures Distinct(Unique(values))
    ensures forall v :: v in Unique(values) <==> v in values
  {
    if values != [] {
      var n := |values| - 1;
      UniqueIsDistinct(values[..n]);
      assert values == values[..n] + [values[n]];
    }
  }

  lemma {:induction false} UniqueOfDistinct(values: seq<string>)
    requires Distinct(values)
    ensures Unique(values) == values
  {
    if values != [] {
      var n := |values| - 1;
      UniqueOfDistinct(values[..n]);
      assert values == values[..n] + [values[n]];
    }
  }

  lemma NextIsKeptIfNew(norm: Normalizer, values: seq<string>, v: string)
    ensures var u := UniqueNormal(norm, values);
            UniqueNormal(norm, values + [v]) == if norm(v).None? || norm(v).value in u then u else u + [norm(v).value]
  {
    assert (values + [v])[..|values|] == values;
  }

  lemma {:induction false} UniqueNormalIsDistinct(norm: Normalizer, values: seq<string>)
    requires IsNormalizer(norm)
    ensures Distinct(UniqueNormal(norm, values))
    ensures forall v :: v in UniqueNormal(norm, values) ==> IsNormalId(norm, v)
    ensures forall i :: 0 <= i < |values| && norm(values[i]).Some? ==>
      norm(values[i]).value in UniqueNormal(norm, values)
  {
    if values != [] {
      var n := |values| - 1;
      UniqueNormalIsDistinct(norm, values[..n]);
      assert norm(values[n]).Some? ==> IsNormalId(norm, norm(values[n]).value);
      hide IsNormalizer, IsNormalId;
      assert values == values[..n] + [values[n]];
    }
  }

  /** Distinct values that are already normal are left as they are. */
  lemma {:induction false} UniqueNormalOfNormal(norm: Normalizer, values: seq<string>)
    requires Distinct(values) && forall v :: v in values ==> norm(v) == Some(v)
    ensures UniqueNormal(norm, values) == values
  {
    if values != [] {
      var n := |values| - 1;
      UniqueNormalOfNormal(norm, values[..n]);
      assert values == values[..n] + [values[n]];
    }
  }

  /** The loop of `uniqueStrings`. */
  method UniqueStrings(norm: Normalizer, values: seq<string>) returns (out: seq<string>)
    ensures out == UniqueNormal(norm, values)
  {
    out := [];
    var seen: set<string> := {};
    for i := 0 to |values|
      invariant out == UniqueNormal(norm, values[..i])
      invariant forall v :: v in seen <==> v in out
    {
      assert values[..i + 1][..i] == values[..i];
      var normalized := norm(values[i]);
      if normalized.Some? && normalized.value !in seen {
        seen := seen + {normalized.value};
        out := out + [normalized.value];
      }
    }
    assert values[..|values|] == values;
  }

  function Filter(values: seq<string>, keep: string -> bool): (r: seq<string>)
    ensures forall v :: v in r <==> v in values && keep(v)
    ensures Distinct(values) ==> Distinct(r)
  {
    if values == [] then []
    else
      var before := Filter(values[..|values| - 1], keep);
      assert values == values[..|values| - 1] + [values[|values| - 1]];
      if keep(values[|values| - 1]) then before + [values[|values| - 1]] else before
  }

  // ----- Plans -----

  datatype StepKind =
    | Classify | Resolve | Retrieve | Fetch | Derive | BuildArtifact | AskClarification | Synthesize | Generate

  datatype StepDefinition = StepDefinition(
    id: string, kind: StepKind, dependsOn: seq<string>, toolHints: seq<string>, requiredToolHints: seq<string>,
      optional: bool)

  /** `active` says whether the profile's condition matches the context of the run. */
  datatype Profile = Profile(id: string, planningSteps: seq<string>, active: bool)

  datatype PlanStep = PlanStep(
    id: string, kind: StepKind, optional: bool, dependsOnStepIds: seq<string>, toolHints: seq<string>,
      requiredToolHints: seq<string>)

  datatype Plan = Plan(steps: seq<PlanStep>, missingPlanningSteps: seq<string>)

  /** `new Map(steps.map(step => [step.id, step]))`. */
  function StepsById(steps: seq<StepDefinition>): map<string, StepDefinition> {
    if steps == [] then map[]
    else StepsById(steps[..|steps| - 1])[steps[|steps| - 1].id := steps[|steps| - 1]]
  }

  function ConditionalStepIds(profiles: seq<Profile>): seq<string> {
    if profiles == [] then []
    else (if profiles[0].active then profiles[0].planningSteps else []) + ConditionalStepIds(profiles[1..])
  }

  predicate IsFinalKind(norm: Normalizer, byId: map<string, StepDefinition>, rawId: string) {
    var id := norm(rawId);
    id.Some? && id.value in byId && byId[id.value].kind in {BuildArtifact, Generate, Synthesize}
  }

  /** The index of the first step that builds, generates or synthesizes; the length if there is none. */
  function FirstFinal(norm: Normalizer, byId: map<string, StepDefinition>, ids: seq<string>): (k: nat)
    ensures k <= |ids|
    ensures forall i :: 0 <= i < k ==> !IsFinalKind(norm, byId, ids[i])
    ensures k < |ids| ==> IsFinalKind(norm, byId, ids[k])
  {
    if ids == [] || IsFinalKind(norm, byId, ids[0]) then 0
    else 1 + FirstFinal(norm, byId, ids[1..])
  }

  /** Conditional steps go before the first final step of the base list. */
  function OrderedStepIds(norm: Normalizer, byId: map<string, StepDefinition>, base: seq<string>,
                          conditional: seq<string>): seq<string>
  {
    var k := FirstFinal(norm, byId, base);
    if conditional == [] then base else base[..k] + conditional + base[k..]
  }

  function AvailableTools(norm: Normalizer, tools: seq<string>, available: set<string>): seq<string> {
    if available == {} then UniqueNormal(norm, tools)
    else Filter(UniqueNormal(norm, tools), t => t in available)
  }

  function TracePlanStep(norm: Normalizer, step: StepDefinition, available: set<string>): PlanStep {
    PlanStep(step.id, step.kind, step.optional, UniqueNormal(norm, step.dependsOn),
             AvailableTools(norm, step.toolHints, available), AvailableTools(norm, step.requiredToolHints, available))
  }

  function Traced(norm: Normalizer, byId: map<string, StepDefinition>, ids: seq<string>,
                  available: set<string>): (steps: seq<PlanStep>)
    requires forall id :: id in ids ==> id in byId
    ensures |steps| == |ids|
    ensures forall i :: 0 <= i < |ids| ==> steps[i] == TracePlanStep(norm, byId[ids[i]], available)
  {
    seq(|ids|, i requires 0 <= i < |ids| => TracePlanStep(norm, byId[ids[i]], available))
  }

  /** The reference: the distinct normalized ids in order, split into declared and missing ones. */
  function PlanOf(norm: Normalizer, steps: seq<StepDefinition>, base: seq<string>, profiles: seq<Profile>,
                  available: set<string>): Plan
  {
    var byId := StepsById(steps);
    var ids := UniqueNormal(norm, OrderedStepIds(norm, byId, base, ConditionalStepIds(profiles)));
    Plan(Traced(norm, byId, Filter(ids, id => id in byId), available), Filter(ids, id => id !in byId))
  }

  lemma NextIsFiltered(values: seq<string>, v: string, keep: string -> bool)
    ensures Filter(values + [v], keep) == Filter(values, keep) + if keep(v) then [v] else []
  {
    assert (values + [v])[..|values|] == values;
  }

  lemma NextIsTraced(norm: Normalizer, byId: map<string, StepDefinition>, ids: seq<string>, id: string,
                     available: set<string>)
    requires id in byId && forall x :: x in ids ==> x in byId
    ensures Traced(norm, byId, ids + [id], available)
      == Traced(norm, byId, ids, available) + [TracePlanStep(norm, byId[id], available)]
  {
  }

  /** The loop of `buildAssistantWorkflowPlan`. */
  method BuildPlan(norm: Normalizer, steps: seq<StepDefinition>, base: seq<string>, profiles: seq<Profile>,
                   available: set<string>)
    returns (plan: Plan)
    ensures plan == PlanOf(norm, steps, base, profiles, available)
  {
    var stepsById := StepsById(steps);
    var orderedStepIds := OrderedStepIds(norm, stepsById, base, ConditionalStepIds(profiles));
    hide StepsById, OrderedStepIds, ConditionalStepIds, TracePlanStep;
    var selected: seq<PlanStep>, missing: seq<string> := [], [];
    var seen: set<string> := {};
    for i := 0 to |orderedStepIds|
      invariant forall v :: v in seen <==> v in UniqueNormal(norm, orderedStepIds[..i])
      invariant selected == Traced(norm, stepsById,
                                   Filter(UniqueNormal(norm, orderedStepIds[..i]), id => id in stepsById), available)
      invariant missing == Filter(UniqueNormal(norm, orderedStepIds[..i]), id => id !in stepsById)
    {
      ghost var before := UniqueNormal(norm, orderedStepIds[..i]);
      assert orderedStepIds[..i + 1] == orderedStepIds[..i] + [orderedStepIds[i]];
      NextIsKeptIfNew(norm, orderedStepIds[..i], orderedStepIds[i]);
      hide UniqueNormal, Filter, Traced;
      var stepId := norm(orderedStepIds[i]);
      if stepId.Some? && stepId.value !in seen {
        seen := seen + {stepId.value};
        NextIsFiltered(before, stepId.value, id => id in stepsById);
        NextIsFiltered(before, stepId.value, id => id !in stepsById);
        if stepId.value in stepsById {
          NextIsTraced(norm, stepsById, Filter(before, id => id in stepsById), stepId.value, available);
          selected := selected + [TracePlanStep(norm, stepsById[stepId.value], available)];
        } else {
          missing := missing + [stepId.value];
        }
      }
    }
    assert orderedStepIds[..|orderedStepIds|] == orderedStepIds;
    plan := Plan(selected, missing);
  }

  ghost predicate DistinctIds(steps: seq<PlanStep>) {
    forall i, j :: 0 <= i < j < |steps| ==> steps[i].id != steps[j].id
  }

  lemma {:induction false} MapKeepsIds(steps: seq<StepDefinition>)
    ensures forall id :: id in StepsById(steps) ==> StepsById(steps)[id].id == id
  {
    if steps != [] {
      MapKeepsIds(steps[..|steps| - 1]);
    }
  }

  /** A plan has no step twice, its step ids are normal, and the tools of its steps are distinct and normalized. */
  lemma PlanIsWellFormed(norm: Normalizer, steps: seq<StepDefinition>, base: seq<string>, profiles: seq<Profile>,
                         available: set<string>)
    requires IsNormalizer(norm)
    ensures var plan := PlanOf(norm, steps, base, profiles, available);
            && DistinctIds(plan.steps)
            && forall i :: 0 <= i < |plan.steps| ==>
              IsNormalId(norm, plan.steps[i].id) && NormalTools(norm, plan.steps[i])
  {
    var byId := StepsById(steps);
    var ids := UniqueNormal(norm, OrderedStepIds(norm, byId, base, ConditionalStepIds(profiles)));
    UniqueNormalIsDistinct(norm, OrderedStepIds(norm, byId, base, ConditionalStepIds(profiles)));
    MapKeepsIds(steps);
    var selected := Filter(ids, id => id in byId);
    hide StepsById, OrderedStepIds, UniqueNormal, Filter, TracePlanStep, NormalTools, IsNormalId;
    var plan := PlanOf(norm, steps, base, profiles, available);
    forall i | 0 <= i < |selected|
      ensures plan.steps[i].id == selected[i] && IsNormalId(norm, selected[i]) && NormalTools(norm, plan.steps[i])
    {
      assert selected[i] in selected;
      TracedToolsAreNormal(norm, byId[selected[i]], available);
    }
  }

  // ----- Which steps are planned, and in which order -----

  lemma {:induction false} KeptIffGiven(norm: Normalizer, values: seq<string>, id: string)
    ensures id in UniqueNormal(norm, values) <==> exists i :: 0 <= i < |values| && norm(values[i]) == Some(id)
  {
    if values != [] {
      KeptIffGiven(norm, values[..|values| - 1], id);
    }
  }

  /** Some list asks for a step, by any spelling of its id. */
  ghost predicate AsksFor(norm: Normalizer, rawIds: seq<string>, id: string) {
    exists i :: 0 <= i < |rawIds| && norm(rawIds[i]) == Some(id)
  }

  ghost predicate ProfileAsksFor(norm: Normalizer, profiles: seq<Profile>, id: string) {
    exists p :: 0 <= p < |profiles| && profiles[p].active && AsksFor(norm, profiles[p].planningSteps, id)
  }

  lemma AskedInEither(norm: Normalizer, a: seq<string>, b: seq<string>, id: string)
    ensures AsksFor(norm, a + b, id) <==> AsksFor(norm, a, id) || AsksFor(norm, b, id)
  {
    if i :| 0 <= i < |a + b| && norm((a + b)[i]) == Some(id) {
      assert i < |a| ==> norm(a[i]) == Some(id);
      assert i >= |a| ==> norm(b[i - |a|]) == Some(id);
    }
    if i :| 0 <= i < |a| && norm(a[i]) == Some(id) {
      assert (a + b)[i] == a[i];
    }
    if i :| 0 <= i < |b| && norm(b[i]) == Some(id) {
      assert (a + b)[|a| + i] == b[i];
    }
  }

  lemma {:induction false} ConditionalIffActive(norm: Normalizer, profiles: seq<Profile>, id: string)
    ensures AsksFor(norm, ConditionalStepIds(profiles), id) <==> ProfileAsksFor(norm, profiles, id)
  {
    if profiles != [] {
      var here := if profiles[0].active then profiles[0].planningSteps else [];
      ConditionalIffActive(norm, profiles[1..], id);
      AskedInEither(norm, here, ConditionalStepIds(profiles[1..]), id);
      hide AsksFor;
      if p :| 0 <= p < |profiles| && profiles[p].active && AsksFor(norm, profiles[p].planningSteps, id) {
        assert p > 0 ==> profiles[1..][p - 1] == profiles[p];
      }
      if p :| 0 <= p < |profiles[1..]| && profiles[1..][p].active && AsksFor(norm, profiles[1..][p].planningSteps, id) {
        assert profiles[p + 1] == profiles[1..][p];
      }
      if here != [] && AsksFor(norm, here, id) {
        assert profiles[0].active;
      }
      assert !AsksFor(norm, [], id) by {
        NobodyAsks(norm, id);
      }
    }
  }

  lemma NobodyAsks(norm: Normalizer, id: string)
    ensures !AsksFor(norm, [], id)
  {
  }

  /** The steps of an earlier active profile come before those of a later one. */
  lemma {:induction false} ProfilesInOrder(a: seq<Profile>, b: seq<Profile>)
    ensures ConditionalStepIds(a + b) == ConditionalStepIds(a) + ConditionalStepIds(b)
  {
    if a == [] {
      assert a + b == b;
    } else {
      assert (a + b)[0] == a[0] && (a + b)[1..] == a[1..] + b;
      ProfilesInOrder(a[1..], b);
    }
  }

  /** Before the first step of the base list that builds an artifact, generates or synthesizes. */
  ghost predicate IsBeforeFinal(norm: Normalizer, byId: map<string, StepDefinition>, base: seq<string>, k: nat) {
    && k <= |base|
    && (forall i :: 0 <= i < k ==> !IsFinalKind(norm, byId, base[i]))
    && (k < |base| ==> IsFinalKind(norm, byId, base[k]))
  }

  lemma OrderedMeans(norm: Normalizer, byId: map<string, StepDefinition>, base: seq<string>, conditional: seq<string>,
                     k: nat)
    requires IsBeforeFinal(norm, byId, base, k)
    ensures OrderedStepIds(norm, byId, base, conditional) == base[..k] + conditional + base[k..]
  {
    var m := FirstFinal(norm, byId, base);
    hide IsFinalKind, FirstFinal;
    assert m == k;
    assert base == base[..k] + base[k..] && base[..k] + [] == base[..k];
  }

  /** A plan holds exactly the declared steps that the base list or an active profile asks for, and reports those
      that are not declared. */
  lemma PlannedIffAsked(norm: Normalizer, steps: seq<StepDefinition>, base: seq<string>, profiles: seq<Profile>,
                        available: set<string>, id: string)
    ensures var plan := PlanOf(norm, steps, base, profiles, available);
            var asked := AsksFor(norm, base, id) || ProfileAsksFor(norm, profiles, id);
            && ((exists i :: 0 <= i < |plan.steps| && plan.steps[i].id == id) <==> asked && id in StepsById(steps))
            && (id in plan.missingPlanningSteps <==> asked && id !in StepsById(steps))
  {
    var byId, conditional := StepsById(steps), ConditionalStepIds(profiles);
    var k := FirstFinal(norm, byId, base);
    OrderedMeans(norm, byId, base, conditional, k);
    var ordered := OrderedStepIds(norm, byId, base, conditional);
    AskedInEither(norm, base[..k] + conditional, base[k..], id);
    AskedInEither(norm, base[..k], conditional, id);
    AskedInEither(norm, base[..k], base[k..], id);
    assert base[..k] + base[k..] == base;
    ConditionalIffActive(norm, profiles, id);
    KeptIffGiven(norm, ordered, id);
    PlanIdsAre(norm, steps, base, profiles, available);
    hide FirstFinal, OrderedStepIds, ConditionalStepIds, UniqueNormal, StepsById, ProfileAsksFor;
  }

  /** The ids of a plan. */
  lemma PlanIdsAre(norm: Normalizer, steps: seq<StepDefinition>, base: seq<string>, profiles: seq<Profile>,
                   available: set<string>)
    ensures var plan, byId := PlanOf(norm, steps, base, profiles, available), StepsById(steps);
            var ids := UniqueNormal(norm, OrderedStepIds(norm, byId, base, ConditionalStepIds(profiles)));
            && |plan.steps| == |Filter(ids, id => id in byId)|
            && (forall i :: 0 <= i < |plan.steps| ==> plan.steps[i].id == Filter(ids, id => id in byId)[i])
            && (forall id :: (exists i :: 0 <= i < |plan.steps| && plan.steps[i].id == id) <==> id in ids && id in byId)
            && (forall id :: id in plan.missingPlanningSteps <==> id in ids && id !in byId)
  {
    MapKeepsIds(steps);
    var plan, byId := PlanOf(norm, steps, base, profiles, available), StepsById(steps);
    var ids := UniqueNormal(norm, OrderedStepIds(norm, byId, base, ConditionalStepIds(profiles)));
    var selected := Filter(ids, id => id in byId);
    hide StepsById, OrderedStepIds, UniqueNormal, Filter, TracePlanStep;
    forall i | 0 <= i < |selected|
      ensures plan.steps[i].id == selected[i]
    {
      assert selected[i] in selected;
      TracedKeepsId(norm, byId[selected[i]], available);
    }
    forall id
      ensures (exists i :: 0 <= i < |plan.steps| && plan.steps[i].id == id) <==> id in ids && id in byId
    {
      assert id in selected <==> id in ids && id in byId;
      if id in selected {
        var i :| 0 <= i < |selected| && selected[i] == id;
        assert plan.steps[i].id == id;
      }
    }
  }

  lemma TracedKeepsId(norm: Normalizer, step: StepDefinition, available: set<string>)
    ensures TracePlanStep(norm, step, available).id == step.id
  {
  }

  lemma {:induction false} KeptInParts(norm: Normalizer, a: seq<string>, b: seq<string>)
    ensures UniqueNormal(norm, a) <= UniqueNormal(norm, a + b)
  {
    if b == [] {
      assert a + b == a;
    } else {
      var init, v := b[..|b| - 1], b[|b| - 1];
      KeptInParts(norm, a, init);
      assert a + b == (a + init) + [v];
      NextIsKeptIfNew(norm, a + init, v);
      hide UniqueNormal;
    }
  }

  lemma {:induction false} FilterInParts(a: seq<string>, b: seq<string>, keep: string -> bool)
    ensures Filter(a + b, keep) == Filter(a, keep) + Filter(b, keep)
  {
    if b == [] {
      assert a + b == a;
    } else {
      var init, v := b[..|b| - 1], b[|b| - 1];
      FilterInParts(a, init, keep);
      assert a + b == (a + init) + [v] && b == init + [v];
      NextIsFiltered(a + init, v, keep);
      NextIsFiltered(init, v, keep);
      hide Filter;
    }
  }

  /** What a first part of a list asks for is kept before what only the rest asks for. */
  lemma EarlierAskedFirst(norm: Normalizer, a: seq<string>, b: seq<string>, keep: string -> bool, i: nat, j: nat)
    requires IsNormalizer(norm)
    requires var s := Filter(UniqueNormal(norm, a + b), keep);
             i < |s| && j < |s| && AsksFor(norm, a, s[i]) && !AsksFor(norm, a, s[j])
    ensures i < j
  {
    hide *;
    var first, all := UniqueNormal(norm, a), UniqueNormal(norm, a + b);
    KeptInParts(norm, a, b);
    UniqueNormalIsDistinct(norm, a + b);
    var rest := all[|first|..];
    assert all == first + rest;
    FilterInParts(first, rest, keep);
    var s := Filter(all, keep);
    AskedIffKept(norm, a, s[i]);
    AskedIffKept(norm, a, s[j]);
    InFirstPart(first, rest, keep, i);
    InFirstPart(first, rest, keep, j);
  }

  lemma AskedIffKept(norm: Normalizer, values: seq<string>, id: string)
    ensures AsksFor(norm, values, id) <==> id in UniqueNormal(norm, values)
  {
    KeptIffGiven(norm, values, id);
  }

  lemma InFirstPart(first: seq<string>, rest: seq<string>, keep: string -> bool, i: nat)
    requires Distinct(first + rest) && Filter(first + rest, keep) == Filter(first, keep) + Filter(rest, keep)
    requires i < |Filter(first + rest, keep)|
    ensures Filter(first + rest, keep)[i] in first <==> i < |Filter(first, keep)|
  {
    hide Filter;
    var s := Filter(first + rest, keep);
    if i < |Filter(first, keep)| {
      assert s[i] == Filter(first, keep)[i] && s[i] in Filter(first, keep);
    } else {
      assert s[i] == Filter(rest, keep)[i - |Filter(first, keep)|] && s[i] in Filter(rest, keep);
      NotInBoth(first, rest, s[i]);
    }
  }

  lemma NotInBoth(first: seq<string>, rest: seq<string>, v: string)
    requires Distinct(first + rest) && v in rest
    ensures v !in first
  {
    var q :| 0 <= q < |rest| && rest[q] == v;
    forall p | 0 <= p < |first|
      ensures first[p] != v
    {
      assert (first + rest)[p] == first[p] && (first + rest)[|first| + q] == v;
    }
  }

  /** In a plan, the steps that stand in the base list before the first one that builds an artifact, generates or
      synthesizes come first, then those that active profiles ask for, and then the others. */
  lemma PlanOrder(norm: Normalizer, steps: seq<StepDefinition>, base: seq<string>, profiles: seq<Profile>,
                  available: set<string>, k: nat, i: nat, j: nat)
    requires IsNormalizer(norm) && IsBeforeFinal(norm, StepsById(steps), base, k)
    requires var s := PlanOf(norm, steps, base, profiles, available).steps; i < |s| && j < |s|
    ensures var s := PlanOf(norm, steps, base, profiles, available).steps;
            && (AsksFor(norm, base[..k], s[i].id) && !AsksFor(norm, base[..k], s[j].id) ==> i < j)
            && (ProfileAsksFor(norm, profiles, s[i].id)
                && !ProfileAsksFor(norm, profiles, s[j].id) && !AsksFor(norm, base[..k], s[j].id) ==>
                  i < j)
  {
    hide *;
    var byId, conditional := StepsById(steps), ConditionalStepIds(profiles);
    var s := PlanOf(norm, steps, base, profiles, available).steps;
    BeforeFinalIsInRange(norm, byId, base, k);
    OrderedMeans(norm, byId, base, conditional, k);
    PlanIdsAre(norm, steps, base, profiles, available);
    ConditionalIffActive(norm, profiles, s[i].id);
    ConditionalIffActive(norm, profiles, s[j].id);
    AskedInEither(norm, base[..k], conditional, s[i].id);
    AskedInEither(norm, base[..k], conditional, s[j].id);
    assert base[..k] + conditional + base[k..] == base[..k] + (conditional + base[k..]);
    if AsksFor(norm, base[..k], s[i].id) && !AsksFor(norm, base[..k], s[j].id) {
      EarlierAskedFirst(norm, base[..k], conditional + base[k..], id => id in byId, i, j);
    } else if ProfileAsksFor(norm, profiles, s[i].id) && !ProfileAsksFor(norm, profiles, s[j].id)
      && !AsksFor(norm, base[..k], s[j].id)
    {
      EarlierAskedFirst(norm, base[..k] + conditional, base[k..], id => id in byId, i, j);
    }
  }

  lemma BeforeFinalIsInRange(norm: Normalizer, byId: map<string, StepDefinition>, base: seq<string>, k: nat)
    requires IsBeforeFinal(norm, byId, base, k)
    ensures k <= |base|
  {
  }

  /** The kinds of steps that end a plan. */
  lemma FinalKinds(norm: Normalizer, byId: map<string, StepDefinition>, rawId: string)
    ensures IsFinalKind(norm, byId, rawId) <==>
            exists id :: norm(rawId) == Some(id) && id in byId
                         && (byId[id].kind == BuildArtifact || byId[id].kind == Generate || byId[id].kind == Synthesize)
  {
  }

  /** Every planned step is traced from the definition of its id. */
  lemma PlanStepIsTraced(norm: Normalizer, steps: seq<StepDefinition>, base: seq<string>, profiles: seq<Profile>,
                         available: set<string>, i: nat)
    requires i < |PlanOf(norm, steps, base, profiles, available).steps|
    ensures var byId, step := StepsById(steps), PlanOf(norm, steps, base, profiles, available).steps[i];
            step.id in byId && step == TracePlanStep(norm, byId[step.id], available)
  {
    MapKeepsIds(steps);
    var byId := StepsById(steps);
    var ids := UniqueNormal(norm, OrderedStepIds(norm, byId, base, ConditionalStepIds(profiles)));
    var selected := Filter(ids, id => id in byId);
    hide StepsById, OrderedStepIds, UniqueNormal, Filter, AvailableTools;
    assert selected[i] in selected;
  }

  /** The definition of a step requires a tool. */
  ghost predicate RequiresTool(norm: Normalizer, step: StepDefinition, tool: string) {
    exists h :: h in step.requiredToolHints && norm(h) == Some(tool)
  }

  /** A planned step is of the kind that its definition says, optional if that is, and depends on the steps that it
      names. Its tools are those of its definition that are available. */
  lemma TracedStepTells(norm: Normalizer, step: StepDefinition, available: set<string>, x: string)
    ensures var traced := TracePlanStep(norm, step, available);
            && traced.id == step.id && traced.kind == step.kind && traced.optional == step.optional
            && (x in traced.dependsOnStepIds <==> AsksFor(norm, step.dependsOn, x))
            && (x in traced.toolHints <==> AsksFor(norm, step.toolHints, x) && IsAvailable(available, x))
            && (x in traced.requiredToolHints <==>
                AsksFor(norm, step.requiredToolHints, x) && IsAvailable(available, x))
  {
    KeptIffGiven(norm, step.dependsOn, x);
    KeptIffGiven(norm, step.toolHints, x);
    KeptIffGiven(norm, step.requiredToolHints, x);
    hide UniqueNormal;
  }

  predicate IsAvailable(available: set<string>, tool: string) {
    available == {} || tool in available
  }

  /** Planning keeps a required tool exactly if it is available, and drops every tool that is not. */
  lemma TracedToolsAreAvailable(norm: Normalizer, step: StepDefinition, available: set<string>, tool: string)
    requires IsNormalizer(norm)
    ensures var traced := TracePlanStep(norm, step, available);
            && (RequiresTool(norm, step, tool) && IsAvailable(available, tool) ==> tool in traced.requiredToolHints)
            && (tool in traced.requiredToolHints || tool in traced.toolHints ==> IsAvailable(available, tool))
  {
    UniqueNormalIsDistinct(norm, step.requiredToolHints);
    hide UniqueNormal, IsNormalizer, IsNormalId;
    if h :| h in step.requiredToolHints && norm(h) == Some(tool) {
      var k :| 0 <= k < |step.requiredToolHints| && step.requiredToolHints[k] == h;
    }
  }

  lemma TracedToolsAreNormal(norm: Normalizer, step: StepDefinition, available: set<string>)
    requires IsNormalizer(norm)
    ensures NormalTools(norm, TracePlanStep(norm, step, available))
    ensures TracePlanStep(norm, step, available).id == step.id
  {
    UniqueNormalIsDistinct(norm, step.requiredToolHints);
    UniqueNormalIsDistinct(norm, step.toolHints);
  }

  ghost predicate NormalTools(norm: Normalizer, step: PlanStep) {
    && Distinct(step.requiredToolHints) && (forall t :: t in step.requiredToolHints ==> IsNormalId(norm, t))
    && Distinct(step.toolHints) && (forall t :: t in step.toolHints ==> IsNormalId(norm, t))
  }
}
