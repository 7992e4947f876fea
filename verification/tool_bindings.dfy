/** Resolution of tool names to capabilities and bindings. */
module ToolBindings {
  import opened Wrappers
  import opened ExecutionBudget
  import opened WorkflowTypes
  import opened Planning

  datatype ResolutionStatus = Ready | MissingCapability | MissingBinding | ProviderMismatch

  datatype Resolution = Resolution(toolName: string, capability: Option<Capability>, binding: Option<Binding>) {
    function Status(): ResolutionStatus {
      if capability.None? then MissingCapability
      else if binding.None? then MissingBinding
      else if capability.value.provider != binding.value.provider then ProviderMismatch
      else Ready
    }
  }

  datatype Workflow = Workflow(
    tools: seq<Capability>,
    bindings: seq<Binding>,
    planningSteps: seq<StepDefinition>,
    executionBudget: Option<Budget>,
    executionPolicy: Option<Policy>)

  /** Lookup in a map built from a list, where the last entry of a name counts. */
  function FindCapability(tools: seq<Capability>, name: string): (c: Option<Capability>)
    ensures c.Some? ==> c.value in tools && c.value.name == name
    ensures c.None? <==> forall i :: 0 <= i < |tools| ==> tools[i].name != name
  {
    if tools == [] then None
    else if tools[|tools| - 1].name == name then Some(tools[|tools| - 1])
    else FindCapability(tools[..|tools| - 1], name)
  }

  function FindBinding(bindings: seq<Binding>, name: string): (b: Option<Binding>)
    ensures b.Some? ==> b.value in bindings && b.value.name == name
    ensures b.None? <==> forall i :: 0 <= i < |bindings| ==> bindings[i].name != name
  {
    if bindings == [] then None
    else if bindings[|bindings| - 1].name == name then Some(bindings[|bindings| - 1])
    else FindBinding(bindings[..|bindings| - 1], name)
  }

  function ResolveTool(w: Workflow, name: string): Resolution {
    Resolution(name, FindCapability(w.tools, name), FindBinding(w.bindings, name))
  }

  function ResolveAll(w: Workflow, names: seq<string>): (rs: seq<Resolution>)
    ensures |rs| == |names| && forall i :: 0 <= i < |names| ==> rs[i] == ResolveTool(w, names[i])
  {
    seq(|names|, i requires 0 <= i < |names| => ResolveTool(w, names[i]))
  }

  /** The loop of `resolveAssistantWorkflowTools`: one resolution per distinct normalized name. */
  method ResolveTools(norm: Normalizer, w: Workflow, toolNames: seq<string>) returns (resolutions: seq<Resolution>)
    ensures resolutions == ResolveAll(w, UniqueNormal(norm, toolNames))
  {
    hide ResolveTool;
    resolutions := [];
    var seen: set<string> := {};
    for i := 0 to |toolNames|
      invariant forall v :: v in seen <==> v in UniqueNormal(norm, toolNames[..i])
      invariant resolutions == ResolveAll(w, UniqueNormal(norm, toolNames[..i]))
    {
      assert toolNames[..i + 1][..i] == toolNames[..i];
      var toolName := norm(toolNames[i]);
      if toolName.Some? && toolName.value !in seen {
        seen := seen + {toolName.value};
        resolutions := resolutions + [ResolveTool(w, toolName.value)];
      }
    }
    assert toolNames[..|toolNames|] == toolNames;
  }

  /** All context that the tool of a ready resolution requires is available. Without a list of available
      context nothing is missing. */
  predicate HasContext(r: Resolution, available: Option<set<string>>) {
    available.Some? && r.Status() == Ready ==>
      forall i :: 0 <= i < |r.capability.value.requiredContext| ==>
        r.capability.value.requiredContext[i] in available.value
  }

  predicate Usable(r: Resolution, available: Option<set<string>>) {
    r.Status() == Ready && HasContext(r, available)
  }

  predicate AllUsable(w: Workflow, names: seq<string>, available: Option<set<string>>) {
    forall i :: 0 <= i < |names| ==> Usable(ResolveTool(w, names[i]), available)
  }

  /** Of several entries of a name the last counts. */
  lemma {:induction false} LastEntryCounts(tools: seq<Capability>, bindings: seq<Binding>, name: string, i: nat)
    ensures i < |tools| && tools[i].name == name && (forall j :: i < j < |tools| ==> tools[j].name != name) ==>
              FindCapability(tools, name) == Some(tools[i])
    ensures i < |bindings| && bindings[i].name == name
            && (forall j :: i < j < |bindings| ==> bindings[j].name != name) ==>
              FindBinding(bindings, name) == Some(bindings[i])
    decreases |tools| + |bindings|
  {
    if i + 1 < |tools| {
      LastEntryCounts(tools[..|tools| - 1], [], name, i);
    }
    if i + 1 < |bindings| {
      LastEntryCounts([], bindings[..|bindings| - 1], name, i);
    }
  }

  /** A tool can be used exactly when it is declared and bound, for one provider, and all context that it requires is
      available; without a list of available context, none is missing. */
  lemma UsableIffBound(w: Workflow, name: string, available: Option<set<string>>)
    ensures Usable(ResolveTool(w, name), available) <==>
            exists c, b :: FindCapability(w.tools, name) == Some(c) && FindBinding(w.bindings, name) == Some(b)
                           && c.provider == b.provider
                           && (available.Some? ==> forall x :: x in c.requiredContext ==> x in available.value)
  {
    var c, b := FindCapability(w.tools, name), FindBinding(w.bindings, name);
    if Usable(ResolveTool(w, name), available) {
      assert c == Some(c.value) && b == Some(b.value);
    }
    hide FindCapability, FindBinding;
  }
}
